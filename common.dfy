/** Shared vocabulary of the services: the error classes they throw, result
    wrappers, sequence folds in the shape of `Array.reduce` / `filter`, and a
    repository table of rows with an auto-increment counter. */
module Common {

  datatype Option<T> = None | Some(value: T) {
    function GetOr(default: T): T {
      if Some? then value else default
    }
  }

  /** NotFoundException, ForbiddenException and BadRequestException. */
  datatype Error = NotFound | Forbidden | BadRequest

  /** The outcome of a service call that returns a row. */
  datatype Result<T> = Ok(value: T) | Err(error: Error)

  /** The outcome of a service call that returns only a message. */
  datatype Status = Done | Failed(error: Error)

  function Abs(x: real): (r: real)
    ensures r >= 0.0 && (r == x || r == -x)
  {
    if x < 0.0 then -x else x
  }

  function Min(x: real, y: real): (r: real)
    ensures r <= x && r <= y && (r == x || r == y)
  {
    if x <= y then x else y
  }

  /** A ratio in percent; None stands for JavaScript's non-finite result of a division by zero. */
  function Percent(part: real, whole: real): (r: Option<real>)
    ensures r.Some? <==> whole != 0.0
    ensures r.Some? ==> r.value * whole == part * 100.0
  {
    if whole == 0.0 then None else Some(part / whole * 100.0)
  }

  /** `s.reduce((sum, x) => sum + f(x), 0)`: folded from the left, so the
      last element is added last. */
  function SumBy<T>(s: seq<T>, f: T -> real): real
  {
    if s == [] then 0.0 else SumBy(s[..|s| - 1], f) + f(s[|s| - 1])
  }

  lemma {:induction false} SumByAppend<T>(s: seq<T>, t: seq<T>, f: T -> real)
    ensures SumBy(s + t, f) == SumBy(s, f) + SumBy(t, f)
  {
    if t == [] {
      assert s + t == s;
    } else {
      assert (s + t)[..|s + t| - 1] == s + t[..|t| - 1];
      SumByAppend(s, t[..|t| - 1], f);
    }
  }

  /** Adding one more element at the end adds its value. */
  lemma SumBySnoc<T>(s: seq<T>, x: T, f: T -> real)
    ensures SumBy(s + [x], f) == SumBy(s, f) + f(x)
  {
    assert (s + [x])[..|s + [x]| - 1] == s;
  }

  /** Summing a value that is the same on every element multiplies it by the length. */
  lemma {:induction false} SumByConstant<T>(s: seq<T>, f: T -> real, c: real)
    requires forall i :: 0 <= i < |s| ==> f(s[i]) == c
    ensures SumBy(s, f) == |s| as real * c
  {
    if s != [] {
      SumByConstant(s[..|s| - 1], f, c);
    }
  }

  lemma SumByCons<T>(x: T, s: seq<T>, f: T -> real)
    ensures SumBy([x] + s, f) == f(x) + SumBy(s, f)
  {
    SumByAppend([x], s, f);
    assert [x][..0] == [];
  }

  /** Sums taken with two functions that agree on every element are equal. */
  lemma {:induction false} SumByCongruent<T>(s: seq<T>, f: T -> real, g: T -> real)
    requires forall i :: 0 <= i < |s| ==> f(s[i]) == g(s[i])
    ensures SumBy(s, f) == SumBy(s, g)
  {
    if s != [] {
      SumByCongruent(s[..|s| - 1], f, g);
    }
  }

  /** The sum of a difference is the difference of the sums. */
  lemma {:induction false} SumByDifference<T>(s: seq<T>, f: T -> real, g: T -> real, h: T -> real)
    requires forall i :: 0 <= i < |s| ==> h(s[i]) == f(s[i]) - g(s[i])
    ensures SumBy(s, h) == SumBy(s, f) - SumBy(s, g)
  {
    if s != [] {
      SumByDifference(s[..|s| - 1], f, g, h);
    }
  }

  /** Two sequences of the same length whose elements contribute the same
      values position by position have the same sum. */
  lemma {:induction false} SumByPointwise<S, T>(s: seq<S>, f: S -> real, t: seq<T>, g: T -> real)
    requires |s| == |t|
    requires forall i :: 0 <= i < |s| ==> f(s[i]) == g(t[i])
    ensures SumBy(s, f) == SumBy(t, g)
  {
    if s != [] {
      SumByPointwise(s[..|s| - 1], f, t[..|t| - 1], g);
    }
  }

  /** When each element contributes c times what its partner contributes,
      the sum is c times the partner's sum. */
  lemma {:induction false} SumByScaled<S, T>(s: seq<S>, f: S -> real, t: seq<T>, g: T -> real, c: real)
    requires |s| == |t|
    requires forall i :: 0 <= i < |s| ==> f(s[i]) == c * g(t[i])
    ensures SumBy(s, f) == c * SumBy(t, g)
  {
    if s != [] {
      SumByScaled(s[..|s| - 1], f, t[..|t| - 1], g, c);
    }
  }

  lemma {:induction false} SumByNonNegative<T>(s: seq<T>, f: T -> real)
    requires forall i :: 0 <= i < |s| ==> f(s[i]) >= 0.0
    ensures SumBy(s, f) >= 0.0
  {
    if s != [] {
      SumByNonNegative(s[..|s| - 1], f);
    }
  }

  /** `s.filter(p)`, in order. */
  function Filter<T>(s: seq<T>, p: T -> bool): (r: seq<T>)
    ensures |r| <= |s|
  {
    if s == [] then []
    else Filter(s[..|s| - 1], p) + (if p(s[|s| - 1]) then [s[|s| - 1]] else [])
  }

  lemma {:induction false} FilterAppend<T>(s: seq<T>, t: seq<T>, p: T -> bool)
    ensures Filter(s + t, p) == Filter(s, p) + Filter(t, p)
  {
    if t == [] {
      assert s + t == s;
    } else {
      assert (s + t)[..|s + t| - 1] == s + t[..|t| - 1];
      FilterAppend(s, t[..|t| - 1], p);
    }
  }

  lemma {:induction false} FilterMembers<T>(s: seq<T>, p: T -> bool)
    ensures forall x :: x in Filter(s, p) <==> x in s && p(x)
  {
    if s != [] {
      FilterMembers(s[..|s| - 1], p);
      assert s == s[..|s| - 1] + [s[|s| - 1]];
    }
  }

  /** A filter keeps each matching element as often as it occurs, and no other. */
  lemma {:induction false} FilterCounts<T>(s: seq<T>, p: T -> bool)
    ensures forall x :: multiset(Filter(s, p))[x] == if p(x) then multiset(s)[x] else 0
  {
    if s != [] {
      var init, last := s[..|s| - 1], s[|s| - 1];
      FilterCounts(init, p);
      assert s == init + [last];
    }
  }

  lemma {:induction false} FilterAll<T>(s: seq<T>, p: T -> bool)
    requires forall i :: 0 <= i < |s| ==> p(s[i])
    ensures Filter(s, p) == s
  {
    if s != [] {
      FilterAll(s[..|s| - 1], p);
      assert s == s[..|s| - 1] + [s[|s| - 1]];
    }
  }

  lemma {:induction false} FilterNone<T>(s: seq<T>, p: T -> bool)
    requires forall i :: 0 <= i < |s| ==> !p(s[i])
    ensures Filter(s, p) == []
  {
    if s != [] {
      FilterNone(s[..|s| - 1], p);
    }
  }

  /** Filtering by one predicate is the same as filtering by another that agrees with it on s. */
  lemma {:induction false} FilterCongruent<T>(s: seq<T>, p: T -> bool, q: T -> bool)
    requires forall i :: 0 <= i < |s| ==> p(s[i]) == q(s[i])
    ensures Filter(s, p) == Filter(s, q)
  {
    if s != [] {
      FilterCongruent(s[..|s| - 1], p, q);
    }
  }

  /** Summing the rows a filter keeps is summing every row with the others counted as 0. */
  lemma {:induction false} SumByFilter<T>(s: seq<T>, p: T -> bool, f: T -> real)
    ensures SumBy(Filter(s, p), f) == SumBy(s, x => if p(x) then f(x) else 0.0)
  {
    if s != [] {
      var init, last := s[..|s| - 1], s[|s| - 1];
      SumByFilter(init, p, f);
      SumByAppend(Filter(init, p), if p(last) then [last] else [], f);
      if p(last) {
        assert SumBy([last], f) == f(last) by { assert [last][..0] == []; }
      }
    }
  }

  /** Filtering and summing a sequence with one more element. */
  lemma SumByFilterSnoc<T>(s: seq<T>, x: T, p: T -> bool, f: T -> real)
    ensures SumBy(Filter(s + [x], p), f) == SumBy(Filter(s, p), f) + (if p(x) then f(x) else 0.0)
  {
    assert (s + [x])[..|s + [x]| - 1] == s;
    if p(x) {
      SumBySnoc(Filter(s, p), x, f);
    } else {
      assert Filter(s, p) + [] == Filter(s, p);
    }
  }

  /** A filtered sum over a row spliced between two runs. */
  lemma {:induction false} SumByFilterSplice<T>(a: seq<T>, y: T, b: seq<T>, p: T -> bool, f: T -> real)
    ensures SumBy(Filter(a + [y] + b, p), f)
            == SumBy(Filter(a, p), f) + (if p(y) then f(y) else 0.0) + SumBy(Filter(b, p), f)
  {
    FilterAppend(a + [y], b, p);
    FilterAppend(a, [y], p);
    assert [y][..0] == [];
    SumByAppend(Filter(a, p) + Filter([y], p), Filter(b, p), f);
    SumByAppend(Filter(a, p), Filter([y], p), f);
    if p(y) {
      assert Filter([y], p) == [y];
      assert SumBy([y], f) == f(y) by {
        assert [y][..0] == [];
      }
    } else {
      assert Filter([y], p) == [];
    }
  }

  /** How a filtered sum moves when one row is overwritten. */
  lemma {:induction false} SumByFilterUpdate<T>(s: seq<T>, i: nat, x: T, p: T -> bool, f: T -> real)
    requires i < |s|
    ensures SumBy(Filter(s[i := x], p), f)
            == SumBy(Filter(s, p), f) - (if p(s[i]) then f(s[i]) else 0.0) + (if p(x) then f(x) else 0.0)
  {
    assert s == s[..i] + [s[i]] + s[i + 1..];
    assert s[i := x] == s[..i] + [x] + s[i + 1..];
    SumByFilterSplice(s[..i], s[i], s[i + 1..], p, f);
    SumByFilterSplice(s[..i], x, s[i + 1..], p, f);
  }

  /** How a sum moves when one element is overwritten. */
  lemma {:induction false} SumByUpdate<T>(s: seq<T>, i: nat, x: T, f: T -> real)
    requires i < |s|
    ensures SumBy(s[i := x], f) == SumBy(s, f) - f(s[i]) + f(x)
  {
    assert s == s[..i] + [s[i]] + s[i + 1..];
    assert s[i := x] == s[..i] + [x] + s[i + 1..];
    SumByAppend(s[..i] + [s[i]], s[i + 1..], f);
    SumByAppend(s[..i] + [x], s[i + 1..], f);
    SumBySnoc(s[..i], s[i], f);
    SumBySnoc(s[..i], x, f);
  }

  /** The number of rows satisfying p: the repositories' `count({ where })`. */
  function Count<T>(s: seq<T>, p: T -> bool): nat
  {
    |Filter(s, p)|
  }

  lemma {:induction false} CountPositive<T>(s: seq<T>, p: T -> bool)
    ensures Count(s, p) > 0 <==> exists i :: 0 <= i < |s| && p(s[i])
  {
    if s != [] {
      var init := s[..|s| - 1];
      CountPositive(init, p);
      if exists i :: 0 <= i < |init| && p(init[i]) {
        var i :| 0 <= i < |init| && p(init[i]);
        assert s[i] == init[i];
      }
      if exists i :: 0 <= i < |s| && p(s[i]) {
        var i :| 0 <= i < |s| && p(s[i]);
        if i < |init| {
          assert init[i] == s[i];
        }
      }
    }
  }

  /** How a count moves when one row is overwritten. */
  lemma CountUpdate<T>(s: seq<T>, i: nat, x: T, p: T -> bool)
    requires i < |s|
    ensures Count(s[i := x], p) == Count(s, p) - (if p(s[i]) then 1 else 0) + (if p(x) then 1 else 0)
  {
    assert s == s[..i] + [s[i]] + s[i + 1..];
    assert s[i := x] == s[..i] + [x] + s[i + 1..];
    FilterAppend(s[..i] + [s[i]], s[i + 1..], p);
    FilterAppend(s[..i], [s[i]], p);
    FilterAppend(s[..i] + [x], s[i + 1..], p);
    FilterAppend(s[..i], [x], p);
    assert [s[i]][..0] == [] && [x][..0] == [];
  }

  lemma CountAppend<T>(s: seq<T>, x: T, p: T -> bool)
    ensures Count(s + [x], p) == Count(s, p) + (if p(x) then 1 else 0)
  {
    FilterAppend(s, [x], p);
    assert [x][..0] == [];
  }

  /** The first index whose row satisfies p: the repositories' `findOne({ where })`. */
  function FindFirst<T>(s: seq<T>, p: T -> bool): (r: Option<nat>)
    ensures r.Some? ==> r.value < |s| && p(s[r.value]) && forall j :: 0 <= j < r.value ==> !p(s[j])
    ensures r.None? ==> forall j :: 0 <= j < |s| ==> !p(s[j])
  {
    if s == [] then None
    else if p(s[0]) then Some(0)
    else match FindFirst(s[1..], p)
      case None => None
      case Some(k) => Some(k + 1)
  }

  /** The indices of the rows among the first n that satisfy p, in increasing order. */
  function IndicesWhere<T>(rows: seq<T>, p: T -> bool, n: nat): (r: seq<nat>)
    requires n <= |rows|
    ensures forall k :: 0 <= k < |r| ==> r[k] < n
  {
    if n == 0 then []
    else IndicesWhere(rows, p, n - 1) + (if p(rows[n - 1]) then [n - 1] else [])
  }

  /** An index list that names each row at most once, in table order. */
  predicate ValidIndices<T>(rows: seq<T>, idx: seq<nat>) {
    (forall k :: 0 <= k < |idx| ==> idx[k] < |rows|)
    && forall k1, k2 :: 0 <= k1 < k2 < |idx| ==> idx[k1] < idx[k2]
  }

  lemma {:induction false} IndicesWhereMembers<T>(rows: seq<T>, p: T -> bool, n: nat)
    requires n <= |rows|
    ensures ValidIndices(rows, IndicesWhere(rows, p, n))
    ensures forall k :: 0 <= k < |IndicesWhere(rows, p, n)| ==> IndicesWhere(rows, p, n)[k] < n
    ensures forall i :: i in IndicesWhere(rows, p, n) <==> 0 <= i < n && p(rows[i])
  {
    if n > 0 {
      IndicesWhereMembers(rows, p, n - 1);
    }
  }

  /** A database table: its rows in insertion order and the next auto-increment id. */
  class Table<T> {
    var rows: seq<T>
    var nextId: nat

    constructor ()
      ensures rows == [] && nextId == 1
    {
      rows := [];
      nextId := 1;
    }

    /** `repo.save(newRow)`: appends the row and consumes one id. */
    method Insert(row: T)
      modifies this
      ensures rows == old(rows) + [row] && nextId == old(nextId) + 1
    {
      rows := rows + [row];
      nextId := nextId + 1;
    }

    /** `repo.save(existingRow)`: overwrites the stored row. */
    method Save(i: nat, row: T)
      requires i < |rows|
      modifies this
      ensures rows == old(rows)[i := row] && nextId == old(nextId)
    {
      rows := rows[i := row];
    }

    /** `repo.remove(row)`: deletes the stored row. */
    method Remove(i: nat)
      requires i < |rows|
      modifies this
      ensures rows == old(rows)[..i] + old(rows)[i + 1..] && nextId == old(nextId)
    {
      rows := rows[..i] + rows[i + 1..];
    }
  }
}
