/** `Array.prototype.sort` with a comparator, as the reports use it, and the
    `ORDER BY` of the listings: an insertion sort that places each element
    after the last one that may precede it. It is proved ordered and a
    permutation of its input. */
module Sorting {
  import opened Common

  /** Any two elements compare, and comparison chains. */
  ghost predicate TotalPreorder<T(!new)>(before: (T, T) -> bool) {
    (forall a, b :: before(a, b) || before(b, a))
    && forall a, b, c :: before(a, b) && before(b, c) ==> before(a, c)
  }

  predicate SortedBy<T>(s: seq<T>, before: (T, T) -> bool) {
    forall i, j :: 0 <= i < j < |s| ==> before(s[i], s[j])
  }

  /** Places x after the last element of s that may precede it. */
  function InsertBy<T>(x: T, s: seq<T>, before: (T, T) -> bool): (r: seq<T>)
    ensures |r| == |s| + 1
    ensures multiset(r) == multiset(s) + multiset{x}
  {
    if s == [] then [x]
    else if before(s[|s| - 1], x) then s + [x]
    else
      assert s == s[..|s| - 1] + [s[|s| - 1]];
      InsertBy(x, s[..|s| - 1], before) + [s[|s| - 1]]
  }

  /** The elements of s in comparator order. */
  function SortBy<T>(s: seq<T>, before: (T, T) -> bool): (r: seq<T>)
    ensures |r| == |s|
    ensures multiset(r) == multiset(s)
  {
    if s == [] then []
    else
      assert s == s[..|s| - 1] + [s[|s| - 1]];
      InsertBy(s[|s| - 1], SortBy(s[..|s| - 1], before), before)
  }

  lemma {:induction false} InsertSorted<T(!new)>(x: T, s: seq<T>, before: (T, T) -> bool)
    requires TotalPreorder(before)
    requires SortedBy(s, before)
    ensures SortedBy(InsertBy(x, s, before), before)
  {
    if s != [] && !before(s[|s| - 1], x) {
      var init, last := s[..|s| - 1], s[|s| - 1];
      assert SortedBy(init, before);
      InsertSorted(x, init, before);
      var front := InsertBy(x, init, before);
      assert before(x, last);
      forall k | 0 <= k < |front| ensures before(front[k], last) {
        assert front[k] in multiset(init) + multiset{x};
        if front[k] != x {
          var i :| 0 <= i < |init| && init[i] == front[k];
          assert s[i] == init[i];
        }
      }
    }
  }

  /** The sorted list is sorted and holds the same elements. */
  lemma {:induction false} SortSorted<T(!new)>(s: seq<T>, before: (T, T) -> bool)
    requires TotalPreorder(before)
    ensures SortedBy(SortBy(s, before), before)
    ensures multiset(SortBy(s, before)) == multiset(s)
  {
    if s != [] {
      SortSorted(s[..|s| - 1], before);
      InsertSorted(s[|s| - 1], SortBy(s[..|s| - 1], before), before);
    }
  }

  lemma {:induction false} InsertSum<T>(x: T, s: seq<T>, before: (T, T) -> bool, f: T -> real)
    ensures SumBy(InsertBy(x, s, before), f) == SumBy(s, f) + f(x)
  {
    if s == [] {
      assert SumBy([x], f) == f(x) by {
        assert [x][..0] == [];
      }
    } else if before(s[|s| - 1], x) {
      SumBySnoc(s, x, f);
    } else {
      var init, last := s[..|s| - 1], s[|s| - 1];
      InsertSum(x, init, before, f);
      SumBySnoc(InsertBy(x, init, before), last, f);
    }
  }

  /** Sorting does not change a sum. */
  lemma {:induction false} SortSum<T>(s: seq<T>, before: (T, T) -> bool, f: T -> real)
    ensures SumBy(SortBy(s, before), f) == SumBy(s, f)
  {
    if s != [] {
      SortSum(s[..|s| - 1], before, f);
      InsertSum(s[|s| - 1], SortBy(s[..|s| - 1], before), before, f);
    }
  }

  /** Sorting neither adds nor drops an element. */
  lemma SortMembers<T>(s: seq<T>, before: (T, T) -> bool)
    ensures forall x :: x in SortBy(s, before) <==> x in s
  {
    forall x ensures x in SortBy(s, before) <==> x in s {
      assert x in SortBy(s, before) <==> x in multiset(SortBy(s, before));
      assert x in s <==> x in multiset(s);
    }
  }

  /** Every element of a reordering comes from the original. */
  lemma PermutedFrom<T>(r: seq<T>, s: seq<T>)
    requires multiset(r) == multiset(s)
    ensures forall k :: 0 <= k < |r| ==> r[k] in s
  {
    forall k | 0 <= k < |r| ensures r[k] in s {
      assert r[k] in multiset(s);
    }
  }

  /** In a list whose keys are distinct, a value occurs at most once. */
  lemma {:induction false} OccursOnce<T, K>(s: seq<T>, key: T -> K, x: T)
    requires forall a, b :: 0 <= a < b < |s| ==> key(s[a]) != key(s[b])
    ensures multiset(s)[x] <= 1
  {
    if s != [] {
      var init, last := s[..|s| - 1], s[|s| - 1];
      assert s == init + [last];
      OccursOnce(init, key, x);
      if last == x {
        forall a | 0 <= a < |init| ensures init[a] != x {
          assert key(s[a]) != key(s[|s| - 1]);
        }
        assert x !in multiset(init);
      }
    }
  }

  /** A value that occurs at most once is not found at two positions. */
  lemma AtMostOnce<T>(r: seq<T>, i: nat, j: nat)
    requires i < j < |r| && multiset(r)[r[i]] <= 1
    ensures r[i] != r[j]
  {
    assert r == r[..j] + [r[j]] + r[j + 1..];
    assert r[..j][i] == r[i];
    assert multiset(r[..j])[r[i]] >= 1;
    assert multiset(r)[r[i]] == multiset(r[..j])[r[i]] + multiset([r[j]])[r[i]] + multiset(r[j + 1..])[r[i]];
  }

  /** A reordering of a list with distinct keys has distinct keys. */
  lemma KeysStayDistinct<T, K>(r: seq<T>, s: seq<T>, key: T -> K)
    requires multiset(r) == multiset(s)
    requires forall a, b :: 0 <= a < b < |s| ==> key(s[a]) != key(s[b])
    ensures forall i, j :: 0 <= i < j < |r| ==> key(r[i]) != key(r[j])
  {
    PermutedFrom(r, s);
    forall i, j | 0 <= i < j < |r| ensures key(r[i]) != key(r[j]) {
      var a :| 0 <= a < |s| && s[a] == r[i];
      var b :| 0 <= b < |s| && s[b] == r[j];
      OccursOnce(s, key, r[i]);
      AtMostOnce(r, i, j);
      assert a < b || b < a;
    }
  }

  /** `(a, b) => key(b) - key(a)`: larger keys first. */
  function Descending<T>(key: T -> real): (T, T) -> bool {
    (a: T, b: T) => key(a) >= key(b)
  }

  lemma DescendingIsTotalPreorder<T(!new)>(key: T -> real)
    ensures TotalPreorder(Descending(key))
  {
  }

  /** Lexicographic order on character codes. */
  predicate LexLe(a: string, b: string) {
    if a == [] then true
    else if b == [] then false
    else if a[0] != b[0] then a[0] < b[0]
    else LexLe(a[1..], b[1..])
  }

  lemma {:induction false} LexTotal(a: string, b: string)
    ensures LexLe(a, b) || LexLe(b, a)
  {
    if a != [] && b != [] && a[0] == b[0] {
      LexTotal(a[1..], b[1..]);
    }
  }

  lemma {:induction false} LexTransitive(a: string, b: string, c: string)
    requires LexLe(a, b) && LexLe(b, c)
    ensures LexLe(a, c)
  {
    if a != [] && b != [] && c != [] && a[0] == b[0] && b[0] == c[0] {
      LexTransitive(a[1..], b[1..], c[1..]);
    }
  }

  /** Two strings each at most the other are equal. */
  lemma {:induction false} LexAntisymmetric(a: string, b: string)
    requires LexLe(a, b) && LexLe(b, a)
    ensures a == b
  {
    if a != [] && b != [] {
      LexAntisymmetric(a[1..], b[1..]);
      assert a == [a[0]] + a[1..] && b == [b[0]] + b[1..];
    }
  }

  /** `(a, b) => key(a).localeCompare(key(b))` on keys made of digits and '-',
      where it agrees with character-code order. */
  function Ascending<T>(key: T -> string): (T, T) -> bool {
    (a: T, b: T) => LexLe(key(a), key(b))
  }

  lemma AscendingIsTotalPreorder<T(!new)>(key: T -> string)
    ensures TotalPreorder(Ascending(key))
  {
    forall a: T, b: T ensures Ascending(key)(a, b) || Ascending(key)(b, a) {
      LexTotal(key(a), key(b));
    }
    forall a: T, b: T, c: T | Ascending(key)(a, b) && Ascending(key)(b, c) ensures Ascending(key)(a, c) {
      LexTransitive(key(a), key(b), key(c));
    }
  }
}
