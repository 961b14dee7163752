/** Settlements of settlements.service.ts: recording a payment, pouring it
    greedily over open splits, the settler's history, and the payer-only
    update and delete. */
module Settlements {
  import opened Common
  import opened Entities
  import Groups
  import opened Sorting

  /** The fields of CreateSettlementDto the model keeps; `date` is replaced by
      the current time before saving. */
  datatype SettlementInput = SettlementInput(groupId: nat, payerId: nat, amount: real, notes: Option<string>)

  /** The update DTO: any field of the create DTO. */
  datatype SettlementPatch = SettlementPatch(groupId: Option<nat>, payerId: Option<nat>, amount: Option<real>,
                                             notes: Option<string>, date: Option<int>)

  // ------------------------------------------------------------------
  // Which splits a payment is poured over

  /** The query of markSplitsAsSettled, as written: unsettled splits of the
      group's expenses that the settling user PAID. */
  predicate Candidate(expenses: seq<GroupExpense>, g: nat, payer: nat, s: Split) {
    !s.settled
    && exists i :: 0 <= i < |expenses| && expenses[i].id == s.expenseId
                   && expenses[i].groupId == g && expenses[i].paidBy == payer
  }

  function CandidateOf(expenses: seq<GroupExpense>, g: nat, payer: nat): Split -> bool {
    (s: Split) => Candidate(expenses, g, payer, s)
  }

  function Candidates(rows: seq<Split>, expenses: seq<GroupExpense>, g: nat, payer: nat): seq<nat> {
    IndicesWhere(rows, CandidateOf(expenses, g, payer), |rows|)
  }

  /** The candidates are exactly the unsettled splits on expenses of the group
      whose payer is the settling user, each once, in table order. */
  lemma CandidatesPaidByPayer(rows: seq<Split>, expenses: seq<GroupExpense>, g: nat, payer: nat)
    ensures ValidIndices(rows, Candidates(rows, expenses, g, payer))
    ensures forall i :: i in Candidates(rows, expenses, g, payer) <==>
              0 <= i < |rows| && !rows[i].settled
              && exists j :: 0 <= j < |expenses| && expenses[j].id == rows[i].expenseId
                             && expenses[j].groupId == g && expenses[j].paidBy == payer
  {
    IndicesWhereMembers(rows, CandidateOf(expenses, g, payer), |rows|);
  }

  // ------------------------------------------------------------------
  // The greedy loop as a function

  /** One iteration: retire the split if the remaining amount covers what is
      outstanding, otherwise pour everything into it. */
  function Step(s: Split, remaining: real): (Split, real) {
    if remaining >= Outstanding(s) then (s.(paid := s.owed, settled := true), remaining - Outstanding(s))
    else (s.(paid := s.paid + remaining), 0.0)
  }

  /** The loop from a given point on: the rows after it and the amount left
      when it stops (at the end of the list or when the remainder hits 0). */
  function Pour(rows: seq<Split>, idx: seq<nat>, remaining: real): (r: (seq<Split>, real))
    requires forall k :: 0 <= k < |idx| ==> idx[k] < |rows|
    ensures |r.0| == |rows|
    decreases |idx|
  {
    if idx == [] then (rows, remaining)
    else
      var (s, left) := Step(rows[idx[0]], remaining);
      var next := rows[idx[0] := s];
      if left == 0.0 then (next, 0.0)
      else Pour(next, idx[1..], left)
  }

  function Pick(rows: seq<Split>, idx: seq<nat>): seq<Split>
    requires forall k :: 0 <= k < |idx| ==> idx[k] < |rows|
  {
    seq(|idx|, k requires 0 <= k < |idx| => rows[idx[k]])
  }

  /** Splits that are not overpaid. */
  predicate NotOverpaid(ss: seq<Split>) {
    forall k :: 0 <= k < |ss| ==> ss[k].paid <= ss[k].owed
  }

  /** A retired split: paid in full and settled. */
  predicate Retired(s: Split) {
    s.settled && s.paid == s.owed
  }

  /** The same split with a different paid amount or settled flag. */
  predicate SameDebt(before: Split, after: Split) {
    after.id == before.id && after.expenseId == before.expenseId && after.userId == before.userId
    && after.owed == before.owed
  }

  /** One step applies min(remaining, outstanding) to the split, never past
      what it owes, and moves on only after retiring it. */
  lemma StepApplies(s: Split, remaining: real)
    requires s.paid <= s.owed && remaining >= 0.0
    ensures SameDebt(s, Step(s, remaining).0)
    ensures s.paid <= Step(s, remaining).0.paid <= s.owed
    ensures Step(s, remaining).0.paid - s.paid == Min(remaining, Outstanding(s))
    ensures Step(s, remaining).1 == remaining - Min(remaining, Outstanding(s))
    ensures Step(s, remaining).1 != 0.0 ==> Retired(Step(s, remaining).0) && remaining > Outstanding(s)
  {
  }

  /** Pour writes only candidate rows. */
  lemma {:induction false} PourFrame(rows: seq<Split>, idx: seq<nat>, remaining: real)
    requires ValidIndices(rows, idx)
    ensures forall i :: 0 <= i < |rows| && i !in idx ==> Pour(rows, idx, remaining).0[i] == rows[i]
    decreases |idx|
  {
    if idx != [] {
      var (s, left) := Step(rows[idx[0]], remaining);
      var next := rows[idx[0] := s];
      if left != 0.0 {
        PickAfterWrite(rows, idx, s);
        PourFrame(next, idx[1..], left);
        forall i | 0 <= i < |rows| && i !in idx ensures Pour(rows, idx, remaining).0[i] == rows[i] {
          assert i !in idx[1..];
        }
      }
    }
  }

  /** The rows after the first candidate are still as they were when the loop reaches them. */
  lemma PickAfterWrite(rows: seq<Split>, idx: seq<nat>, s: Split)
    requires ValidIndices(rows, idx) && idx != []
    ensures ValidIndices(rows[idx[0] := s], idx[1..])
    ensures Pick(rows[idx[0] := s], idx[1..]) == Pick(rows, idx[1..])
    ensures Pick(rows, idx) == [rows[idx[0]]] + Pick(rows, idx[1..])
    ensures idx[0] !in idx[1..]
  {
    assert forall k :: 0 <= k < |idx[1..]| ==> idx[1..][k] == idx[k + 1] && idx[0] < idx[k + 1];
  }

  /** What the candidates have been paid in total. */
  function PaidTotal(rows: seq<Split>, idx: seq<nat>): real
    requires forall k :: 0 <= k < |idx| ==> idx[k] < |rows|
  {
    SumBy(Pick(rows, idx), PaidOf)
  }

  /** What the candidates still owe in total. */
  function OutstandingTotal(rows: seq<Split>, idx: seq<nat>): real
    requires forall k :: 0 <= k < |idx| ==> idx[k] < |rows|
  {
    SumBy(Pick(rows, idx), Outstanding)
  }

  /** Facts about the rest of the list once the first candidate is written. */
  lemma PourRest(rows: seq<Split>, idx: seq<nat>, s: Split)
    requires ValidIndices(rows, idx) && idx != []
    requires NotOverpaid(Pick(rows, idx))
    ensures rows[idx[0]].paid <= rows[idx[0]].owed
    ensures NotOverpaid(Pick(rows[idx[0] := s], idx[1..]))
    ensures OutstandingTotal(rows[idx[0] := s], idx[1..]) >= 0.0
    ensures PaidTotal(rows, idx) == rows[idx[0]].paid + PaidTotal(rows[idx[0] := s], idx[1..])
    ensures OutstandingTotal(rows, idx) == Outstanding(rows[idx[0]]) + OutstandingTotal(rows[idx[0] := s], idx[1..])
  {
    PickAfterWrite(rows, idx, s);
    var rest := Pick(rows, idx[1..]);
    assert rows[idx[0]] == Pick(rows, idx)[0];
    SumByCons(rows[idx[0]], rest, PaidOf);
    SumByCons(rows[idx[0]], rest, Outstanding);
    forall k | 0 <= k < |rest| ensures rest[k].paid <= rest[k].owed && Outstanding(rest[k]) >= 0.0 {
      assert rest[k] == Pick(rows, idx)[k + 1];
    }
    SumByNonNegative(rest, Outstanding);
  }

  /** The candidates' paid total after writing s at the first candidate. */
  lemma PaidAfterWrite(rows: seq<Split>, idx: seq<nat>, s: Split)
    requires ValidIndices(rows, idx) && idx != []
    ensures PaidTotal(rows[idx[0] := s], idx) == s.paid + PaidTotal(rows[idx[0] := s], idx[1..])
  {
    var next := rows[idx[0] := s];
    PickAfterWrite(next, idx, s);
    assert next[idx[0] := s] == next;
    SumByCons(s, Pick(next, idx[1..]), PaidOf);
  }

  /** The amount applied to the candidates is min(amount, what they owe in
      total); whatever exceeds their total is left over, and the loop drops it. */
  lemma {:induction false} PourApplies(rows: seq<Split>, idx: seq<nat>, remaining: real)
    requires ValidIndices(rows, idx)
    requires remaining >= 0.0
    requires NotOverpaid(Pick(rows, idx))
    ensures PaidTotal(Pour(rows, idx, remaining).0, idx) - PaidTotal(rows, idx)
            == Min(remaining, OutstandingTotal(rows, idx))
    ensures Pour(rows, idx, remaining).1 == remaining - Min(remaining, OutstandingTotal(rows, idx))
    decreases |idx|
  {
    if idx != [] {
      var i := idx[0];
      var (s, left) := Step(rows[i], remaining);
      var next := rows[i := s];
      var after := Pour(rows, idx, remaining).0;
      PourRest(rows, idx, s);
      StepApplies(rows[i], remaining);
      PickAfterWrite(rows, idx, s);
      if left == 0.0 {
        PaidAfterWrite(rows, idx, s);
      } else {
        PourApplies(next, idx[1..], left);
        PourFrame(next, idx[1..], left);
        assert after[i] == s;
        assert after == after[i := s];
        PaidAfterWrite(after, idx, s);
        assert Pick(after, idx[1..]) == Pick(after[i := s], idx[1..]);
      }
    }
  }

  /** No split ends up paid beyond what it owes, no payment lowers a paid
      amount, and only the paid amount and the settled flag change. */
  lemma {:induction false} PourBounded(rows: seq<Split>, idx: seq<nat>, remaining: real)
    requires ValidIndices(rows, idx)
    requires remaining >= 0.0
    requires NotOverpaid(Pick(rows, idx))
    ensures forall k :: 0 <= k < |idx| ==>
              SameDebt(rows[idx[k]], Pour(rows, idx, remaining).0[idx[k]])
              && rows[idx[k]].paid <= Pour(rows, idx, remaining).0[idx[k]].paid <= rows[idx[k]].owed
    decreases |idx|
  {
    if idx != [] {
      var i := idx[0];
      var (s, left) := Step(rows[i], remaining);
      var next := rows[i := s];
      var after := Pour(rows, idx, remaining).0;
      PourRest(rows, idx, s);
      StepApplies(rows[i], remaining);
      PickAfterWrite(rows, idx, s);
      if left != 0.0 {
        PourBounded(next, idx[1..], left);
        PourFrame(next, idx[1..], left);
      }
      forall k | 0 <= k < |idx|
        ensures SameDebt(rows[idx[k]], after[idx[k]]) && rows[idx[k]].paid <= after[idx[k]].paid <= rows[idx[k]].owed
      {
        if k > 0 {
          assert idx[k] == idx[1..][k - 1] && idx[0] < idx[k];
          assert next[idx[k]] == rows[idx[k]] == Pick(rows, idx)[k];
        } else {
          assert after[i] == s;
        }
      }
    }
  }

  /** The loop retires a prefix of the candidates: when a later candidate was
      changed, every earlier one was paid in full and settled. */
  lemma {:induction false} PourRetiresPrefix(rows: seq<Split>, idx: seq<nat>, remaining: real)
    requires ValidIndices(rows, idx)
    ensures forall k1, k2 :: 0 <= k1 < k2 < |idx| && Pour(rows, idx, remaining).0[idx[k2]] != rows[idx[k2]] ==>
              Retired(Pour(rows, idx, remaining).0[idx[k1]])
    decreases |idx|
  {
    if idx != [] {
      var i := idx[0];
      var (s, left) := Step(rows[i], remaining);
      var next := rows[i := s];
      var after := Pour(rows, idx, remaining).0;
      PickAfterWrite(rows, idx, s);
      if left != 0.0 {
        PourRetiresPrefix(next, idx[1..], left);
        PourFrame(next, idx[1..], left);
        forall k1, k2 | 0 <= k1 < k2 < |idx| && after[idx[k2]] != rows[idx[k2]] ensures Retired(after[idx[k1]]) {
          assert idx[k2] == idx[1..][k2 - 1] && idx[0] < idx[k2];
          if k1 > 0 {
            assert idx[k1] == idx[1..][k1 - 1];
          }
        }
      } else {
        forall k | 0 < k < |idx| ensures after[idx[k]] == rows[idx[k]] {
          assert idx[0] < idx[k];
        }
      }
    }
  }

  // Operations

  /** The loop of markSplitsAsSettled over a given list of splits: each
      visited split is saved, and the loop stops as soon as the remainder is 0;
      a remainder left at the end is discarded. */
  method PourOver(splits: Table<Split>, idx: seq<nat>, amount: real)
    requires forall k :: 0 <= k < |idx| ==> idx[k] < |splits.rows|
    modifies splits
    ensures splits.rows == Pour(old(splits.rows), idx, amount).0
    ensures splits.nextId == old(splits.nextId)
  {
    var remaining := amount;
    var k := 0;
    while k < |idx|
      invariant 0 <= k <= |idx|
      invariant |splits.rows| == |old(splits.rows)| && splits.nextId == old(splits.nextId)
      invariant k > 0 ==> remaining != 0.0
      invariant Pour(splits.rows, idx[k..], remaining) == Pour(old(splits.rows), idx, amount)
    {
      var split := splits.rows[idx[k]];
      var owed := split.owed - split.paid;
      if remaining >= owed {
        split := split.(paid := split.owed, settled := true);
        remaining := remaining - owed;
      } else {
        split := split.(paid := split.paid + remaining);
        remaining := 0.0;
      }
      splits.Save(idx[k], split);
      assert idx[k..][1..] == idx[k + 1..];
      if remaining == 0.0 {
        break;
      }
      k := k + 1;
    }
  }

  /** markSplitsAsSettled: selects the candidates (as written, splits on
      expenses the settling user paid) and pours the amount over them. */
  method MarkSplitsAsSettled(expenses: Table<GroupExpense>, splits: Table<Split>, g: nat, payer: nat, amount: real)
    modifies splits
    ensures splits.rows == Pour(old(splits.rows), Candidates(old(splits.rows), expenses.rows, g, payer), amount).0
    ensures splits.nextId == old(splits.nextId)
  {
    var idx := Candidates(splits.rows, expenses.rows, g, payer);
    PourOver(splits, idx, amount);
  }

  /** create: NotFound for an unknown group, BadRequest unless the acting user
      is the payer; otherwise the settlement is saved with the current time,
      the amount is poured over the candidate splits and the payer is told. */
  method Create(groups: Table<Group>, expenses: Table<GroupExpense>, splits: Table<Split>,
                settlements: Table<Settlement>, notices: Table<Notice>, actor: nat, input: SettlementInput, now: int)
    returns (r: Result<Settlement>)
    requires input.amount > 0.0
    modifies splits, settlements, notices
    ensures Groups.GroupIndex(groups.rows, input.groupId).None? ==>
              r == Err(NotFound) && unchanged(splits) && unchanged(settlements) && unchanged(notices)
    ensures Groups.GroupIndex(groups.rows, input.groupId).Some? && input.payerId != actor ==>
              r == Err(BadRequest) && unchanged(splits) && unchanged(settlements) && unchanged(notices)
    ensures Groups.GroupIndex(groups.rows, input.groupId).Some? && input.payerId == actor ==>
              r == Ok(Settlement(old(settlements.nextId), input.groupId, input.payerId, input.amount, input.notes, now))
              && settlements.rows == old(settlements.rows) + [r.value]
              && settlements.nextId == old(settlements.nextId) + 1
              && splits.rows == Pour(old(splits.rows), Candidates(old(splits.rows), expenses.rows, input.groupId, actor),
                                     input.amount).0
              && splits.nextId == old(splits.nextId)
              && notices.rows == old(notices.rows) + [Notice(actor, SettlementRecorded)]
              && notices.nextId == old(notices.nextId) + 1
  {
    if Groups.GroupIndex(groups.rows, input.groupId).None? {
      return Err(NotFound);
    }
    if input.payerId != actor {
      return Err(BadRequest);
    }
    var st := Settlement(settlements.nextId, input.groupId, input.payerId, input.amount, input.notes, now);
    settlements.Insert(st);
    MarkSplitsAsSettled(expenses, splits, input.groupId, input.payerId, input.amount);
    notices.Insert(Notice(input.payerId, SettlementRecorded));
    r := Ok(st);
  }

  /** getSettlementHistory's answer. */
  datatype History = History(settlements: seq<Settlement>, totalPaid: real, netBalance: real)

  function ByPayer(g: nat, u: nat): Settlement -> bool {
    (s: Settlement) => s.groupId == g && s.payerId == u
  }

  function AmountOf(s: Settlement): real {
    s.amount
  }

  function SettlementDate(s: Settlement): real {
    s.date as real
  }

  /** getSettlementHistory: the user's settlements in the group, newest first
      (`date DESC`); `total_paid` and `net_balance` are both their summed amounts. */
  function GetSettlementHistory(rows: seq<Settlement>, g: nat, u: nat): (h: History)
    ensures forall s :: s in h.settlements <==> s in rows && s.groupId == g && s.payerId == u
    ensures multiset(h.settlements) == multiset(Filter(rows, ByPayer(g, u)))
    ensures SortedBy(h.settlements, Descending(SettlementDate))
    ensures h.totalPaid == h.netBalance == SumBy(h.settlements, AmountOf)
  {
    var mine := Filter(rows, ByPayer(g, u));
    var sorted := SortBy(mine, Descending(SettlementDate));
    FilterMembers(rows, ByPayer(g, u));
    SortMembers(mine, Descending(SettlementDate));
    DescendingIsTotalPreorder(SettlementDate);
    SortSorted(mine, Descending(SettlementDate));
    History(sorted, SumBy(sorted, AmountOf), SumBy(sorted, AmountOf))
  }

  /** Recording a settlement raises the payer's history total by its amount and
      leaves every other user's history as it was. */
  lemma HistoryAfterCreate(rows: seq<Settlement>, st: Settlement, g: nat, u: nat)
    ensures GetSettlementHistory(rows + [st], g, u).totalPaid
            == GetSettlementHistory(rows, g, u).totalPaid + (if st.groupId == g && st.payerId == u then st.amount else 0.0)
  {
    FilterAppend(rows, [st], ByPayer(g, u));
    SumByAppend(Filter(rows, ByPayer(g, u)), Filter([st], ByPayer(g, u)), AmountOf);
    assert [st][..0] == [];
    SortSum(Filter(rows, ByPayer(g, u)), Descending(SettlementDate), AmountOf);
    SortSum(Filter(rows + [st], ByPayer(g, u)), Descending(SettlementDate), AmountOf);
  }

  function SettlementIndex(rows: seq<Settlement>, id: nat): Option<nat> {
    FindFirst(rows, (s: Settlement) => s.id == id)
  }

  function ApplyPatch(s: Settlement, p: SettlementPatch): Settlement {
    Settlement(s.id, p.groupId.GetOr(s.groupId), p.payerId.GetOr(s.payerId), p.amount.GetOr(s.amount),
               if p.notes.Some? then p.notes else s.notes, p.date.GetOr(s.date))
  }

  /** update: NotFound, then BadRequest unless the acting user is the payer;
      otherwise the patch is assigned. The splits are not revisited. */
  method Update(settlements: Table<Settlement>, actor: nat, id: nat, patch: SettlementPatch)
    returns (r: Result<Settlement>)
    modifies settlements
    ensures match SettlementIndex(old(settlements.rows), id)
            case None => r == Err(NotFound) && unchanged(settlements)
            case Some(i) =>
              if old(settlements.rows[i].payerId) != actor then r == Err(BadRequest) && unchanged(settlements)
              else r == Ok(ApplyPatch(old(settlements.rows[i]), patch))
                   && settlements.rows == old(settlements.rows)[i := r.value]
                   && settlements.nextId == old(settlements.nextId)
  {
    var found := SettlementIndex(settlements.rows, id);
    if found.None? {
      return Err(NotFound);
    }
    var i := found.value;
    if settlements.rows[i].payerId != actor {
      return Err(BadRequest);
    }
    var updated := ApplyPatch(settlements.rows[i], patch);
    settlements.Save(i, updated);
    r := Ok(updated);
  }

  /** remove: NotFound, then BadRequest unless the acting user is the payer;
      otherwise the settlement row is deleted and no split is reverted. */
  method Remove(settlements: Table<Settlement>, actor: nat, id: nat) returns (s: Status)
    modifies settlements
    ensures match SettlementIndex(old(settlements.rows), id)
            case None => s == Failed(NotFound) && unchanged(settlements)
            case Some(i) =>
              if old(settlements.rows[i].payerId) != actor then s == Failed(BadRequest) && unchanged(settlements)
              else s == Done && settlements.rows == old(settlements.rows)[..i] + old(settlements.rows)[i + 1..]
                   && settlements.nextId == old(settlements.nextId)
  {
    var found := SettlementIndex(settlements.rows, id);
    if found.None? {
      return Failed(NotFound);
    }
    var i := found.value;
    if settlements.rows[i].payerId != actor {
      return Failed(BadRequest);
    }
    settlements.Remove(i);
    s := Done;
  }
}

/** What markSplitsAsSettled evidently means to do: pour the settling user's
    payment over that user's own open debts in the group. */
module OwnDebtSettlements {
  import opened Common
  import opened Entities
  import opened Settlements

  /** As written, a debtor's settlement misses the debtor's own split and is
      poured over what others owe the debtor instead. B owes 30.00 on A's
      dinner: when B settles 30.00 nothing of B's is a candidate, and when A
      settles 30.00, B's split is marked paid. */
  lemma SettlementMissesOwnDebt()
    ensures var expenses := [GroupExpense(1, 1, 1, "dinner", 60.0, None, Equal, 0)];
            var rows := [Split(1, 1, 1, 30.0, 30.0, true), Split(2, 1, 2, 30.0, 0.0, false)];
            Candidates(rows, expenses, 1, 2) == []
            && Pour(rows, Candidates(rows, expenses, 1, 2), 30.0).0[1] == rows[1]
            && Candidates(rows, expenses, 1, 1) == [1]
            && Pour(rows, Candidates(rows, expenses, 1, 1), 30.0).0[1] == Split(2, 1, 2, 30.0, 30.0, true)
  {
    var expenses := [GroupExpense(1, 1, 1, "dinner", 60.0, None, Equal, 0)];
    var rows := [Split(1, 1, 1, 30.0, 30.0, true), Split(2, 1, 2, 30.0, 0.0, false)];
    assert !Candidate(expenses, 1, 2, rows[1]);
    assert !Candidate(expenses, 1, 2, rows[0]) && !Candidate(expenses, 1, 1, rows[0]);
    assert expenses[0].id == rows[1].expenseId && expenses[0].groupId == 1 && expenses[0].paidBy == 1;
    assert Candidate(expenses, 1, 1, rows[1]);
  }

  /** One of the settling user's open splits on an expense of the group that
      someone else paid. */
  predicate OwnDebt(expenses: seq<GroupExpense>, g: nat, payer: nat, s: Split) {
    !s.settled && s.userId == payer
    && exists i :: 0 <= i < |expenses| && expenses[i].id == s.expenseId
                   && expenses[i].groupId == g && expenses[i].paidBy != payer
  }

  function OwnDebtOf(expenses: seq<GroupExpense>, g: nat, payer: nat): Split -> bool {
    (s: Split) => OwnDebt(expenses, g, payer, s)
  }

  function OwnDebts(rows: seq<Split>, expenses: seq<GroupExpense>, g: nat, payer: nat): seq<nat> {
    IndicesWhere(rows, OwnDebtOf(expenses, g, payer), |rows|)
  }

  lemma OwnDebtsOfPayer(rows: seq<Split>, expenses: seq<GroupExpense>, g: nat, payer: nat)
    ensures ValidIndices(rows, OwnDebts(rows, expenses, g, payer))
    ensures forall i :: i in OwnDebts(rows, expenses, g, payer) <==> 0 <= i < |rows| && OwnDebt(expenses, g, payer, rows[i])
  {
    IndicesWhereMembers(rows, OwnDebtOf(expenses, g, payer), |rows|);
  }

  /** The corrected markSplitsAsSettled. */
  method MarkOwnDebtsAsSettled(expenses: Table<GroupExpense>, splits: Table<Split>, g: nat, payer: nat, amount: real)
    modifies splits
    ensures splits.rows == Pour(old(splits.rows), OwnDebts(old(splits.rows), expenses.rows, g, payer), amount).0
    ensures splits.nextId == old(splits.nextId)
  {
    var idx := OwnDebts(splits.rows, expenses.rows, g, payer);
    PourOver(splits, idx, amount);
  }

  /** The owed amounts do not change, so what is outstanding drops by what
      was paid. */
  lemma OutstandingDrop(before: seq<Split>, after: seq<Split>)
    requires |before| == |after|
    requires forall k :: 0 <= k < |before| ==> SameDebt(before[k], after[k])
    ensures SumBy(after, Outstanding) == SumBy(before, Outstanding) - (SumBy(after, PaidOf) - SumBy(before, PaidOf))
  {
    SumByDifference(before, OwedOf, PaidOf, Outstanding);
    SumByDifference(after, OwedOf, PaidOf, Outstanding);
    SumByPointwise(before, OwedOf, after, OwedOf);
  }

  /** With the corrected selection, a settlement lowers what the settling user
      owes in the group by min(amount, their debt) and changes no one else's
      split. */
  lemma SettlingReducesOwnDebt(rows: seq<Split>, expenses: seq<GroupExpense>, g: nat, payer: nat, amount: real)
    requires amount >= 0.0
    requires NotOverpaid(rows)
    ensures var idx := OwnDebts(rows, expenses, g, payer);
            var after := Pour(rows, idx, amount).0;
            OutstandingTotal(after, idx) == OutstandingTotal(rows, idx) - Min(amount, OutstandingTotal(rows, idx))
            && forall i :: 0 <= i < |rows| && after[i] != rows[i] ==> rows[i].userId == payer && after[i].userId == payer
  {
    var idx := OwnDebts(rows, expenses, g, payer);
    OwnDebtsOfPayer(rows, expenses, g, payer);
    var after := Pour(rows, idx, amount).0;
    assert NotOverpaid(Pick(rows, idx)) by {
      forall k | 0 <= k < |idx| ensures Pick(rows, idx)[k].paid <= Pick(rows, idx)[k].owed {
        assert Pick(rows, idx)[k] == rows[idx[k]];
      }
    }
    PourApplies(rows, idx, amount);
    PourBounded(rows, idx, amount);
    PourFrame(rows, idx, amount);
    OutstandingDrop(Pick(rows, idx), Pick(after, idx));
    forall i | 0 <= i < |rows| && after[i] != rows[i] ensures rows[i].userId == payer && after[i].userId == payer {
      assert i in idx;
      var k :| 0 <= k < |idx| && idx[k] == i;
      assert SameDebt(rows[idx[k]], after[idx[k]]);
    }
  }
}
