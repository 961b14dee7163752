/** ExpenseSplitsService: direct operations on one split (settle in full,
    partial payment) and a user's open balance. */
module ExpenseSplits {
  import opened Common
  import opened Entities

  function SplitIndex(rows: seq<Split>, id: nat): Option<nat> {
    FindFirst(rows, (s: Split) => s.id == id)
  }

  /** findOne: the split with the id, or NotFound. */
  function FindOne(rows: seq<Split>, id: nat): (r: Result<Split>)
    ensures r.Ok? ==> r.value in rows && r.value.id == id
    ensures r == Err(NotFound) <==> forall i :: 0 <= i < |rows| ==> rows[i].id != id
  {
    match SplitIndex(rows, id)
    case None => Err(NotFound)
    case Some(i) => Ok(rows[i])
  }

  /** The split paid in full and settled. */
  function Settled(s: Split): (t: Split)
    ensures t.paid == t.owed == s.owed && t.settled
    ensures t.id == s.id && t.expenseId == s.expenseId && t.userId == s.userId
  {
    s.(paid := s.owed, settled := true)
  }

  /** Settling twice leaves the split as settling once. */
  lemma SettledIdempotent(s: Split)
    ensures Settled(Settled(s)) == Settled(s)
  {
  }

  /** markAsSettled: NotFound, or the split is saved paid in full and settled. */
  method MarkAsSettled(splits: Table<Split>, id: nat) returns (r: Result<Split>)
    modifies splits
    ensures match SplitIndex(old(splits.rows), id)
            case None => r == Err(NotFound) && unchanged(splits)
            case Some(i) => r == Ok(Settled(old(splits.rows[i])))
                            && splits.rows == old(splits.rows)[i := r.value]
                            && splits.nextId == old(splits.nextId)
  {
    var found := SplitIndex(splits.rows, id);
    if found.None? {
      return Err(NotFound);
    }
    var i := found.value;
    var settled := Settled(splits.rows[i]);
    splits.Save(i, settled);
    r := Ok(settled);
  }

  /** The split after a partial payment of `amount` (which the service does
      not check for sign): refused if the new paid amount would exceed what is
      owed; otherwise the split is marked settled once paid reaches owed, and a
      settled split stays settled. */
  function PartialPayment(s: Split, amount: real): (r: Result<Split>)
    ensures r.Err? <==> s.paid + amount > s.owed
    ensures r.Err? ==> r.error == BadRequest
    ensures r.Ok? ==> r.value.paid == s.paid + amount && r.value.paid <= r.value.owed
                      && (r.value.settled <==> s.settled || r.value.paid == r.value.owed)
                      && r.value.owed == s.owed && r.value.id == s.id
                      && r.value.userId == s.userId && r.value.expenseId == s.expenseId
  {
    var paid := s.paid + amount;
    if paid > s.owed then Err(BadRequest)
    else Ok(s.(paid := paid, settled := if paid >= s.owed then true else s.settled))
  }

  /** A payment of exactly what is outstanding retires the split just as
      markAsSettled does. */
  lemma PayingOutstandingSettles(s: Split)
    ensures PartialPayment(s, Outstanding(s)) == Ok(Settled(s))
  {
  }

  /** Two accepted partial payments leave the split as one payment of their
      sum, as long as the split was not already settled in between. */
  lemma PartialPaymentsAdd(s: Split, a: real, b: real)
    requires PartialPayment(s, a).Ok?
    ensures PartialPayment(PartialPayment(s, a).value, b).Ok? <==> PartialPayment(s, a + b).Ok?
    ensures PartialPayment(PartialPayment(s, a).value, b).Ok? ==>
              PartialPayment(PartialPayment(s, a).value, b).value.paid == PartialPayment(s, a + b).value.paid
  {
  }

  /** makePartialPayment: NotFound, BadRequest with the split untouched when
      the payment exceeds what is owed, otherwise the paid split is saved. */
  method MakePartialPayment(splits: Table<Split>, id: nat, amount: real) returns (r: Result<Split>)
    modifies splits
    ensures match SplitIndex(old(splits.rows), id)
            case None => r == Err(NotFound) && unchanged(splits)
            case Some(i) =>
              r == PartialPayment(old(splits.rows[i]), amount)
              && (r.Err? ==> unchanged(splits))
              && (r.Ok? ==> splits.rows == old(splits.rows)[i := r.value] && splits.nextId == old(splits.nextId))
  {
    var found := SplitIndex(splits.rows, id);
    if found.None? {
      return Err(NotFound);
    }
    var i := found.value;
    r := PartialPayment(splits.rows[i], amount);
    if r.Ok? {
      splits.Save(i, r.value);
    }
  }

  /** The user's unsettled splits. */
  function UnsettledOf(u: nat): Split -> bool {
    (s: Split) => s.userId == u && !s.settled
  }

  /** findUnsettledByUser, in table order. */
  function UnsettledByUser(rows: seq<Split>, u: nat): (r: seq<Split>)
    ensures forall s :: s in r <==> s in rows && s.userId == u && !s.settled
    ensures forall s :: multiset(r)[s] == if s.userId == u && !s.settled then multiset(rows)[s] else 0
  {
    FilterMembers(rows, UnsettledOf(u));
    FilterCounts(rows, UnsettledOf(u));
    Filter(rows, UnsettledOf(u))
  }

  /** getUserBalance's answer. */
  datatype UserBalance = UserBalance(totalOwed: real, totalPaid: real, remaining: real, splits: seq<Split>)

  /** getUserBalance: owed and paid summed over the user's unsettled splits;
      `remaining` is what those splits still have outstanding, and it is not
      negative while no split is overpaid. */
  function GetUserBalance(rows: seq<Split>, u: nat): (b: UserBalance)
    ensures b.splits == UnsettledByUser(rows, u)
    ensures b.totalOwed == SumBy(b.splits, OwedOf) && b.totalPaid == SumBy(b.splits, PaidOf)
    ensures b.remaining == SumBy(b.splits, Outstanding)
    ensures (forall i :: 0 <= i < |rows| ==> rows[i].paid <= rows[i].owed) ==> b.remaining >= 0.0
  {
    var mine := UnsettledByUser(rows, u);
    SumByDifference(mine, OwedOf, PaidOf, Outstanding);
    RemainingNonNegative(rows, u);
    UserBalance(SumBy(mine, OwedOf), SumBy(mine, PaidOf), SumBy(mine, OwedOf) - SumBy(mine, PaidOf), mine)
  }

  lemma RemainingNonNegative(rows: seq<Split>, u: nat)
    ensures (forall i :: 0 <= i < |rows| ==> rows[i].paid <= rows[i].owed) ==>
              SumBy(UnsettledByUser(rows, u), Outstanding) >= 0.0
  {
    if forall i :: 0 <= i < |rows| ==> rows[i].paid <= rows[i].owed {
      var mine := UnsettledByUser(rows, u);
      forall k | 0 <= k < |mine| ensures Outstanding(mine[k]) >= 0.0 {
        assert mine[k] in rows;
      }
      SumByNonNegative(mine, Outstanding);
    }
  }

  /** Settling one of the user's open splits takes exactly its outstanding
      amount off the user's remaining balance. */
  lemma SettlingLowersRemaining(rows: seq<Split>, i: nat, u: nat)
    requires i < |rows| && rows[i].userId == u && !rows[i].settled
    ensures GetUserBalance(rows[i := Settled(rows[i])], u).remaining
            == GetUserBalance(rows, u).remaining - Outstanding(rows[i])
  {
    SumByFilterUpdate(rows, i, Settled(rows[i]), UnsettledOf(u), Outstanding);
  }
}
