/** BudgetsService: the duplicate check on create, spending per budget, the
    alert threshold, the budget-vs-actual report and the rollover of ended
    budgets. */
module Budgets {
  import opened Common
  import opened Entities

  /** The fields of CreateBudgetDto (its `user_id` is overwritten by the caller's id). */
  datatype BudgetInput = BudgetInput(categoryId: Option<nat>, name: string, amount: real, period: BudgetPeriod,
                                     start: int, end: Option<int>, threshold: Option<real>, active: Option<bool>)

  // ------------------------------------------------------------------
  // create, findOne, remove

  /** An existing budget the create lookup matches: an active budget of the
      user for the same period and category; an omitted category is left out
      of the lookup and so matches any. */
  predicate Clashes(b: Budget, u: nat, cat: Option<nat>, period: BudgetPeriod) {
    b.userId == u && b.active && b.period == period && (cat.None? || b.categoryId == cat)
  }

  /** The row `budgetRepo.create({ ...dto, user_id })` builds; `is_active` defaults to true. */
  function FromInput(id: nat, u: nat, input: BudgetInput): Budget {
    Budget(id, u, input.categoryId, input.name, input.amount, input.period, input.start, input.end,
           input.threshold, input.active.GetOr(true))
  }

  /** create: BadRequest if a matching active budget exists, otherwise the new budget is saved. */
  method Create(budgets: Table<Budget>, u: nat, input: BudgetInput) returns (r: Result<Budget>)
    requires input.amount > 0.0
    modifies budgets
    ensures (exists i :: 0 <= i < |old(budgets.rows)| && Clashes(old(budgets.rows)[i], u, input.categoryId, input.period))
            ==> r == Err(BadRequest) && unchanged(budgets)
    ensures (forall i :: 0 <= i < |old(budgets.rows)| ==> !Clashes(old(budgets.rows)[i], u, input.categoryId, input.period))
            ==> r == Ok(FromInput(old(budgets.nextId), u, input))
                && budgets.rows == old(budgets.rows) + [r.value] && budgets.nextId == old(budgets.nextId) + 1
  {
    var existing := FindFirst(budgets.rows, (b: Budget) => Clashes(b, u, input.categoryId, input.period));
    if existing.Some? {
      return Err(BadRequest);
    }
    var b := FromInput(budgets.nextId, u, input);
    budgets.Insert(b);
    r := Ok(b);
  }

  /** Once an active budget is created, creating it again is refused. */
  lemma CreatedBudgetBlocksRepeat(rows: seq<Budget>, id: nat, u: nat, input: BudgetInput)
    requires input.active.GetOr(true)
    ensures exists i :: 0 <= i < |rows + [FromInput(id, u, input)]|
                        && Clashes((rows + [FromInput(id, u, input)])[i], u, input.categoryId, input.period)
  {
    assert (rows + [FromInput(id, u, input)])[|rows|] == FromInput(id, u, input);
  }

  function BudgetIndex(rows: seq<Budget>, u: nat, id: nat): Option<nat> {
    FindFirst(rows, (b: Budget) => b.id == id && b.userId == u)
  }

  /** findOne: the user's budget with the id, or NotFound (another user's budget is not found). */
  function FindOne(rows: seq<Budget>, u: nat, id: nat): (r: Result<Budget>)
    ensures r.Ok? ==> r.value in rows && r.value.id == id && r.value.userId == u
    ensures r == Err(NotFound) <==> forall i :: 0 <= i < |rows| ==> !(rows[i].id == id && rows[i].userId == u)
  {
    match BudgetIndex(rows, u, id)
    case None => Err(NotFound)
    case Some(i) => Ok(rows[i])
  }

  /** remove: NotFound, or the row is deleted. */
  method Remove(budgets: Table<Budget>, u: nat, id: nat) returns (s: Status)
    modifies budgets
    ensures match BudgetIndex(old(budgets.rows), u, id)
            case None => s == Failed(NotFound) && unchanged(budgets)
            case Some(i) => s == Done && budgets.rows == old(budgets.rows)[..i] + old(budgets.rows)[i + 1..]
                            && budgets.nextId == old(budgets.nextId)
  {
    var found := BudgetIndex(budgets.rows, u, id);
    if found.None? {
      return Failed(NotFound);
    }
    budgets.Remove(found.value);
    s := Done;
  }

  // ------------------------------------------------------------------
  // Spending and alerts

  /** The user's expense transactions in the category dated within [start, end]. */
  function SpentIn(u: nat, c: nat, start: int, end: int): Transaction -> bool {
    (t: Transaction) => t.userId == u && t.categoryId == Some(c) && t.txType == Expense && DatedWithin(t, start, end)
  }

  /** calculateSpending: 0 without a category (`!categoryId` also rejects id
      0), otherwise the summed amounts of the matching transactions. */
  function Spending(txs: seq<Transaction>, u: nat, cat: Option<nat>, start: int, end: int): real {
    if cat.None? || cat.value == 0 then 0.0 else SumBy(Filter(txs, SpentIn(u, cat.value, start, end)), TxAmount)
  }

  /** A new transaction raises the spending by its amount exactly when it is
      one of the user's expenses in the budget's category and window. */
  lemma {:induction false} SpendingAfterTransaction(txs: seq<Transaction>, t: Transaction, u: nat, cat: Option<nat>, start: int, end: int)
    ensures Spending(txs + [t], u, cat, start, end)
            == Spending(txs, u, cat, start, end)
               + (if cat.Some? && cat.value != 0 && t.userId == u && t.categoryId == cat && t.txType == Expense
                     && DatedWithin(t, start, end)
                  then t.amount else 0.0)
  {
    if cat.Some? && cat.value != 0 {
      var p := SpentIn(u, cat.value, start, end);
      FilterAppend(txs, [t], p);
      assert [t][..0] == [];
      if p(t) {
        assert Filter([t], p) == [t];
        SumBySnoc(Filter(txs, p), t, TxAmount);
      } else {
        assert Filter([t], p) == [];
        assert Filter(txs, p) + [] == Filter(txs, p);
      }
    }
  }

  /** Spending is never negative while no transaction amount is. */
  lemma SpendingNonNegative(txs: seq<Transaction>, u: nat, cat: Option<nat>, start: int, end: int)
    requires forall i :: 0 <= i < |txs| ==> txs[i].amount >= 0.0
    ensures Spending(txs, u, cat, start, end) >= 0.0
  {
    if cat.Some? && cat.value != 0 {
      var picked := Filter(txs, SpentIn(u, cat.value, start, end));
      FilterMembers(txs, SpentIn(u, cat.value, start, end));
      forall k | 0 <= k < |picked| ensures TxAmount(picked[k]) >= 0.0 {
        assert picked[k] in txs;
      }
      SumByNonNegative(picked, TxAmount);
    }
  }

  /** checkBudgetAlert's test. A missing or zero threshold never alerts;
      otherwise spent / amount × 100 ≥ threshold, stated without dividing;
      for a zero amount JavaScript's quotient is +Infinity (alert), NaN or
      -Infinity (no alert). */
  predicate AlertDue(threshold: Option<real>, amount: real, spent: real) {
    threshold.Some? && threshold.value != 0.0
    && if amount > 0.0 then spent * 100.0 >= threshold.value * amount
       else if amount < 0.0 then spent * 100.0 <= threshold.value * amount
       else spent > 0.0
  }

  /** For a non-zero amount the multiplicative test is the source's percentage comparison. */
  lemma AlertIsPercentageTest(threshold: real, amount: real, spent: real)
    requires amount != 0.0 && threshold != 0.0
    ensures AlertDue(Some(threshold), amount, spent) <==> spent / amount * 100.0 >= threshold
  {
    var q := spent / amount;
    assert q * amount == spent;
    if amount > 0.0 {
      assert q * 100.0 >= threshold <==> q * 100.0 * amount >= threshold * amount;
    } else {
      assert q * 100.0 >= threshold <==> q * 100.0 * amount <= threshold * amount;
    }
  }

  /** `new Date(budget.endDate)`: a budget without an end date reads as day 0, the epoch. */
  function EndDay(b: Budget): int {
    b.end.GetOr(0)
  }

  /** What the budget has spent over its own window. */
  function BudgetSpending(txs: seq<Transaction>, b: Budget): real {
    Spending(txs, b.userId, b.categoryId, b.start, EndDay(b))
  }

  function ActiveOf(u: nat): Budget -> bool {
    (b: Budget) => b.userId == u && b.active
  }

  /** `budgetRepo.find({ where: { user_id, isActive: true } })`, in table order. */
  function ActiveBudgets(rows: seq<Budget>, u: nat): (r: seq<Budget>)
    ensures forall b :: b in r <==> b in rows && b.userId == u && b.active
  {
    FilterMembers(rows, ActiveOf(u));
    Filter(rows, ActiveOf(u))
  }

  function DueOf(txs: seq<Transaction>): Budget -> bool {
    (b: Budget) => AlertDue(b.threshold, b.amount, BudgetSpending(txs, b))
  }

  /** The alerts findAll sends for a list of budgets, in order. */
  function Alerts(txs: seq<Transaction>, bs: seq<Budget>): seq<Notice> {
    if bs == [] then []
    else
      var b := bs[|bs| - 1];
      Alerts(txs, bs[..|bs| - 1]) + (if DueOf(txs)(b) then [Notice(b.userId, BudgetAlert)] else [])
  }

  /** One budget-alert notice to its owner per budget over its threshold, and no other notice. */
  lemma {:induction false} AlertsPerDueBudget(txs: seq<Transaction>, bs: seq<Budget>)
    ensures |Alerts(txs, bs)| == Count(bs, DueOf(txs))
    ensures forall k :: 0 <= k < |Alerts(txs, bs)| ==>
              Alerts(txs, bs)[k].kind == BudgetAlert
              && exists j :: 0 <= j < |bs| && DueOf(txs)(bs[j]) && bs[j].userId == Alerts(txs, bs)[k].userId
  {
    if bs != [] {
      var init, b := bs[..|bs| - 1], bs[|bs| - 1];
      assert bs == init + [b];
      AlertsPerDueBudget(txs, init);
      CountAppend(init, b, DueOf(txs));
      var a := Alerts(txs, bs);
      forall k | 0 <= k < |a|
        ensures a[k].kind == BudgetAlert && exists j :: 0 <= j < |bs| && DueOf(txs)(bs[j]) && bs[j].userId == a[k].userId
      {
        if k < |Alerts(txs, init)| {
          assert a[k] == Alerts(txs, init)[k];
          var j :| 0 <= j < |init| && DueOf(txs)(init[j]) && init[j].userId == Alerts(txs, init)[k].userId;
          assert bs[j] == init[j];
        } else {
          assert bs[|bs| - 1] == b;
        }
      }
    }
  }

  lemma AlertsStep(txs: seq<Transaction>, bs: seq<Budget>, k: nat)
    requires k < |bs|
    ensures Alerts(txs, bs[..k + 1])
            == Alerts(txs, bs[..k]) + (if DueOf(txs)(bs[k]) then [Notice(bs[k].userId, BudgetAlert)] else [])
  {
    assert bs[..k + 1][..k] == bs[..k];
  }

  /** findAll's element: the budget with what it has spent and the percentage. */
  datatype BudgetWithSpending = BudgetWithSpending(budget: Budget, spent: real, spentPercentage: Option<real>)

  function WithSpending(txs: seq<Transaction>, b: Budget): BudgetWithSpending {
    BudgetWithSpending(b, BudgetSpending(txs, b), Percent(BudgetSpending(txs, b), b.amount))
  }

  /** findAll: each active budget of the user with its spending, and an alert
      for each one over its threshold. */
  method FindAll(budgets: Table<Budget>, txs: seq<Transaction>, notices: Table<Notice>, u: nat)
    returns (r: seq<BudgetWithSpending>)
    modifies notices
    ensures var active := ActiveBudgets(budgets.rows, u);
            |r| == |active| && forall k :: 0 <= k < |r| ==> r[k] == WithSpending(txs, active[k])
    ensures notices.rows == old(notices.rows) + Alerts(txs, ActiveBudgets(budgets.rows, u))
    ensures notices.nextId == old(notices.nextId) + |Alerts(txs, ActiveBudgets(budgets.rows, u))|
  {
    r := TrackAll(txs, notices, ActiveBudgets(budgets.rows, u));
  }

  /** findAll's loop over the active budgets. */
  method TrackAll(txs: seq<Transaction>, notices: Table<Notice>, active: seq<Budget>)
    returns (r: seq<BudgetWithSpending>)
    modifies notices
    ensures |r| == |active| && forall k :: 0 <= k < |r| ==> r[k] == WithSpending(txs, active[k])
    ensures notices.rows == old(notices.rows) + Alerts(txs, active)
    ensures notices.nextId == old(notices.nextId) + |Alerts(txs, active)|
  {
    r := [];
    var k := 0;
    while k < |active|
      invariant 0 <= k <= |active|
      invariant |r| == k && forall j :: 0 <= j < k ==> r[j] == WithSpending(txs, active[j])
      invariant notices.rows == old(notices.rows) + Alerts(txs, active[..k])
      invariant notices.nextId == old(notices.nextId) + |Alerts(txs, active[..k])|
    {
      AlertsStep(txs, active, k);
      var w := Track(txs, notices, active[k]);
      r := r + [w];
      k := k + 1;
    }
    assert active[..k] == active;
  }

  /** findAll's work on one budget: its spending, and an alert when it is over its threshold. */
  method Track(txs: seq<Transaction>, notices: Table<Notice>, b: Budget)
    returns (w: BudgetWithSpending)
    modifies notices
    ensures w == WithSpending(txs, b)
    ensures notices.rows == old(notices.rows) + (if DueOf(txs)(b) then [Notice(b.userId, BudgetAlert)] else [])
    ensures notices.nextId == old(notices.nextId) + (if DueOf(txs)(b) then 1 else 0)
  {
    var spent := BudgetSpending(txs, b);
    var pct := Percent(spent, b.amount);
    if AlertDue(b.threshold, b.amount, spent) {
      notices.Insert(Notice(b.userId, BudgetAlert));
    }
    w := BudgetWithSpending(b, spent, pct);
  }

  // ------------------------------------------------------------------
  // Budget vs actual

  /** One line of getBudgetVsActual (the category is reported by id). */
  datatype Report = Report(categoryId: Option<nat>, budgeted: real, spent: real, remaining: real, percentage: Option<real>)

  function ReportFor(txs: seq<Transaction>, u: nat, b: Budget, start: int, end: int): Report {
    var spent := Spending(txs, u, b.categoryId, start, end);
    Report(b.categoryId, b.amount, spent, b.amount - spent, Percent(spent, b.amount))
  }

  /** getBudgetVsActual: one line per active budget of the user, measured over the given window. */
  method GetBudgetVsActual(budgets: seq<Budget>, txs: seq<Transaction>, u: nat, start: int, end: int)
    returns (r: seq<Report>)
    ensures var active := ActiveBudgets(budgets, u);
            |r| == |active| && forall k :: 0 <= k < |r| ==> r[k] == ReportFor(txs, u, active[k], start, end)
  {
    var active := ActiveBudgets(budgets, u);
    r := [];
    for k := 0 to |active|
      invariant |r| == k && forall j :: 0 <= j < k ==> r[j] == ReportFor(txs, u, active[j], start, end)
    {
      var b := active[k];
      var spent := Spending(txs, u, b.categoryId, start, end);
      r := r + [Report(b.categoryId, b.amount, spent, b.amount - spent, Percent(spent, b.amount))];
    }
  }

  function RemainingOf(r: Report): real {
    r.remaining
  }

  function BudgetedOf(r: Report): real {
    r.budgeted
  }

  function SpentOf(r: Report): real {
    r.spent
  }

  /** Over a report, the remaining amounts add up to what was budgeted minus
      what was spent, and a line is over budget exactly when its remaining
      amount is negative. */
  lemma ReportBalances(txs: seq<Transaction>, u: nat, bs: seq<Budget>, start: int, end: int)
    ensures var rs := seq(|bs|, k requires 0 <= k < |bs| => ReportFor(txs, u, bs[k], start, end));
            SumBy(rs, RemainingOf) == SumBy(rs, BudgetedOf) - SumBy(rs, SpentOf)
            && forall k :: 0 <= k < |rs| ==> (rs[k].remaining < 0.0 <==> rs[k].spent > bs[k].amount)
  {
    var rs := seq(|bs|, k requires 0 <= k < |bs| => ReportFor(txs, u, bs[k], start, end));
    SumByDifference(rs, BudgetedOf, SpentOf, RemainingOf);
  }

  // ------------------------------------------------------------------
  // Rollover

  /** A budget the rollover handles: one of the user's active budgets whose
      end lies before today. */
  predicate RollsOver(b: Budget, u: nat, today: int) {
    b.userId == u && b.active && EndDay(b) < today
  }

  /** What an ended budget left unspent over its own window. */
  function Unused(txs: seq<Transaction>, u: nat, b: Budget): real {
    b.amount - Spending(txs, u, b.categoryId, b.start, EndDay(b))
  }

  /** The budget carrying the unused amount into the next period: same
      category, period and threshold, starting the day after the old end.
      `endFor` stands for calculateEndDate. The row is saved without a name. */
  function CarryOver(id: nat, u: nat, b: Budget, amount: real, endFor: (int, BudgetPeriod) -> int): Budget {
    Budget(id, u, b.categoryId, "", amount, b.period, EndDay(b) + 1, Some(endFor(EndDay(b) + 1, b.period)),
           b.threshold, true)
  }

  predicate Carries(txs: seq<Transaction>, u: nat, today: int, b: Budget) {
    RollsOver(b, u, today) && Unused(txs, u, b) > 0.0
  }

  function CarriesOf(txs: seq<Transaction>, u: nat, today: int): Budget -> bool {
    (b: Budget) => Carries(txs, u, today, b)
  }

  /** The budgets the rollover adds while visiting the first n rows, in order. */
  function Carried(snap: seq<Budget>, n: nat, txs: seq<Transaction>, u: nat, today: int,
                   endFor: (int, BudgetPeriod) -> int, firstId: nat): seq<Budget>
    requires n <= |snap|
  {
    if n == 0 then []
    else
      var before := Carried(snap, n - 1, txs, u, today, endFor, firstId);
      var b := snap[n - 1];
      before + (if Carries(txs, u, today, b) then [CarryOver(firstId + |before|, u, b, Unused(txs, u, b), endFor)]
                else [])
  }

  /** The old rows once the first n have been visited: each handled budget is deactivated. */
  function Closed(snap: seq<Budget>, n: nat, u: nat, today: int): seq<Budget> {
    seq(|snap|, i requires 0 <= i < |snap| =>
      if i < n && RollsOver(snap[i], u, today) then snap[i].(active := false) else snap[i])
  }

  /** rolloverBudgets: each of the user's active budgets that has ended is
      deactivated, and when it left money unspent a new active budget for that
      amount is added. */
  method Rollover(budgets: Table<Budget>, txs: seq<Transaction>, u: nat, today: int,
                  endFor: (int, BudgetPeriod) -> int)
    modifies budgets
    ensures budgets.rows == Closed(old(budgets.rows), |old(budgets.rows)|, u, today)
                            + Carried(old(budgets.rows), |old(budgets.rows)|, txs, u, today, endFor, old(budgets.nextId))
    ensures budgets.nextId
            == old(budgets.nextId) + |Carried(old(budgets.rows), |old(budgets.rows)|, txs, u, today, endFor, old(budgets.nextId))|
  {
    var snap := budgets.rows;
    var firstId := budgets.nextId;
    var i := 0;
    while i < |snap|
      invariant 0 <= i <= |snap|
      invariant budgets.rows == Closed(snap, i, u, today) + Carried(snap, i, txs, u, today, endFor, firstId)
      invariant budgets.nextId == firstId + |Carried(snap, i, txs, u, today, endFor, firstId)|
    {
      var b := snap[i];
      RolloverStep(snap, i, txs, u, today, endFor, firstId);
      if b.userId == u && b.active && EndDay(b) < today {
        var spent := Spending(txs, u, b.categoryId, b.start, EndDay(b));
        var remaining := b.amount - spent;
        if remaining > 0.0 {
          budgets.Insert(CarryOver(budgets.nextId, u, b, remaining, endFor));
        }
        budgets.Save(i, b.(active := false));
      }
      i := i + 1;
    }
  }

  /** One budget of the rollover loop: the rows after it are the rows before
      with that budget deactivated when it has ended, and its carried-over
      budget, if any, added at the end. */
  lemma RolloverStep(snap: seq<Budget>, i: nat, txs: seq<Transaction>, u: nat, today: int,
                     endFor: (int, BudgetPeriod) -> int, firstId: nat)
    requires i < |snap|
    ensures var c := Carried(snap, i, txs, u, today, endFor, firstId);
            var b := snap[i];
            var added := if Carries(txs, u, today, b) then [CarryOver(firstId + |c|, u, b, Unused(txs, u, b), endFor)] else [];
            |Closed(snap, i, u, today)| == |snap|
            && Carried(snap, i + 1, txs, u, today, endFor, firstId) == c + added
            && (RollsOver(b, u, today) ==>
                 Closed(snap, i + 1, u, today) + (c + added) == (Closed(snap, i, u, today) + c + added)[i := b.(active := false)])
            && (!RollsOver(b, u, today) ==> Closed(snap, i + 1, u, today) + (c + added) == Closed(snap, i, u, today) + c)
  {
    var c := Carried(snap, i, txs, u, today, endFor, firstId);
    var b := snap[i];
    var added := if Carries(txs, u, today, b) then [CarryOver(firstId + |c|, u, b, Unused(txs, u, b), endFor)] else [];
    var before, after := Closed(snap, i, u, today), Closed(snap, i + 1, u, today);
    if RollsOver(b, u, today) {
      assert after == before[i := b.(active := false)];
      assert (before + c + added)[i := b.(active := false)] == after + (c + added);
    } else {
      assert after == before;
      assert !Carries(txs, u, today, b) && added == [];
      assert c + added == c;
    }
  }

  /** The added budgets: one per ended budget that left money unspent, each
      active, owned by the user, for a positive amount, with consecutive new ids. */
  lemma {:induction false} CarriedBudgets(snap: seq<Budget>, n: nat, txs: seq<Transaction>, u: nat, today: int,
                                          endFor: (int, BudgetPeriod) -> int, firstId: nat)
    requires n <= |snap|
    ensures var c := Carried(snap, n, txs, u, today, endFor, firstId);
            |c| == Count(snap[..n], CarriesOf(txs, u, today))
            && forall k :: 0 <= k < |c| ==> c[k].active && c[k].userId == u && c[k].amount > 0.0 && c[k].id == firstId + k
  {
    if n > 0 {
      CarriedBudgets(snap, n - 1, txs, u, today, endFor, firstId);
      assert snap[..n] == snap[..n - 1] + [snap[n - 1]];
      CountAppend(snap[..n - 1], snap[n - 1], CarriesOf(txs, u, today));
    }
  }

  /** After a rollover no old budget of the user is both active and ended;
      budgets of other users, inactive ones and ones still running are untouched. */
  lemma RolloverLeavesNoEndedBudget(snap: seq<Budget>, u: nat, today: int)
    ensures var c := Closed(snap, |snap|, u, today);
            |c| == |snap|
            && (forall i :: 0 <= i < |c| ==> !RollsOver(c[i], u, today))
            && forall i :: 0 <= i < |c| && !RollsOver(snap[i], u, today) ==> c[i] == snap[i]
  {
  }
}
