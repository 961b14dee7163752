/** The expense ledger of groups-expenses.service.ts: expense creation with
    one split per listed member under `equal`, `percentage` or
    `exact_amounts`, the 0.01 reconciliation check, notification of the other
    members, the payer-or-admin guards of update and delete, and a user's
    paid / owed totals in a group. */
module GroupExpenses {
  import opened Common
  import opened Entities
  import GroupMembers
  import opened Sorting

  /** ExpenseMemberDto: `amount` and `percentage` are optional numbers. */
  datatype ExpenseMember = ExpenseMember(userId: nat, amount: Option<real>, percentage: Option<real>)

  /** The fields of CreateGroupExpenseWithMembersDto the model keeps. */
  datatype ExpenseInput = ExpenseInput(name: string, total: real, categoryId: Option<nat>,
                                       splitMethod: SplitMethod, date: int, members: seq<ExpenseMember>)

  /** UpdateGroupsExpenseDto, a PartialType of the create DTO: any column,
      the group and the payer included, may be overwritten. */
  datatype ExpensePatch = ExpensePatch(groupId: Option<nat>, paidBy: Option<nat>, name: Option<string>,
                                       total: Option<real>, categoryId: Option<nat>,
                                       splitMethod: Option<SplitMethod>, date: Option<int>)

  /** JavaScript's `!x` on an optional number: true when it is missing or zero. */
  predicate Falsy(x: Option<real>) {
    x.None? || x.value == 0.0
  }

  /** The members the switch of createSplits throws BadRequest for. */
  predicate Rejects(m: SplitMethod, mem: ExpenseMember) {
    (m == Percentage && Falsy(mem.percentage)) || (m == ExactAmounts && Falsy(mem.amount))
  }

  function RejectedUnder(m: SplitMethod): ExpenseMember -> bool {
    (mem: ExpenseMember) => Rejects(m, mem)
  }

  /** The amount the switch assigns to a member that is not rejected; `shares`
      has no case, so its splits keep the initial 0. */
  function Owed(m: SplitMethod, total: real, n: nat, mem: ExpenseMember): real
    requires n > 0
  {
    match m
    case Equal => total / n as real
    case Percentage => PercentOwed(total, mem)
    case ExactAmounts => if mem.amount.Some? then mem.amount.value else 0.0
    case Shares => 0.0
  }

  /** The first rejected member fixes how many rows were saved. */
  lemma SavedCountIs(m: SplitMethod, members: seq<ExpenseMember>, k: nat)
    requires k <= |members|
    requires forall j :: 0 <= j < k ==> !Rejects(m, members[j])
    requires k < |members| ==> Rejects(m, members[k])
    ensures SavedCount(m, members) == k
  {
  }

  /** How many split rows the loop saves: all of them, or those before the
      first member it throws for. */
  function SavedCount(m: SplitMethod, members: seq<ExpenseMember>): (k: nat)
    ensures k <= |members|
    ensures k < |members| ==> Rejects(m, members[k])
    ensures forall j :: 0 <= j < k ==> !Rejects(m, members[j])
  {
    match FindFirst(members, RejectedUnder(m))
    case None => |members|
    case Some(k) => k
  }

  /** The first k split rows createSplits saves, with consecutive ids. */
  function SplitRows(e: GroupExpense, members: seq<ExpenseMember>, m: SplitMethod, firstId: nat, k: nat): seq<Split>
    requires k <= |members|
  {
    seq(k, j requires 0 <= j < k =>
      NewSplit(firstId + j, e.id, members[j].userId, e.paidBy, Owed(m, e.total, |members|, members[j])))
  }

  lemma SplitRowsSnoc(e: GroupExpense, members: seq<ExpenseMember>, m: SplitMethod, firstId: nat, k: nat)
    requires k < |members|
    ensures SplitRows(e, members, m, firstId, k + 1)
            == SplitRows(e, members, m, firstId, k)
               + [NewSplit(firstId + k, e.id, members[k].userId, e.paidBy, Owed(m, e.total, |members|, members[k]))]
  {
  }

  /** The reconciliation check: the expense's splits add up to its total within 0.01. */
  predicate Reconciles(rows: seq<Split>, e: GroupExpense) {
    Abs(SumBy(SplitsOf(rows, e.id), OwedOf) - e.total) <= 0.01
  }

  /** The notifications notifyMembers sends: one per listed member other than the payer. */
  function ExpenseNotices(members: seq<ExpenseMember>, payer: nat): seq<Notice> {
    if members == [] then []
    else
      var last := members[|members| - 1];
      ExpenseNotices(members[..|members| - 1], payer)
      + (if last.userId != payer then [Notice(last.userId, GroupExpenseCreated)] else [])
  }

  // ------------------------------------------------------------------
  // Properties of the planned splits

  /** Each saved row owes what the switch assigns, and the payer's own row
      is pre-paid and settled while every other row starts unpaid. */
  lemma SplitRowsShape(e: GroupExpense, members: seq<ExpenseMember>, m: SplitMethod, firstId: nat, k: nat)
    requires k <= |members|
    ensures forall j :: 0 <= j < k ==>
              var s := SplitRows(e, members, m, firstId, k)[j];
              s.id == firstId + j && s.expenseId == e.id && s.userId == members[j].userId
              && s.owed == Owed(m, e.total, |members|, members[j])
              && s.settled == (s.userId == e.paidBy)
              && s.paid == (if s.userId == e.paidBy then s.owed else 0.0)
  {
  }

  /** Under `equal` nobody is rejected and the shares add up to the total. */
  lemma EqualSplitsSumToTotal(e: GroupExpense, members: seq<ExpenseMember>, firstId: nat)
    requires |members| > 0
    ensures SavedCount(Equal, members) == |members|
    ensures SumBy(SplitRows(e, members, Equal, firstId, |members|), OwedOf) == e.total
  {
    var n := |members| as real;
    SumByConstant(SplitRows(e, members, Equal, firstId, |members|), OwedOf, e.total / n);
    assert n * (e.total / n) == e.total;
  }

  function PercentageOf(mem: ExpenseMember): real {
    mem.percentage.GetOr(0.0)
  }

  function AmountOf(mem: ExpenseMember): real {
    mem.amount.GetOr(0.0)
  }

  /** Under `percentage` or `exact_amounts` the loop saves every row exactly
      when no member's percentage (or amount) is missing or zero. */
  lemma SavedAllUnlessFalsy(m: SplitMethod, members: seq<ExpenseMember>)
    ensures m == Percentage ==>
              (SavedCount(m, members) == |members| <==> forall j :: 0 <= j < |members| ==> !Falsy(members[j].percentage))
    ensures m == ExactAmounts ==>
              (SavedCount(m, members) == |members| <==> forall j :: 0 <= j < |members| ==> !Falsy(members[j].amount))
    ensures m == Equal || m == Shares ==> SavedCount(m, members) == |members|
  {
  }

  /** What a member owes under `percentage`: their percentage of the total,
      nothing when the percentage is missing. */
  function PercentOwed(total: real, mem: ExpenseMember): real {
    if mem.percentage.Some? then total * mem.percentage.value / 100.0 else 0.0
  }

  function PercentOwedOf(total: real): ExpenseMember -> real {
    mem => PercentOwed(total, mem)
  }

  /** Under `percentage` the shares add up to each member's percentage of the total. */
  lemma PercentageSplitsSum(e: GroupExpense, members: seq<ExpenseMember>, firstId: nat)
    requires |members| > 0
    ensures SumBy(SplitRows(e, members, Percentage, firstId, |members|), OwedOf)
            == SumBy(members, PercentOwedOf(e.total))
  {
    PercentageRowsOwe(e, members, firstId);
    SumByPointwise(SplitRows(e, members, Percentage, firstId, |members|), OwedOf, members, PercentOwedOf(e.total));
  }

  lemma PercentageRowsOwe(e: GroupExpense, members: seq<ExpenseMember>, firstId: nat)
    requires |members| > 0
    ensures var rows := SplitRows(e, members, Percentage, firstId, |members|);
            forall i :: 0 <= i < |rows| ==> OwedOf(rows[i]) == PercentOwedOf(e.total)(members[i])
  {
  }

  /** The members' percentages of a total add up to total × (sum of percentages) / 100. */
  lemma {:induction false} PercentOwedSum(members: seq<ExpenseMember>, total: real)
    ensures SumBy(members, PercentOwedOf(total)) == total / 100.0 * SumBy(members, PercentageOf)
  {
    if members != [] {
      var init, last := members[..|members| - 1], members[|members| - 1];
      PercentOwedSum(init, total);
      PercentShare(total, PercentageOf(last), SumBy(init, PercentageOf));
    }
  }

  lemma PercentShare(total: real, p: real, rest: real)
    ensures total / 100.0 * rest + total * p / 100.0 == total / 100.0 * (rest + p)
  {
  }

  /** Percentages that add up to 100 split the whole total. */
  lemma PercentagesOfHundred(e: GroupExpense, members: seq<ExpenseMember>, firstId: nat)
    requires |members| > 0
    requires SumBy(members, PercentageOf) == 100.0
    ensures SumBy(SplitRows(e, members, Percentage, firstId, |members|), OwedOf) == e.total
  {
    PercentageSplitsSum(e, members, firstId);
    PercentOwedSum(members, e.total);
    WholePercent(e.total, SumBy(members, PercentageOf));
  }

  lemma WholePercent(total: real, p: real)
    requires p == 100.0
    ensures total / 100.0 * p == total
  {
  }

  /** Under `exact_amounts` the shares add up to the given amounts, so the
      check passes exactly when those are within 0.01 of the total. */
  lemma ExactSplitsSumToAmounts(e: GroupExpense, members: seq<ExpenseMember>, firstId: nat)
    requires |members| > 0
    requires forall j :: 0 <= j < |members| ==> !Falsy(members[j].amount)
    ensures SumBy(SplitRows(e, members, ExactAmounts, firstId, |members|), OwedOf) == SumBy(members, AmountOf)
  {
    SumByPointwise(SplitRows(e, members, ExactAmounts, firstId, |members|), OwedOf, members, AmountOf);
  }

  /** `shares` has no case in the switch: every split owes 0, so the check
      fails for any total beyond 0.01. */
  lemma SharesOweNothing(e: GroupExpense, members: seq<ExpenseMember>, firstId: nat)
    requires |members| > 0
    ensures SavedCount(Shares, members) == |members|
    ensures SumBy(SplitRows(e, members, Shares, firstId, |members|), OwedOf) == 0.0
  {
    SumByConstant(SplitRows(e, members, Shares, firstId, |members|), OwedOf, 0.0);
  }

  /** For a new expense no earlier split points at, the reconciliation reads
      exactly the rows just saved. */
  lemma ReconcilesFresh(before: seq<Split>, e: GroupExpense, members: seq<ExpenseMember>, m: SplitMethod,
                        firstId: nat, k: nat)
    requires k <= |members|
    requires forall i :: 0 <= i < |before| ==> before[i].expenseId != e.id
    ensures Reconciles(before + SplitRows(e, members, m, firstId, k), e)
            <==> Abs(SumBy(SplitRows(e, members, m, firstId, k), OwedOf) - e.total) <= 0.01
  {
    SplitsOfFresh(before, SplitRows(e, members, m, firstId, k), e.id);
  }

  /** Exactly the listed members other than the payer are told, once per listing. */
  lemma ExpenseNoticesReachOthers(members: seq<ExpenseMember>, payer: nat)
    ensures forall n :: n in ExpenseNotices(members, payer) ==>
              n.kind == GroupExpenseCreated && n.userId != payer
              && exists j :: 0 <= j < |members| && members[j].userId == n.userId
    ensures forall j :: 0 <= j < |members| && members[j].userId != payer ==>
              Notice(members[j].userId, GroupExpenseCreated) in ExpenseNotices(members, payer)
    ensures |ExpenseNotices(members, payer)| <= |members|
  {
    NoticesGoToOthers(members, payer);
    NoticesReachEveryOther(members, payer);
    NoticesAtMostMembers(members, payer);
  }

  lemma {:induction false} NoticesGoToOthers(members: seq<ExpenseMember>, payer: nat)
    ensures forall n :: n in ExpenseNotices(members, payer) ==>
              n.kind == GroupExpenseCreated && n.userId != payer
              && exists j :: 0 <= j < |members| && members[j].userId == n.userId
  {
    if members != [] {
      var init, last := members[..|members| - 1], members[|members| - 1];
      NoticesGoToOthers(init, payer);
      forall n | n in ExpenseNotices(members, payer)
        ensures n.kind == GroupExpenseCreated && n.userId != payer
                && exists j :: 0 <= j < |members| && members[j].userId == n.userId
      {
        if n in ExpenseNotices(init, payer) {
          var j :| 0 <= j < |init| && init[j].userId == n.userId;
          assert members[j] == init[j];
        } else {
          assert n == Notice(last.userId, GroupExpenseCreated) && last.userId != payer;
          assert members[|members| - 1].userId == n.userId;
        }
      }
    }
  }

  lemma {:induction false} NoticesReachEveryOther(members: seq<ExpenseMember>, payer: nat)
    ensures forall j :: 0 <= j < |members| && members[j].userId != payer ==>
              Notice(members[j].userId, GroupExpenseCreated) in ExpenseNotices(members, payer)
  {
    if members != [] {
      var init := members[..|members| - 1];
      NoticesReachEveryOther(init, payer);
      forall j | 0 <= j < |members| && members[j].userId != payer
        ensures Notice(members[j].userId, GroupExpenseCreated) in ExpenseNotices(members, payer)
      {
        if j < |init| {
          assert init[j] == members[j];
        }
      }
    }
  }

  lemma {:induction false} NoticesAtMostMembers(members: seq<ExpenseMember>, payer: nat)
    ensures |ExpenseNotices(members, payer)| <= |members|
  {
    if members != [] {
      NoticesAtMostMembers(members[..|members| - 1], payer);
    }
  }

  // ------------------------------------------------------------------
  // Operations

  /** The switch of createSplits for one member: what that member owes, or
      false when the member is missing the percentage or amount the method needs. */
  method ShareOwed(m: SplitMethod, total: real, n: nat, mem: ExpenseMember) returns (ok: bool, owed: real)
    requires n > 0
    ensures ok == !Rejects(m, mem)
    ensures ok ==> owed == Owed(m, total, n, mem)
  {
    ok, owed := true, 0.0;
    match m {
      case Equal =>
        owed := total / n as real;
      case Percentage =>
        if Falsy(mem.percentage) {
          return false, 0.0;
        }
        owed := total * mem.percentage.value / 100.0;
      case ExactAmounts =>
        if Falsy(mem.amount) {
          return false, 0.0;
        }
        owed := mem.amount.value;
      case Shares =>
    }
  }

  /** createSplits: one row per member, saved as the loop goes; a rejected
      member stops the loop with BadRequest, and the rows already saved stay. */
  method CreateSplits(splits: Table<Split>, e: GroupExpense, members: seq<ExpenseMember>, m: SplitMethod)
    returns (s: Status)
    modifies splits
    ensures var k := SavedCount(m, members);
            splits.rows == old(splits.rows) + SplitRows(e, members, m, old(splits.nextId), k)
            && splits.nextId == old(splits.nextId) + k
            && s == (if k < |members| || !Reconciles(splits.rows, e) then Failed(BadRequest) else Done)
  {
    var total := e.total;
    var n := |members|;
    ghost var firstId := splits.nextId;
    var k := 0;
    while k < n
      invariant 0 <= k <= n
      invariant forall j :: 0 <= j < k ==> !Rejects(m, members[j])
      invariant splits.rows == old(splits.rows) + SplitRows(e, members, m, firstId, k)
      invariant splits.nextId == firstId + k
    {
      var mem := members[k];
      var ok, owed := ShareOwed(m, total, n, mem);
      if !ok {
        SavedCountIs(m, members, k);
        return Failed(BadRequest);
      }
      var row := NewSplit(splits.nextId, e.id, mem.userId, e.paidBy, owed);
      SplitRowsSnoc(e, members, m, firstId, k);
      splits.Insert(row);
      k := k + 1;
    }
    SavedCountIs(m, members, n);
    var splitTotal := SumBy(SplitsOf(splits.rows, e.id), OwedOf);
    if Abs(splitTotal - total) > 0.01 {
      return Failed(BadRequest);
    }
    s := Done;
  }

  /** notifyMembers: one notification to each listed member other than the payer. */
  method NotifyMembers(notices: Table<Notice>, e: GroupExpense, members: seq<ExpenseMember>)
    modifies notices
    ensures notices.rows == old(notices.rows) + ExpenseNotices(members, e.paidBy)
    ensures notices.nextId == old(notices.nextId) + |ExpenseNotices(members, e.paidBy)|
  {
    var k := 0;
    while k < |members|
      invariant 0 <= k <= |members|
      invariant notices.rows == old(notices.rows) + ExpenseNotices(members[..k], e.paidBy)
      invariant notices.nextId == old(notices.nextId) + |ExpenseNotices(members[..k], e.paidBy)|
    {
      assert members[..k + 1][..k] == members[..k];
      if members[k].userId != e.paidBy {
        notices.Insert(Notice(members[k].userId, GroupExpenseCreated));
      }
      k := k + 1;
    }
    assert members[..k] == members;
  }

  /** create: members only; the expense is saved with the acting user as
      payer, then its splits; the members are told only when the splits pass.
      A failing split check leaves the expense and the saved splits in place.
      The answer is the expense with its splits, as findOneWithSplits reads them. */
  method Create(members: Table<MemberRow>, expenses: Table<GroupExpense>, splits: Table<Split>,
                notices: Table<Notice>, actor: nat, g: nat, input: ExpenseInput)
    returns (r: Result<(GroupExpense, seq<Split>)>)
    modifies expenses, splits, notices
    ensures !old(GroupMembers.IsMember(members, actor, g)) ==>
              r == Err(Forbidden) && unchanged(expenses) && unchanged(splits) && unchanged(notices)
    ensures old(GroupMembers.IsMember(members, actor, g)) ==>
              var e := GroupExpense(old(expenses.nextId), g, actor, input.name, input.total, input.categoryId,
                                    input.splitMethod, input.date);
              var k := SavedCount(input.splitMethod, input.members);
              expenses.rows == old(expenses.rows) + [e] && expenses.nextId == old(expenses.nextId) + 1
              && splits.rows == old(splits.rows) + SplitRows(e, input.members, input.splitMethod, old(splits.nextId), k)
              && splits.nextId == old(splits.nextId) + k
              && if k < |input.members| || !Reconciles(splits.rows, e)
                 then r == Err(BadRequest) && unchanged(notices)
                 else r == Ok((e, SplitsOf(splits.rows, e.id))) && notices.rows == old(notices.rows) + ExpenseNotices(input.members, actor)
                      && notices.nextId == old(notices.nextId) + |ExpenseNotices(input.members, actor)|
    ensures r.Ok? ==> r.value.0.paidBy == actor && r.value.0.groupId == g
  {
    if !GroupMembers.IsMember(members, actor, g) {
      return Err(Forbidden);
    }
    var e := GroupExpense(expenses.nextId, g, actor, input.name, input.total, input.categoryId,
                          input.splitMethod, input.date);
    expenses.Insert(e);
    var st := CreateSplits(splits, e, input.members, input.splitMethod);
    if st.Failed? {
      return Err(st.error);
    }
    NotifyMembers(notices, e, input.members);
    r := Ok((e, SplitsOf(splits.rows, e.id)));
  }

  function ExpenseIndex(rows: seq<GroupExpense>, id: nat): Option<nat> {
    FindFirst(rows, (e: GroupExpense) => e.id == id)
  }

  /** findOneWithSplits: NotFound for an unknown id. */
  function FindOneWithSplits(expenses: Table<GroupExpense>, splits: Table<Split>, id: nat)
    : (r: Result<(GroupExpense, seq<Split>)>)
    reads expenses, splits
    ensures r.Err? <==> forall i :: 0 <= i < |expenses.rows| ==> expenses.rows[i].id != id
    ensures r.Err? ==> r.error == NotFound
    ensures r.Ok? ==> r.value.0 in expenses.rows && r.value.0.id == id
                      && forall s :: s in r.value.1 <==> s in splits.rows && s.expenseId == id
  {
    match ExpenseIndex(expenses.rows, id)
    case None => Err(NotFound)
    case Some(i) =>
      FilterMembers(splits.rows, OfExpense(id));
      Ok((expenses.rows[i], SplitsOf(splits.rows, id)))
  }

  /** The payer-or-admin rule of update and remove. */
  predicate MayChange(members: Table<MemberRow>, e: GroupExpense, actor: nat)
    reads members
  {
    e.paidBy == actor || GroupMembers.IsAdmin(members, actor, e.groupId)
  }

  function ApplyPatch(e: GroupExpense, p: ExpensePatch): GroupExpense {
    GroupExpense(e.id, p.groupId.GetOr(e.groupId), p.paidBy.GetOr(e.paidBy), p.name.GetOr(e.name),
                 p.total.GetOr(e.total), if p.categoryId.Some? then p.categoryId else e.categoryId,
                 p.splitMethod.GetOr(e.splitMethod), p.date.GetOr(e.date))
  }

  /** The patch overwrites exactly the fields it holds, the payer and the
      group among them, and never the id. */
  lemma ApplyPatchFields(e: GroupExpense, p: ExpensePatch)
    ensures ApplyPatch(e, p).id == e.id
    ensures p.paidBy.Some? ==> ApplyPatch(e, p).paidBy == p.paidBy.value
    ensures p.paidBy.None? ==> ApplyPatch(e, p).paidBy == e.paidBy
    ensures p.groupId.Some? ==> ApplyPatch(e, p).groupId == p.groupId.value
    ensures ApplyPatch(ApplyPatch(e, p), p) == ApplyPatch(e, p)
  {
  }

  /** update: NotFound, then Forbidden unless the actor paid or administers
      the group; otherwise the patch is assigned and saved. Splits are not touched. */
  method Update(members: Table<MemberRow>, expenses: Table<GroupExpense>, splits: Table<Split>,
                actor: nat, id: nat, patch: ExpensePatch)
    returns (r: Result<GroupExpense>)
    modifies expenses
    ensures match ExpenseIndex(old(expenses.rows), id)
            case None => r == Err(NotFound) && unchanged(expenses)
            case Some(i) =>
              if !MayChange(members, old(expenses.rows[i]), actor) then r == Err(Forbidden) && unchanged(expenses)
              else r == Ok(ApplyPatch(old(expenses.rows[i]), patch))
                   && expenses.rows == old(expenses.rows)[i := r.value] && expenses.nextId == old(expenses.nextId)
  {
    var found := FindOneWithSplits(expenses, splits, id);
    if found.Err? {
      return Err(found.error);
    }
    var i := ExpenseIndex(expenses.rows, id).value;
    var e := expenses.rows[i];
    var isAdmin := GroupMembers.IsAdmin(members, actor, e.groupId);
    if e.paidBy != actor && !isAdmin {
      return Err(Forbidden);
    }
    var updated := ApplyPatch(e, patch);
    expenses.Save(i, updated);
    r := Ok(updated);
  }

  /** A split that blocks deletion: settled and not the payer's own. */
  predicate Blocks(e: GroupExpense, s: Split) {
    s.settled && s.userId != e.paidBy
  }

  /** remove: NotFound, then Forbidden as for update, then BadRequest when a
      non-payer split is settled; otherwise the expense row alone is deleted. */
  method Remove(members: Table<MemberRow>, expenses: Table<GroupExpense>, splits: Table<Split>,
                actor: nat, id: nat)
    returns (s: Status)
    modifies expenses
    ensures match ExpenseIndex(old(expenses.rows), id)
            case None => s == Failed(NotFound) && unchanged(expenses)
            case Some(i) =>
              if !MayChange(members, old(expenses.rows[i]), actor) then s == Failed(Forbidden) && unchanged(expenses)
              else if exists sp :: sp in splits.rows && sp.expenseId == id && Blocks(old(expenses.rows[i]), sp)
              then s == Failed(BadRequest) && unchanged(expenses)
              else s == Done && expenses.rows == old(expenses.rows)[..i] + old(expenses.rows)[i + 1..]
                   && expenses.nextId == old(expenses.nextId)
  {
    var found := FindOneWithSplits(expenses, splits, id);
    if found.Err? {
      return Failed(found.error);
    }
    var i := ExpenseIndex(expenses.rows, id).value;
    var e := found.value.0;
    var isAdmin := GroupMembers.IsAdmin(members, actor, e.groupId);
    if e.paidBy != actor && !isAdmin {
      return Failed(Forbidden);
    }
    var settled := Filter(found.value.1, (sp: Split) => Blocks(e, sp));
    FilterMembers(found.value.1, (sp: Split) => Blocks(e, sp));
    if |settled| > 0 {
      assert settled[0] in settled;
      return Failed(BadRequest);
    }
    assert forall sp :: sp in splits.rows && sp.expenseId == id ==> !Blocks(e, sp) by {
      forall sp | sp in splits.rows && sp.expenseId == id ensures !Blocks(e, sp) {
        assert sp in found.value.1;
        assert sp !in settled;
      }
    }
    expenses.Remove(i);
    s := Done;
  }

  // ------------------------------------------------------------------
  // A user's totals in a group

  /** getUserExpenses' answer. */
  datatype UserExpenses = UserExpenses(paid: seq<GroupExpense>, owes: seq<Split>, totalPaid: real, totalOwed: real)

  predicate SplitInGroup(expenses: seq<GroupExpense>, s: Split, g: nat) {
    exists i :: 0 <= i < |expenses| && expenses[i].id == s.expenseId && expenses[i].groupId == g
  }

  function PaidBy(g: nat, u: nat): GroupExpense -> bool {
    (e: GroupExpense) => e.groupId == g && e.paidBy == u
  }

  function OwedBy(expenses: seq<GroupExpense>, g: nat, u: nat): Split -> bool {
    (s: Split) => s.userId == u && !s.settled && SplitInGroup(expenses, s, g)
  }

  /** When no split is overpaid, the outstanding balances of any selection add up to at least 0. */
  lemma OutstandingNonNegative(splits: seq<Split>, p: Split -> bool)
    ensures (forall i :: 0 <= i < |splits| ==> splits[i].paid <= splits[i].owed) ==>
              SumBy(Filter(splits, p), Outstanding) >= 0.0
  {
    if forall i :: 0 <= i < |splits| ==> splits[i].paid <= splits[i].owed {
      var sel := Filter(splits, p);
      FilterMembers(splits, p);
      forall i | 0 <= i < |sel| ensures Outstanding(sel[i]) >= 0.0 {
        assert sel[i] in splits;
      }
      SumByNonNegative(sel, Outstanding);
    }
  }

  function ExpenseDate(e: GroupExpense): real {
    e.date as real
  }

  /** getUserExpenses: the expenses the user paid in the group, newest first
      (`expenseDate DESC`), with their summed totals, and the user's unsettled
      splits on the group's expenses with their summed outstanding balances. */
  function GetUserExpenses(expenses: seq<GroupExpense>, splits: seq<Split>, u: nat, g: nat): (r: UserExpenses)
    ensures forall e :: e in r.paid <==> e in expenses && e.groupId == g && e.paidBy == u
    ensures multiset(r.paid) == multiset(Filter(expenses, PaidBy(g, u)))
    ensures SortedBy(r.paid, Descending(ExpenseDate))
    ensures forall s :: s in r.owes <==> s in splits && s.userId == u && !s.settled && SplitInGroup(expenses, s, g)
    ensures r.owes == Filter(splits, OwedBy(expenses, g, u))
    ensures forall s :: multiset(r.owes)[s]
                        == if s.userId == u && !s.settled && SplitInGroup(expenses, s, g) then multiset(splits)[s] else 0
    ensures r.totalPaid == SumBy(r.paid, (e: GroupExpense) => e.total)
    ensures r.totalOwed == SumBy(r.owes, OwedOf) - SumBy(r.owes, PaidOf)
    ensures (forall i :: 0 <= i < |splits| ==> splits[i].paid <= splits[i].owed) ==> r.totalOwed >= 0.0
  {
    var mine := Filter(expenses, PaidBy(g, u));
    var paid := SortBy(mine, Descending(ExpenseDate));
    var owes := Filter(splits, OwedBy(expenses, g, u));
    FilterMembers(expenses, PaidBy(g, u));
    SortMembers(mine, Descending(ExpenseDate));
    DescendingIsTotalPreorder(ExpenseDate);
    SortSorted(mine, Descending(ExpenseDate));
    FilterMembers(splits, OwedBy(expenses, g, u));
    FilterCounts(splits, OwedBy(expenses, g, u));
    SumByDifference(owes, OwedOf, PaidOf, Outstanding);
    OutstandingNonNegative(splits, OwedBy(expenses, g, u));
    UserExpenses(paid, owes, SumBy(paid, (e: GroupExpense) => e.total), SumBy(owes, Outstanding))
  }
}
