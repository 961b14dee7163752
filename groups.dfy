/** The older group service of groups.service.ts: group creation with the
    creator as admin, unchecked member insertion, equal-only expense splitting,
    the balance summary, and the admin / member guards of reads and writes. */
module Groups {
  import opened Common
  import opened Entities
  import GroupMembers

  /** The fields of CreateGroupDto the model keeps; `active` is optional and
      the column defaults to true. */
  datatype GroupInput = GroupInput(code: string, name: string, description: Option<string>,
                                   groupType: GroupType, active: Option<bool>)

  /** UpdateGroupDto: every field optional. */
  datatype GroupPatch = GroupPatch(code: Option<string>, name: Option<string>, description: Option<string>,
                                   groupType: Option<GroupType>, active: Option<bool>)

  /** The fields of this service's CreateGroupExpenseDto: members are plain user ids. */
  datatype ExpenseInput = ExpenseInput(name: string, total: real, categoryId: Option<nat>,
                                       splitMethod: SplitMethod, date: int, members: seq<nat>)

  /** `Object.assign(group, dto)`: each field present in the patch overwrites the row's. */
  function ApplyPatch(grp: Group, p: GroupPatch): Group {
    Group(grp.id, p.code.GetOr(grp.code), p.name.GetOr(grp.name),
          if p.description.Some? then p.description else grp.description,
          p.groupType.GetOr(grp.groupType), p.active.GetOr(grp.active))
  }

  /** Applying the same patch twice is applying it once, and an empty patch changes nothing. */
  lemma ApplyPatchIdempotent(grp: Group, p: GroupPatch)
    ensures ApplyPatch(ApplyPatch(grp, p), p) == ApplyPatch(grp, p)
    ensures ApplyPatch(grp, GroupPatch(None, None, None, None, None)) == grp
    ensures ApplyPatch(grp, p).id == grp.id
  {
  }

  // ------------------------------------------------------------------
  // Guards

  /** verifyAdmin: `findOne` of an active ADMIN row, Forbidden if none. */
  function VerifyAdmin(members: Table<MemberRow>, u: nat, g: nat): (s: Status)
    reads members
    ensures s == Done <==> GroupMembers.IsAdmin(members, u, g)
    ensures s != Done ==> s == Failed(Forbidden)
  {
    if FindFirst(members.rows, (r: MemberRow) => GroupMembers.ActiveAdminIn(r, u, g)).Some? then Done
    else Failed(Forbidden)
  }

  /** verifyMember: `findOne` of an active row, Forbidden if none. */
  function VerifyMember(members: Table<MemberRow>, u: nat, g: nat): (s: Status)
    reads members
    ensures s == Done <==> GroupMembers.IsMember(members, u, g)
    ensures s != Done ==> s == Failed(Forbidden)
  {
    if FindFirst(members.rows, (r: MemberRow) => GroupMembers.ActiveIn(r, u, g)).Some? then Done
    else Failed(Forbidden)
  }

  function GroupIndex(rows: seq<Group>, id: nat): Option<nat> {
    FindFirst(rows, (r: Group) => r.id == id)
  }

  /** findOne: NotFound for an unknown group, then Forbidden for a non-member. */
  function FindOne(groups: Table<Group>, members: Table<MemberRow>, u: nat, id: nat): (r: Result<Group>)
    reads groups, members
    ensures r.Ok? <==> (exists i :: 0 <= i < |groups.rows| && groups.rows[i].id == id)
                       && GroupMembers.IsMember(members, u, id)
    ensures r.Ok? ==> r.value in groups.rows && r.value.id == id
    ensures r.Err? && !(exists i :: 0 <= i < |groups.rows| && groups.rows[i].id == id) ==> r.error == NotFound
    ensures r.Err? && (exists i :: 0 <= i < |groups.rows| && groups.rows[i].id == id) ==> r.error == Forbidden
  {
    match GroupIndex(groups.rows, id)
    case None => Err(NotFound)
    case Some(i) => if VerifyMember(members, u, id) == Done then Ok(groups.rows[i]) else Err(Forbidden)
  }

  // ------------------------------------------------------------------
  // Writes

  /** create: saves the group, then an active ADMIN membership of the creator. */
  method Create(groups: Table<Group>, members: Table<MemberRow>, actor: nat, input: GroupInput)
    returns (grp: Group)
    modifies groups, members
    ensures grp == Group(old(groups.nextId), input.code, input.name, input.description, input.groupType,
                         input.active.GetOr(true))
    ensures groups.rows == old(groups.rows) + [grp] && groups.nextId == old(groups.nextId) + 1
    ensures members.rows == old(members.rows) + [MemberRow(old(members.nextId), grp.id, actor, Admin, true)]
    ensures members.nextId == old(members.nextId) + 1
    ensures GroupMembers.IsAdmin(members, actor, grp.id) && GroupMembers.AdminCount(members.rows, grp.id) >= 1
  {
    grp := Group(groups.nextId, input.code, input.name, input.description, input.groupType, input.active.GetOr(true));
    groups.Insert(grp);
    var row := MemberRow(members.nextId, grp.id, actor, Admin, true);
    members.Insert(row);
    assert GroupMembers.ActiveAdminIn(members.rows[|members.rows| - 1], actor, grp.id);
    GroupMembers.AdminRowCounts(members.rows, actor, grp.id, |members.rows| - 1);
  }

  /** addMember: admin only; always inserts a new active MEMBER row, even
      when the user already has one. */
  method AddMember(members: Table<MemberRow>, actor: nat, g: nat, newUser: nat) returns (r: Result<MemberRow>)
    modifies members
    ensures !old(GroupMembers.IsAdmin(members, actor, g)) ==> r == Err(Forbidden) && unchanged(members)
    ensures old(GroupMembers.IsAdmin(members, actor, g)) ==>
              r == Ok(MemberRow(old(members.nextId), g, newUser, Member, true))
              && members.rows == old(members.rows) + [r.value] && members.nextId == old(members.nextId) + 1
    ensures r.Ok? ==> Count(members.rows, (x: MemberRow) => GroupMembers.ActiveIn(x, newUser, g))
                      == Count(old(members.rows), (x: MemberRow) => GroupMembers.ActiveIn(x, newUser, g)) + 1
    ensures forall h :: GroupMembers.AdminCount(members.rows, h) == GroupMembers.AdminCount(old(members.rows), h)
  {
    if VerifyAdmin(members, actor, g) != Done {
      return Err(Forbidden);
    }
    var row := MemberRow(members.nextId, g, newUser, Member, true);
    ghost var before := members.rows;
    members.Insert(row);
    r := Ok(row);
    CountAppend(before, row, (x: MemberRow) => GroupMembers.ActiveIn(x, newUser, g));
    forall h ensures GroupMembers.AdminCount(members.rows, h) == GroupMembers.AdminCount(before, h) {
      CountAppend(before, row, (x: MemberRow) => GroupMembers.AdminOf(x, h));
    }
  }

  /** update: findOne's guards, then admin only, then the patch is applied. */
  method Update(groups: Table<Group>, members: Table<MemberRow>, actor: nat, id: nat, patch: GroupPatch)
    returns (r: Result<Group>)
    modifies groups
    ensures old(FindOne(groups, members, actor, id)).Err? ==>
              r == Err(old(FindOne(groups, members, actor, id)).error) && unchanged(groups)
    ensures old(FindOne(groups, members, actor, id)).Ok? && !GroupMembers.IsAdmin(members, actor, id) ==>
              r == Err(Forbidden) && unchanged(groups)
    ensures old(FindOne(groups, members, actor, id)).Ok? && GroupMembers.IsAdmin(members, actor, id) ==>
              var i := GroupIndex(old(groups.rows), id).value;
              r == Ok(ApplyPatch(old(groups.rows[i]), patch))
              && groups.rows == old(groups.rows)[i := r.value] && groups.nextId == old(groups.nextId)
    ensures r.Ok? ==> GroupMembers.IsAdmin(members, actor, id)
  {
    var found := FindOne(groups, members, actor, id);
    if found.Err? {
      return Err(found.error);
    }
    if VerifyAdmin(members, actor, id) != Done {
      return Err(Forbidden);
    }
    var i := GroupIndex(groups.rows, id).value;
    var grp := ApplyPatch(groups.rows[i], patch);
    groups.Save(i, grp);
    r := Ok(grp);
  }

  /** remove: findOne's guards, then admin only, then the group row is deleted. */
  method Remove(groups: Table<Group>, members: Table<MemberRow>, actor: nat, id: nat) returns (s: Status)
    modifies groups
    ensures old(FindOne(groups, members, actor, id)).Err? ==>
              s == Failed(old(FindOne(groups, members, actor, id)).error) && unchanged(groups)
    ensures old(FindOne(groups, members, actor, id)).Ok? && !GroupMembers.IsAdmin(members, actor, id) ==>
              s == Failed(Forbidden) && unchanged(groups)
    ensures old(FindOne(groups, members, actor, id)).Ok? && GroupMembers.IsAdmin(members, actor, id) ==>
              var i := GroupIndex(old(groups.rows), id).value;
              s == Done && groups.rows == old(groups.rows)[..i] + old(groups.rows)[i + 1..]
              && groups.nextId == old(groups.nextId)
  {
    var found := FindOne(groups, members, actor, id);
    if found.Err? {
      return Failed(found.error);
    }
    if VerifyAdmin(members, actor, id) != Done {
      return Failed(Forbidden);
    }
    var i := GroupIndex(groups.rows, id).value;
    groups.Remove(i);
    s := Done;
  }

  // ------------------------------------------------------------------
  // Expenses split equally

  /** The `(user, amount)` list createSplits builds with `members.map`: an
      equal share for each listed member under `equal`, nothing otherwise. */
  function PlannedShares(total: real, members: seq<nat>, m: SplitMethod): seq<(nat, real)> {
    if m == Equal && |members| > 0
    then seq(|members|, k requires 0 <= k < |members| => (members[k], total / |members| as real))
    else []
  }

  /** The split rows the save loop writes for those shares, with consecutive ids. */
  function SavedSplits(e: GroupExpense, shares: seq<(nat, real)>, firstId: nat): seq<Split> {
    seq(|shares|, k requires 0 <= k < |shares| => NewSplit(firstId + k, e.id, shares[k].0, e.paidBy, shares[k].1))
  }

  /** Under `equal` with at least one member, the owed amounts add up to the
      total, and each member owes total / n; any other method plans nothing. */
  lemma EqualSharesSum(e: GroupExpense, members: seq<nat>, m: SplitMethod, firstId: nat)
    ensures var saved := SavedSplits(e, PlannedShares(e.total, members, m), firstId);
            (m == Equal ==> |saved| == |members|
                            && forall k :: 0 <= k < |saved| ==>
                                 saved[k].userId == members[k] && saved[k].owed == e.total / |members| as real)
            && (m == Equal && |members| > 0 ==> SumBy(saved, (s: Split) => s.owed) == e.total)
            && (m != Equal ==> saved == [])
  {
    var saved := SavedSplits(e, PlannedShares(e.total, members, m), firstId);
    if m == Equal && |members| > 0 {
      var n := |members| as real;
      SumByConstant(saved, (s: Split) => s.owed, e.total / n);
      assert n * (e.total / n) == e.total;
    }
  }

  /** The splits written for a new expense are exactly its splits, and each
      is pre-paid and settled precisely when it is the payer's own. */
  lemma SavedSplitsAreTheExpensesSplits(before: seq<Split>, e: GroupExpense, shares: seq<(nat, real)>, firstId: nat)
    requires forall i :: 0 <= i < |before| ==> before[i].expenseId != e.id
    ensures SplitsOf(before + SavedSplits(e, shares, firstId), e.id) == SavedSplits(e, shares, firstId)
    ensures forall s :: s in SavedSplits(e, shares, firstId) ==>
              s.settled == (s.userId == e.paidBy) && s.paid == (if s.settled then s.owed else 0.0)
  {
    SplitsOfFresh(before, SavedSplits(e, shares, firstId), e.id);
  }

  /** createExpense: members only; the acting user is recorded as payer and
      the planned shares are saved one by one. The answer is the expense with
      its splits, as findExpenseWithSplits reads them back; when no earlier
      split points at the new id, those are exactly the splits just saved. */
  method CreateExpense(members: Table<MemberRow>, expenses: Table<GroupExpense>, splits: Table<Split>,
                       actor: nat, g: nat, input: ExpenseInput)
    returns (r: Result<(GroupExpense, seq<Split>)>)
    modifies expenses, splits
    ensures !old(GroupMembers.IsMember(members, actor, g)) ==>
              r == Err(Forbidden) && unchanged(expenses) && unchanged(splits)
    ensures old(GroupMembers.IsMember(members, actor, g)) ==>
              var e := GroupExpense(old(expenses.nextId), g, actor, input.name, input.total, input.categoryId,
                                    input.splitMethod, input.date);
              var shares := PlannedShares(input.total, input.members, input.splitMethod);
              expenses.rows == old(expenses.rows) + [e] && expenses.nextId == old(expenses.nextId) + 1
              && splits.rows == old(splits.rows) + SavedSplits(e, shares, old(splits.nextId))
              && splits.nextId == old(splits.nextId) + |shares|
              && r == Ok((e, SplitsOf(splits.rows, e.id)))
    ensures old(GroupMembers.IsMember(members, actor, g))
            && (forall i :: 0 <= i < |old(splits.rows)| ==> old(splits.rows)[i].expenseId != old(expenses.nextId)) ==>
              r.Ok? && r.value.1 == SavedSplits(r.value.0, PlannedShares(input.total, input.members, input.splitMethod),
                                                old(splits.nextId))
    ensures r.Ok? ==> r.value.0.paidBy == actor && r.value.0.groupId == g
  {
    if VerifyMember(members, actor, g) != Done {
      return Err(Forbidden);
    }
    var e := GroupExpense(expenses.nextId, g, actor, input.name, input.total, input.categoryId,
                          input.splitMethod, input.date);
    expenses.Insert(e);
    var shares := PlannedShares(e.total, input.members, input.splitMethod);
    ghost var before := splits.rows;
    ghost var firstId := splits.nextId;
    var k := 0;
    while k < |shares|
      invariant 0 <= k <= |shares|
      invariant splits.rows == before + SavedSplits(e, shares[..k], firstId)
      invariant splits.nextId == firstId + k
      invariant expenses.rows == old(expenses.rows) + [e] && expenses.nextId == old(expenses.nextId) + 1
    {
      var row := NewSplit(splits.nextId, e.id, shares[k].0, e.paidBy, shares[k].1);
      assert SavedSplits(e, shares[..k + 1], firstId) == SavedSplits(e, shares[..k], firstId) + [row];
      splits.Insert(row);
      k := k + 1;
    }
    assert shares[..k] == shares;
    if forall i :: 0 <= i < |before| ==> before[i].expenseId != e.id {
      SavedSplitsAreTheExpensesSplits(before, e, shares, firstId);
    }
    r := Ok((e, SplitsOf(splits.rows, e.id)));
  }

  // ------------------------------------------------------------------
  // Balance summary

  /** One visit of getGroupBalances' nested loop: an expense and one of its splits. */
  type Visit = (GroupExpense, Split)

  function InGroup(g: nat): GroupExpense -> bool {
    (e: GroupExpense) => e.groupId == g
  }

  /** `expenseRepo.find({ where: { group_id } })`, in table order. */
  function ExpensesOf(rows: seq<GroupExpense>, g: nat): seq<GroupExpense> {
    Filter(rows, InGroup(g))
  }

  function VisitsOf(e: GroupExpense, ss: seq<Split>): seq<Visit> {
    seq(|ss|, k requires 0 <= k < |ss| => (e, ss[k]))
  }

  /** The visits in loop order: each expense in turn, with its splits. */
  function Visits(es: seq<GroupExpense>, splits: seq<Split>): seq<Visit> {
    if es == [] then []
    else Visits(es[..|es| - 1], splits) + VisitsOf(es[|es| - 1], SplitsOf(splits, es[|es| - 1].id))
  }

  function GroupVisits(expenses: seq<GroupExpense>, splits: seq<Split>, g: nat): seq<Visit> {
    Visits(ExpensesOf(expenses, g), splits)
  }

  /** What a visit adds to u's `owed`: u's own split of an expense u paid. */
  function Credit(v: Visit, u: nat): real {
    if v.1.userId == u && u == v.0.paidBy then v.1.owed else 0.0
  }

  /** What a visit adds to u's `owes`: u's split of an expense someone else paid. */
  function Debit(v: Visit, u: nat): real {
    if v.1.userId == u && u != v.0.paidBy then v.1.owed else 0.0
  }

  /** `net_balance = owed - owes` as the loop computes it. */
  function NetBalance(vs: seq<Visit>, u: nat): real {
    SumBy(vs, (v: Visit) => Credit(v, u)) - SumBy(vs, (v: Visit) => Debit(v, u))
  }

  /** The users in order of first appearance: the key order of the JS Map. */
  function Users(vs: seq<Visit>): seq<nat> {
    if vs == [] then []
    else
      var us := Users(vs[..|vs| - 1]);
      if vs[|vs| - 1].1.userId in us then us else us + [vs[|vs| - 1].1.userId]
  }

  /** The visits are exactly the pairs of a group expense and one of its splits. */
  lemma {:induction false} VisitsMembers(es: seq<GroupExpense>, splits: seq<Split>)
    ensures forall v :: v in Visits(es, splits) <==> v.0 in es && v.1 in splits && v.1.expenseId == v.0.id
  {
    if es != [] {
      var init, e := es[..|es| - 1], es[|es| - 1];
      VisitsMembers(init, splits);
      FilterMembers(splits, OfExpense(e.id));
      assert es == init + [e];
      forall v ensures v in VisitsOf(e, SplitsOf(splits, e.id)) <==> v.0 == e && v.1 in SplitsOf(splits, e.id) {
        if v in VisitsOf(e, SplitsOf(splits, e.id)) {
          var k :| 0 <= k < |SplitsOf(splits, e.id)| && VisitsOf(e, SplitsOf(splits, e.id))[k] == v;
        }
        if v.0 == e && v.1 in SplitsOf(splits, e.id) {
          var k :| 0 <= k < |SplitsOf(splits, e.id)| && SplitsOf(splits, e.id)[k] == v.1;
          assert VisitsOf(e, SplitsOf(splits, e.id))[k] == v;
        }
      }
    }
  }

  /** The listed users are exactly those with at least one split in the group. */
  lemma {:induction false} UsersListed(vs: seq<Visit>)
    ensures forall u :: u in Users(vs) <==> exists i :: 0 <= i < |vs| && vs[i].1.userId == u
  {
    if vs != [] {
      var init := vs[..|vs| - 1];
      UsersListed(init);
      forall u | u in Users(vs) ensures exists i :: 0 <= i < |vs| && vs[i].1.userId == u {
        if u in Users(init) {
          var i :| 0 <= i < |init| && init[i].1.userId == u;
          assert vs[i] == init[i];
        }
      }
      forall u | exists i :: 0 <= i < |vs| && vs[i].1.userId == u ensures u in Users(vs) {
        var i :| 0 <= i < |vs| && vs[i].1.userId == u;
        if i < |init| {
          assert init[i] == vs[i];
        }
      }
    }
  }

  /** No user is listed twice. */
  lemma {:induction false} UsersDistinct(vs: seq<Visit>)
    ensures forall i, j :: 0 <= i < j < |Users(vs)| ==> Users(vs)[i] != Users(vs)[j]
  {
    if vs != [] {
      UsersDistinct(vs[..|vs| - 1]);
    }
  }

  /** A user with no split in the visits has nothing on either side. */
  lemma {:induction false} AbsentUserZero(vs: seq<Visit>, u: nat)
    requires forall i :: 0 <= i < |vs| ==> vs[i].1.userId != u
    ensures SumBy(vs, (v: Visit) => Credit(v, u)) == 0.0 && SumBy(vs, (v: Visit) => Debit(v, u)) == 0.0
  {
    if vs != [] {
      AbsentUserZero(vs[..|vs| - 1], u);
    }
  }

  /** The balance ignores amountPaid: visits that agree on expense, user and
      owed amount give every user the same balance, however much was paid. */
  lemma {:induction false} NetBalanceIgnoresPaid(vs: seq<Visit>, ws: seq<Visit>, u: nat)
    requires |vs| == |ws|
    requires forall i :: 0 <= i < |vs| ==> vs[i].0 == ws[i].0 && vs[i].1.userId == ws[i].1.userId
                                           && vs[i].1.owed == ws[i].1.owed
    ensures NetBalance(vs, u) == NetBalance(ws, u)
  {
    if vs != [] {
      var n := |vs| - 1;
      NetBalanceIgnoresPaid(vs[..n], ws[..n], u);
      assert Credit(vs[n], u) == Credit(ws[n], u) && Debit(vs[n], u) == Debit(ws[n], u);
    }
  }

  /** What the loop's Map holds after a run of visits: the users in
      first-appearance order, each with its (owed, owes) sums. */
  ghost predicate Tally(done: seq<Visit>, bal: map<nat, (real, real)>, order: seq<nat>) {
    && order == Users(done)
    && (forall u :: u in bal <==> u in order)
    && forall u :: u in bal ==>
         bal[u] == (SumBy(done, (v: Visit) => Credit(v, u)), SumBy(done, (v: Visit) => Debit(v, u)))
  }

  /** One more visit keeps the tally. */
  lemma TallyStep(done: seq<Visit>, bal: map<nat, (real, real)>, order: seq<nat>, v: Visit, b: (real, real))
    requires Tally(done, bal, order)
    requires var old_ := if v.1.userId in bal then bal[v.1.userId] else (0.0, 0.0);
             b == if v.1.userId == v.0.paidBy then (old_.0 + v.1.owed, old_.1) else (old_.0, old_.1 + v.1.owed)
    ensures Tally(done + [v], bal[v.1.userId := b], if v.1.userId in bal then order else order + [v.1.userId])
  {
    var u0 := v.1.userId;
    if u0 !in bal {
      UsersListed(done);
      AbsentUserZero(done, u0);
    }
    assert (done + [v])[..|done + [v]| - 1] == done;
    forall u ensures SumBy(done + [v], (w: Visit) => Credit(w, u)) == SumBy(done, (w: Visit) => Credit(w, u)) + Credit(v, u)
                  && SumBy(done + [v], (w: Visit) => Debit(w, u)) == SumBy(done, (w: Visit) => Debit(w, u)) + Debit(v, u)
    {
      SumBySnoc(done, v, (w: Visit) => Credit(w, u));
      SumBySnoc(done, v, (w: Visit) => Debit(w, u));
    }
  }

  /** `Array.from(balances.entries()).map(...)` over a tally lists every user's net balance. */
  lemma TallyEntries(done: seq<Visit>, bal: map<nat, (real, real)>, order: seq<nat>, r: seq<(nat, real)>)
    requires Tally(done, bal, order)
    requires |r| == |order| && forall k :: 0 <= k < |order| ==> r[k] == (order[k], bal[order[k]].0 - bal[order[k]].1)
    ensures |r| == |Users(done)| && forall k :: 0 <= k < |r| ==> r[k] == (Users(done)[k], NetBalance(done, Users(done)[k]))
  {
  }

  /** The inner loop of getGroupBalances: one expense's splits poured into the Map. */
  method TallyExpense(ghost done: seq<Visit>, bal0: map<nat, (real, real)>, order0: seq<nat>,
                      e: GroupExpense, ss: seq<Split>)
    returns (bal: map<nat, (real, real)>, order: seq<nat>)
    requires Tally(done, bal0, order0)
    ensures Tally(done + VisitsOf(e, ss), bal, order)
  {
    bal, order := bal0, order0;
    ghost var seen := done;
    var j := 0;
    while j < |ss|
      invariant 0 <= j <= |ss|
      invariant seen == done + VisitsOf(e, ss[..j])
      invariant Tally(seen, bal, order)
    {
      var s := ss[j];
      var b := if s.userId in bal then bal[s.userId] else (0.0, 0.0);
      if s.userId == e.paidBy {
        b := (b.0 + s.owed, b.1);
      } else {
        b := (b.0, b.1 + s.owed);
      }
      TallyStep(seen, bal, order, (e, s), b);
      if s.userId !in bal {
        order := order + [s.userId];
      }
      bal := bal[s.userId := b];
      seen := seen + [(e, s)];
      assert VisitsOf(e, ss[..j + 1]) == VisitsOf(e, ss[..j]) + [(e, s)];
      j := j + 1;
    }
    assert ss[..j] == ss;
  }

  /** getGroupBalances: one `(user, net_balance)` entry per user with a split
      in the group, in first-appearance order. */
  method GetGroupBalances(expenses: Table<GroupExpense>, splits: Table<Split>, g: nat)
    returns (r: seq<(nat, real)>)
    ensures var vs := GroupVisits(expenses.rows, splits.rows, g);
            |r| == |Users(vs)|
            && forall k :: 0 <= k < |r| ==> r[k] == (Users(vs)[k], NetBalance(vs, Users(vs)[k]))
  {
    var es := ExpensesOf(expenses.rows, g);
    var bal: map<nat, (real, real)> := map[];
    var order: seq<nat> := [];
    ghost var done: seq<Visit> := [];
    var i := 0;
    while i < |es|
      invariant 0 <= i <= |es|
      invariant done == Visits(es[..i], splits.rows)
      invariant Tally(done, bal, order)
    {
      var e := es[i];
      bal, order := TallyExpense(done, bal, order, e, SplitsOf(splits.rows, e.id));
      done := done + VisitsOf(e, SplitsOf(splits.rows, e.id));
      assert es[..i + 1][..i] == es[..i];
      i := i + 1;
    }
    assert es[..i] == es;
    r := seq(|order|, k requires 0 <= k < |order| => (order[k], bal[order[k]].0 - bal[order[k]].1));
    TallyEntries(done, bal, order, r);
  }
}
