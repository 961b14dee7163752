/** The membership registry of groups-members.service.ts: soft-deleted
    membership rows with ADMIN / MEMBER roles, admin-only administration,
    reactivation of a prior row, and the last-admin guard. */
module GroupMembers {
  import opened Common
  import opened Entities

  /** A row that makes user u an active member of group g. */
  predicate ActiveIn(r: MemberRow, u: nat, g: nat) {
    r.userId == u && r.groupId == g && r.active
  }

  /** A row that makes user u an active admin of group g. */
  predicate ActiveAdminIn(r: MemberRow, u: nat, g: nat) {
    ActiveIn(r, u, g) && r.role == Admin
  }

  /** A row that gives group g an active admin, whoever it is. */
  predicate AdminOf(r: MemberRow, g: nat) {
    r.groupId == g && r.role == Admin && r.active
  }

  /** `count({ where: { group_id, role: ADMIN, isActive: true } })` */
  function AdminCount(rows: seq<MemberRow>, g: nat): nat {
    Count(rows, r => AdminOf(r, g))
  }

  /** isMember: `count({ where: { user_id, group_id, isActive: true } }) > 0`. */
  function IsMember(members: Table<MemberRow>, u: nat, g: nat): (b: bool)
    reads members
    ensures b <==> exists i :: 0 <= i < |members.rows| && ActiveIn(members.rows[i], u, g)
  {
    var p := (r: MemberRow) => ActiveIn(r, u, g);
    CountPositive(members.rows, p);
    Count(members.rows, p) > 0
  }

  /** isAdmin: the same count restricted to role ADMIN. */
  function IsAdmin(members: Table<MemberRow>, u: nat, g: nat): (b: bool)
    reads members
    ensures b <==> exists i :: 0 <= i < |members.rows| && ActiveAdminIn(members.rows[i], u, g)
  {
    var p := (r: MemberRow) => ActiveAdminIn(r, u, g);
    CountPositive(members.rows, p);
    Count(members.rows, p) > 0
  }

  /** verifyAdmin: Forbidden unless u is an active admin of g. */
  function VerifyAdmin(members: Table<MemberRow>, u: nat, g: nat): (s: Status)
    reads members
    ensures s == Done || s == Failed(Forbidden)
    ensures s == Done <==> exists i :: 0 <= i < |members.rows| && ActiveAdminIn(members.rows[i], u, g)
  {
    if IsAdmin(members, u, g) then Done else Failed(Forbidden)
  }

  /** The row `findOne({ where: { group_id, user_id } })` returns, active or not. */
  function PriorRow(rows: seq<MemberRow>, g: nat, u: nat): Option<nat> {
    FindFirst(rows, (r: MemberRow) => r.groupId == g && r.userId == u)
  }

  /** The row `findOne({ where: { id, group_id } })` returns. */
  function RowById(rows: seq<MemberRow>, memberId: nat, g: nat): Option<nat> {
    FindFirst(rows, (r: MemberRow) => r.id == memberId && r.groupId == g)
  }

  /** The row `findOne({ where: { user_id, group_id, isActive: true } })` returns. */
  function ActiveRow(rows: seq<MemberRow>, u: nat, g: nat): Option<nat> {
    FindFirst(rows, (r: MemberRow) => ActiveIn(r, u, g))
  }

  /** An active admin row of u in g makes the group's admin count positive. */
  lemma AdminRowCounts(rows: seq<MemberRow>, u: nat, g: nat, j: nat)
    requires j < |rows| && ActiveAdminIn(rows[j], u, g)
    ensures AdminCount(rows, g) >= 1
  {
    var p := (r: MemberRow) => AdminOf(r, g);
    CountPositive(rows, p);
    assert p(rows[j]);
  }

  /** Overwriting row i moves the admin count of group h by at most that row's contribution. */
  lemma AdminCountUpdate(rows: seq<MemberRow>, i: nat, x: MemberRow, h: nat)
    requires i < |rows|
    ensures AdminCount(rows[i := x], h)
            == AdminCount(rows, h) - (if AdminOf(rows[i], h) then 1 else 0) + (if AdminOf(x, h) then 1 else 0)
  {
    CountUpdate(rows, i, x, (r: MemberRow) => AdminOf(r, h));
  }

  /** Deactivating one row removes at most one admin, and only from that row's group. */
  lemma DeactivateAdminCount(rows: seq<MemberRow>, i: nat, h: nat)
    requires i < |rows|
    ensures AdminCount(rows[i := rows[i].(active := false)], h)
            == AdminCount(rows, h) - (if AdminOf(rows[i], h) then 1 else 0)
  {
    AdminCountUpdate(rows, i, rows[i].(active := false), h);
  }

  /** Changing a row that is not u's keeps every active admin row of u. */
  lemma OtherRowKeepsAdmin(rows: seq<MemberRow>, i: nat, x: MemberRow, u: nat, g: nat)
    requires i < |rows| && rows[i].userId != u
    requires exists j :: 0 <= j < |rows| && ActiveAdminIn(rows[j], u, g)
    ensures var rows' := rows[i := x]; exists j :: 0 <= j < |rows'| && ActiveAdminIn(rows'[j], u, g)
    ensures AdminCount(rows[i := x], g) >= 1
  {
    var j :| 0 <= j < |rows| && ActiveAdminIn(rows[j], u, g);
    assert j != i;
    assert rows[i := x][j] == rows[j];
    AdminRowCounts(rows[i := x], u, g, j);
  }

  /** addMember: admin only; the target must resolve to a user; an active
      membership is refused, an inactive one is reactivated in place, and
      otherwise a new active row with the given role (MEMBER by default) is
      inserted. `target` is the result of the user lookup by id or e-mail. */
  method AddMember(members: Table<MemberRow>, actor: nat, g: nat, target: Option<nat>, role: Option<Role>)
    returns (r: Result<MemberRow>)
    modifies members
    ensures !old(IsAdmin(members, actor, g)) ==> r == Err(Forbidden) && unchanged(members)
    ensures old(IsAdmin(members, actor, g)) && target.None? ==> r == Err(NotFound) && unchanged(members)
    ensures old(IsAdmin(members, actor, g)) && target.Some? ==>
              match PriorRow(old(members.rows), g, target.value)
              case Some(i) =>
                if old(members.rows[i].active) then r == Err(BadRequest) && unchanged(members)
                else r == Ok(old(members.rows[i]).(active := true))
                     && members.rows == old(members.rows)[i := r.value] && members.nextId == old(members.nextId)
              case None =>
                r == Ok(MemberRow(old(members.nextId), g, target.value, role.GetOr(Member), true))
                && members.rows == old(members.rows) + [r.value] && members.nextId == old(members.nextId) + 1
    ensures r.Ok? ==> r.value.groupId == g && target.Some? && r.value.userId == target.value
    ensures r.Ok? ==> IsMember(members, target.value, g)
    ensures forall h :: AdminCount(old(members.rows), h) <= AdminCount(members.rows, h)
  {
    if !IsAdmin(members, actor, g) {
      return Err(Forbidden);
    }
    if target.None? {
      return Err(NotFound);
    }
    var u := target.value;
    var prior := PriorRow(members.rows, g, u);
    if prior.Some? {
      var i := prior.value;
      if members.rows[i].active {
        return Err(BadRequest);
      }
      var row := members.rows[i].(active := true);
      ghost var before := members.rows;
      members.Save(i, row);
      r := Ok(row);
      forall h ensures AdminCount(before, h) <= AdminCount(members.rows, h) {
        AdminCountUpdate(before, i, row, h);
      }
      assert ActiveIn(members.rows[i], u, g);
    } else {
      var row := MemberRow(members.nextId, g, u, role.GetOr(Member), true);
      ghost var before := members.rows;
      members.Insert(row);
      r := Ok(row);
      forall h ensures AdminCount(before, h) <= AdminCount(members.rows, h) {
        CountAppend(before, row, (x: MemberRow) => AdminOf(x, h));
      }
      assert ActiveIn(members.rows[|before|], u, g);
    }
  }

  /** updateRole: admin only; the member row must exist in the group; an
      admin cannot change their own role; otherwise only that row's role changes. */
  method UpdateRole(members: Table<MemberRow>, actor: nat, g: nat, memberId: nat, newRole: Role)
    returns (r: Result<MemberRow>)
    modifies members
    ensures !old(IsAdmin(members, actor, g)) ==> r == Err(Forbidden) && unchanged(members)
    ensures old(IsAdmin(members, actor, g)) ==>
              match RowById(old(members.rows), memberId, g)
              case None => r == Err(NotFound) && unchanged(members)
              case Some(i) =>
                if old(members.rows[i].userId) == actor then r == Err(BadRequest) && unchanged(members)
                else r == Ok(old(members.rows[i]).(role := newRole))
                     && members.rows == old(members.rows)[i := r.value] && members.nextId == old(members.nextId)
    ensures old(IsAdmin(members, actor, g)) ==> IsAdmin(members, actor, g)
    ensures AdminCount(old(members.rows), g) >= 1 ==> AdminCount(members.rows, g) >= 1
    ensures forall h :: h != g ==> AdminCount(members.rows, h) == AdminCount(old(members.rows), h)
  {
    if !IsAdmin(members, actor, g) {
      return Err(Forbidden);
    }
    var found := RowById(members.rows, memberId, g);
    if found.None? {
      return Err(NotFound);
    }
    var i := found.value;
    if members.rows[i].userId == actor {
      return Err(BadRequest);
    }
    var row := members.rows[i].(role := newRole);
    ghost var before := members.rows;
    OtherRowKeepsAdmin(before, i, row, actor, g);
    members.Save(i, row);
    r := Ok(row);
    forall h | h != g ensures AdminCount(members.rows, h) == AdminCount(before, h) {
      AdminCountUpdate(before, i, row, h);
    }
  }

  /** removeMember: admin only; the member row must exist in the group; an
      admin removing their own row is refused while the group has at most one
      active admin; otherwise exactly that row is deactivated. */
  method RemoveMember(members: Table<MemberRow>, actor: nat, g: nat, memberId: nat) returns (s: Status)
    modifies members
    ensures !old(IsAdmin(members, actor, g)) ==> s == Failed(Forbidden) && unchanged(members)
    ensures old(IsAdmin(members, actor, g)) ==>
              match RowById(old(members.rows), memberId, g)
              case None => s == Failed(NotFound) && unchanged(members)
              case Some(i) =>
                if old(members.rows[i].userId) == actor && AdminCount(old(members.rows), g) <= 1
                then s == Failed(BadRequest) && unchanged(members)
                else s == Done && members.nextId == old(members.nextId)
                     && members.rows == old(members.rows)[i := old(members.rows[i]).(active := false)]
    ensures old(IsAdmin(members, actor, g)) ==> AdminCount(members.rows, g) >= 1
    ensures forall h :: h != g ==> AdminCount(members.rows, h) == AdminCount(old(members.rows), h)
  {
    if !IsAdmin(members, actor, g) {
      return Failed(Forbidden);
    }
    ghost var j :| 0 <= j < |members.rows| && ActiveAdminIn(members.rows[j], actor, g);
    AdminRowCounts(members.rows, actor, g, j);
    var found := RowById(members.rows, memberId, g);
    if found.None? {
      return Failed(NotFound);
    }
    var i := found.value;
    if members.rows[i].userId == actor && AdminCount(members.rows, g) <= 1 {
      return Failed(BadRequest);
    }
    ghost var before := members.rows;
    var row := members.rows[i].(active := false);
    if before[i].userId != actor {
      OtherRowKeepsAdmin(before, i, row, actor, g);
    }
    DeactivateAdminCount(before, i, g);
    members.Save(i, row);
    forall h | h != g ensures AdminCount(members.rows, h) == AdminCount(before, h) {
      DeactivateAdminCount(before, i, h);
    }
    s := Done;
  }

  /** leaveGroup: the user's active row must exist; an admin row is refused
      while the group has at most one active admin; otherwise exactly that row
      is deactivated. */
  method LeaveGroup(members: Table<MemberRow>, u: nat, g: nat) returns (s: Status)
    modifies members
    ensures match ActiveRow(old(members.rows), u, g)
            case None => s == Failed(NotFound) && unchanged(members)
            case Some(i) =>
              if old(members.rows[i].role) == Admin && AdminCount(old(members.rows), g) <= 1
              then s == Failed(BadRequest) && unchanged(members)
              else s == Done && members.nextId == old(members.nextId)
                   && members.rows == old(members.rows)[i := old(members.rows[i]).(active := false)]
    ensures s == Done ==> old(IsMember(members, u, g))
    ensures AdminCount(old(members.rows), g) >= 1 ==> AdminCount(members.rows, g) >= 1
    ensures forall h :: h != g ==> AdminCount(members.rows, h) == AdminCount(old(members.rows), h)
  {
    var found := ActiveRow(members.rows, u, g);
    if found.None? {
      return Failed(NotFound);
    }
    var i := found.value;
    if members.rows[i].role == Admin && AdminCount(members.rows, g) <= 1 {
      return Failed(BadRequest);
    }
    ghost var before := members.rows;
    assert ActiveIn(before[i], u, g);
    var row := members.rows[i].(active := false);
    DeactivateAdminCount(before, i, g);
    members.Save(i, row);
    forall h | h != g ensures AdminCount(members.rows, h) == AdminCount(before, h) {
      DeactivateAdminCount(before, i, h);
    }
    s := Done;
  }
}
