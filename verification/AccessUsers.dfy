/** Users carry role names; what they resolve to is a role id, and only an edit of the user changes it. */
module AccessUsers {
  import opened Prelude
  import opened AccessControl
  import opened AccessInvariants

  /** The user's role name is that of role r of the user's company. */
  predicate ResolvesTo(db: Db, u: Id, r: Id) {
    u in db.users && IsNamed(db, db.users[u].companyId, db.users[u].roleName, r)
  }

  predicate LeavesUser(ws: seq<Change>, u: Id) {
    forall i :: 0 <= i < |ws| && ws[i].SaveUser? ==> ws[i].id != u
  }

  lemma ApplyKeepsResolution(db: Db, w: Change, u: Id, r: Id)
    requires Inv(db) && Fits(db, w) && ResolvesTo(db, u, r) && !(w.SaveUser? && w.id == u)
    ensures ResolvesTo(Apply(db, w), u, r)
  {
    assert w.DropRole? && w.id in db.roles ==> !HasUsers(db, db.roles[w.id].companyId, db.roles[w.id].name);
    if w.SaveRole? && w.id in db.roles {
      assert IsNamed(db, db.roles[r].companyId, db.roles[r].name, w.id) ==> w.id == r;
    }
  }

  lemma {:induction false} ExecKeepsResolution(db: Db, ws: seq<Change>, u: Id, r: Id)
    requires Inv(db) && FitsAll(db, ws) && ResolvesTo(db, u, r) && LeavesUser(ws, u)
    ensures ResolvesTo(Exec(db, ws), u, r)
    decreases ws
  {
    if ws != [] {
      ApplyKeepsResolution(db, ws[0], u, r);
      ApplyKeepsInv(db, ws[0]);
      ExecKeepsResolution(Apply(db, ws[0]), ws[1..], u, r);
    }
  }

  lemma {:induction false} AdditionsLeave(roleId: Id, co: Id, ps: seq<GrantInput>, u: Id)
    ensures LeavesUser(Additions(roleId, co, ps, false), u)
  {
    if ps != [] { AdditionsLeave(roleId, co, ps[1..], u); }
  }

  lemma {:induction false} UpsertsLeave(db: Db, current: map<Key, Id>, roleId: Id, co: Id, ps: seq<GrantInput>, u: Id)
    requires forall k <- current :: current[k] in db.perms
    ensures LeavesUser(Upserts(db, current, roleId, co, ps), u)
  {
    if ps != [] { UpsertsLeave(db, current, roleId, co, ps[1..], u); }
  }

  lemma {:induction false} SeedsLeave(db: Db, co: Id, seeds: seq<RoleSeed>, u: Id)
    requires Inv(db)
    ensures LeavesUser(SeedAll(db, co, seeds), u)
    decreases seeds
  {
    if seeds != [] {
      var w := SeedRole(db, co, seeds[0]);
      var db1 := Apply(db, w);
      SeedRoleFits(db, co, seeds[0]);
      ApplyKeepsInv(db, w);
      var gs := SeedGrants(db1, w.id, co, seeds[0].scope, seeds[0].grants);
      SeedGrantsFit(db1, w.id, co, seeds[0].scope, seeds[0].grants);
      ExecKeepsInv(db1, gs);
      SeedsLeave(Exec(db1, gs), co, seeds[1..], u);
      assert forall i :: 0 <= i < |gs| ==> GrantChange(gs[i]);
    }
  }

  lemma GrantChangesLeaveUser(ws: seq<Change>, u: Id)
    requires GrantChanges(ws)
    ensures LeavesUser(ws, u)
  {
    assert forall i :: 0 <= i < |ws| ==> GrantChange(ws[i]);
  }

  lemma BatchLeaves(db: Db, id: Id, co: Id, ps: seq<GrantInput>, u: Id)
    requires OwnRole(db, id, co)
    ensures LeavesUser(BatchWrites(db, id, co, ps), u)
  {
    var ids := GrantIds(db, id, co);
    CurrentFacts(db, ids);
    RevocationsFit(db, db, ids, ps);
    var rs, us := Revocations(db, ids, ps), Upserts(db, CurrentByKey(db, ids), id, co, ps);
    GrantChangesLeaveUser(rs, u);
    UpsertsLeave(db, CurrentByKey(db, ids), id, co, ps, u);
    LeavesConcat(rs, us, u);
    LeavesConcat(rs + us, [SaveRole(id, db.roles[id].(version := db.roles[id].version + 1), NoRow)], u);
  }

  lemma ReplaceLeaves(db: Db, cat: Catalogue, id: Id, co: Id, version: nat, ps: seq<GrantInput>, u: Id)
    ensures (var plan := ReplacePermissions(db, cat, id, co, version, ps); plan.Ok? ==> LeavesUser(plan.value, u))
  {
    AcceptedBatch(db, cat, id, co, version, ps);
    if ReplacePermissions(db, cat, id, co, version, ps).Ok? { BatchLeaves(db, id, co, ps, u); }
  }

  lemma LeavesConcat(ws: seq<Change>, vs: seq<Change>, u: Id)
    requires LeavesUser(ws, u) && LeavesUser(vs, u)
    ensures LeavesUser(ws + vs, u)
  {
  }

  lemma CreateRoleLeaves(db: Db, cat: Catalogue, co: Id, name: string, limit: LimitInput, unscoped: bool,
          ps: seq<GrantInput>, u: Id)
    ensures (var plan := CreateRole(db, cat, co, name, limit, unscoped, ps); plan.Ok? ==> LeavesUser(plan.value, u))
  {
    AdditionsLeave(db.nextId, co, ps, u);
  }

  /** Only an edit of user u itself saves the row of a user who is already there. */
  lemma PlanLeavesUser(db: Db, cat: Catalogue, q: Request, u: Id)
    requires Inv(db) && u in db.users && !(q.PatchUserRequest? && q.userId == u)
    ensures Plan(db, cat, q).Ok? ==> LeavesUser(Plan(db, cat, q).value, u)
  {
    match q
    case CreateRoleRequest(co, name, limit, unscoped, ps) =>
      CreateRoleLeaves(db, cat, co, name, limit, unscoped, ps, u);
    case ReplaceRequest(co, id, version, ps) => ReplaceLeaves(db, cat, id, co, version, ps, u);
    case SweepRequest(co) =>
      DropsFit(db, OrphanIds(db, cat, co));
      GrantChangesLeaveUser(Drops(OrphanIds(db, cat, co)), u);
    case SeedRequest(co, seeds) => SeedsLeave(db, co, seeds, u);
    case _ =>
  }

  lemma StepKeepsResolution(db: Db, cat: Catalogue, q: Request, u: Id, r: Id)
    requires Inv(db) && ResolvesTo(db, u, r) && !(q.PatchUserRequest? && q.userId == u)
    ensures ResolvesTo(Step(db, cat, q), u, r)
  {
    PlanFits(db, cat, q);
    PlanLeavesUser(db, cat, q, u);
    if Plan(db, cat, q).Ok? { ExecKeepsResolution(db, Plan(db, cat, q).value, u, r); }
  }

  /**
   Over any run in which user u is not edited, u keeps resolving to the same role id, through every rename - so that
   role, being in use, is never deleted - and to no other role.
   */
  lemma {:induction false} RenamesKeepResolution(db: Db, cs: seq<Call>, u: Id, r: Id)
    requires Inv(db) && ResolvesTo(db, u, r)
    requires forall i :: 0 <= i < |cs| ==> !(cs[i].request.PatchUserRequest? && cs[i].request.userId == u)
    ensures ResolvesTo(Run(db, cs), u, r) && r in Run(db, cs).roles
    ensures forall r' :: ResolvesTo(Run(db, cs), u, r') ==> r' == r
    decreases cs
  {
    if cs == [] {
      forall r' | ResolvesTo(db, u, r') ensures r' == r {
        assert IsNamed(db, db.roles[r'].companyId, db.roles[r'].name, r);
      }
    } else {
      StepKeepsResolution(db, cs[0].cat, cs[0].request, u, r);
      StepKeepsInv(db, cs[0].cat, cs[0].request);
      RenamesKeepResolution(Step(db, cs[0].cat, cs[0].request), cs[1..], u, r);
    }
  }

  /** An edit moves the user to the requested role, or nowhere when the company has no such role. */
  lemma PatchUserMoves(db: Db, cat: Catalogue, co: Id, u: Id, newRole: Option<Id>, r: Id)
    requires Inv(db) && ResolvesTo(db, u, r) && db.users[u].companyId == co
    ensures (var db' := Step(db, cat, PatchUserRequest(co, u, newRole, true));
             ResolvesTo(db', u, if newRole.Some? && FindRole(db, newRole.value, co).Some? then newRole.value else r))
  {
    var plan := Plan(db, cat, PatchUserRequest(co, u, newRole, true));
    ExecOne(db, plan.value[0]);
  }
}
