/**
 What every access-control request keeps, whatever the catalogue: the keys and references of the tables, and that the
 role name a user carries resolves to exactly one role of the user's company.
 */
module AccessInvariants {
  import opened Prelude
  import opened AccessControl

  ghost predicate IdsBelow(db: Db) {
    && (forall i <- db.roles :: i < db.nextId)
    && (forall i <- db.perms :: i < db.nextId)
    && (forall i <- db.users :: i < db.nextId)
  }

  ghost predicate OwnedAt(db: Db, i: Id)
    requires i in db.perms
  {
    db.perms[i].roleId in db.roles && db.roles[db.perms[i].roleId].companyId == db.perms[i].companyId
  }

  /** Every grant belongs to a role of its own company. */
  ghost predicate GrantsOwned(db: Db) {
    forall i <- db.perms :: OwnedAt(db, i)
  }

  predicate IsGrant(db: Db, roleId: Id, k: Key, i: Id) {
    i in db.perms && db.perms[i].roleId == roleId && db.perms[i].key == k
  }

  /** uq_permission_role_resource_action. */
  ghost predicate GrantsUnique(db: Db) {
    forall i, j :: i in db.perms && j in db.perms && IsGrant(db, db.perms[i].roleId, db.perms[i].key, j) ==> i == j
  }

  /** uq_role_company_name. */
  ghost predicate NamesUnique(db: Db) {
    forall i, j :: i in db.roles && j in db.roles && IsNamed(db, db.roles[i].companyId, db.roles[i].name, j) ==> i == j
  }

  ghost predicate Resolves(db: Db, u: User) {
    exists r :: r in db.roles && IsNamed(db, u.companyId, u.roleName, r)
  }

  ghost predicate UsersResolve(db: Db) {
    forall u <- db.users :: Resolves(db, db.users[u])
  }

  ghost predicate Inv(db: Db) {
    IdsBelow(db) && GrantsOwned(db) && GrantsUnique(db) && NamesUnique(db) && UsersResolve(db)
  }

  /** What the database constraints and the invariant ask of one change. */
  ghost predicate Fits(db: Db, w: Change) {
    match w
    case SaveRole(id, role, _) =>
      && (forall i :: i in db.roles && IsNamed(db, role.companyId, role.name, i) ==> i == id)
      && (id in db.roles ==> db.roles[id].companyId == role.companyId)
    case DropRole(id) =>
      && (forall i <- db.perms :: db.perms[i].roleId != id)
      && (id in db.roles ==> !HasUsers(db, db.roles[id].companyId, db.roles[id].name))
    case AddGrant(p, _) =>
      && p.roleId in db.roles && db.roles[p.roleId].companyId == p.companyId
      && (forall i <- db.perms :: !IsGrant(db, p.roleId, p.key, i))
    case SaveUser(_, u) => Resolves(db, u)
    case _ => true
  }

  lemma ApplyKeepsIds(db: Db, w: Change)
    requires IdsBelow(db)
    ensures IdsBelow(Apply(db, w))
  {
  }

  lemma ApplyKeepsOwners(db: Db, w: Change)
    requires GrantsOwned(db) && Fits(db, w)
    ensures GrantsOwned(Apply(db, w))
  {
    var db' := Apply(db, w);
    forall i | i in db'.perms ensures OwnedAt(db', i) {
      if i in db.perms { assert OwnedAt(db, i); }
    }
  }

  lemma ApplyKeepsGrantsUnique(db: Db, w: Change)
    requires IdsBelow(db) && GrantsUnique(db) && Fits(db, w)
    ensures GrantsUnique(Apply(db, w))
  {
    var db' := Apply(db, w);
    forall i, j | i in db'.perms && j in db'.perms && IsGrant(db', db'.perms[i].roleId, db'.perms[i].key, j)
      ensures i == j
    {
      if w.AddGrant? {
        assert i in db.perms ==> !IsGrant(db, w.grant.roleId, w.grant.key, i);
        assert j in db.perms ==> !IsGrant(db, w.grant.roleId, w.grant.key, j);
      }
      if i in db.perms && j in db.perms {
        assert IsGrant(db, db.perms[i].roleId, db.perms[i].key, j);
      }
    }
  }

  lemma ApplyKeepsNames(db: Db, w: Change)
    requires NamesUnique(db) && Fits(db, w)
    ensures NamesUnique(Apply(db, w))
  {
    var db' := Apply(db, w);
    forall i, j | i in db'.roles && j in db'.roles && IsNamed(db', db'.roles[i].companyId, db'.roles[i].name, j)
      ensures i == j
    {
      if w.SaveRole? && i == w.id && j != w.id {
        assert IsNamed(db, w.role.companyId, w.role.name, j);
      } else if w.SaveRole? && j == w.id && i != w.id {
        assert IsNamed(db, w.role.companyId, w.role.name, i);
      } else if i != j {
        assert IsNamed(db, db.roles[i].companyId, db.roles[i].name, j);
      }
    }
  }

  /** A user who is not saved still resolves, to a renamed role when that is what the change does. */
  lemma UserKeepsRole(db: Db, w: Change, u: Id)
    requires NamesUnique(db) && UsersResolve(db) && Fits(db, w) && u in db.users && !(w.SaveUser? && u == w.id)
    ensures u in Apply(db, w).users && Resolves(Apply(db, w), Apply(db, w).users[u])
  {
    var db' := Apply(db, w);
    assert Resolves(db, db.users[u]);
    var r :| r in db.roles && IsNamed(db, db.users[u].companyId, db.users[u].roleName, r);
    if w.SaveRole? {
      assert IsNamed(db', db'.users[u].companyId, db'.users[u].roleName, r);
    } else {
      assert w.DropRole? && w.id in db.roles ==> !HasUsers(db, db.roles[w.id].companyId, db.roles[w.id].name);
      assert db'.users[u] == db.users[u] && IsNamed(db', db.users[u].companyId, db.users[u].roleName, r);
    }
  }

  lemma ApplyKeepsUsers(db: Db, w: Change)
    requires NamesUnique(db) && UsersResolve(db) && Fits(db, w)
    ensures UsersResolve(Apply(db, w))
  {
    var db' := Apply(db, w);
    forall u | u in db'.users ensures Resolves(db', db'.users[u]) {
      if u in db.users && !(w.SaveUser? && u == w.id) {
        UserKeepsRole(db, w, u);
      } else {
        var r :| r in db.roles && IsNamed(db, w.user.companyId, w.user.roleName, r);
        assert IsNamed(db', w.user.companyId, w.user.roleName, r);
      }
    }
  }

  lemma ApplyKeepsInv(db: Db, w: Change)
    requires Inv(db) && Fits(db, w)
    ensures Inv(Apply(db, w))
  {
    ApplyKeepsIds(db, w);
    ApplyKeepsOwners(db, w);
    ApplyKeepsGrantsUnique(db, w);
    ApplyKeepsNames(db, w);
    ApplyKeepsUsers(db, w);
  }

  /** Each change fits the store as the changes before it leave it. */
  ghost predicate FitsAll(db: Db, ws: seq<Change>)
    decreases ws
  {
    ws == [] || (Fits(db, ws[0]) && FitsAll(Apply(db, ws[0]), ws[1..]))
  }

  lemma {:induction false} ExecKeepsInv(db: Db, ws: seq<Change>)
    requires Inv(db) && FitsAll(db, ws)
    ensures Inv(Exec(db, ws))
    decreases ws
  {
    if ws != [] {
      ApplyKeepsInv(db, ws[0]);
      ExecKeepsInv(Apply(db, ws[0]), ws[1..]);
    }
  }

  lemma {:induction false} ExecConcat(db: Db, ws: seq<Change>, vs: seq<Change>)
    ensures Exec(db, ws + vs) == Exec(Exec(db, ws), vs)
    ensures FitsAll(db, ws + vs) <==> FitsAll(db, ws) && FitsAll(Exec(db, ws), vs)
    decreases ws
  {
    if ws == [] {
      assert ws + vs == vs;
    } else {
      assert (ws + vs)[0] == ws[0] && (ws + vs)[1..] == ws[1..] + vs;
      ExecConcat(Apply(db, ws[0]), ws[1..], vs);
    }
  }

  lemma ExecOne(db: Db, w: Change)
    ensures Exec(db, [w]) == Apply(db, w)
    ensures FitsAll(db, [w]) <==> Fits(db, w)
  {
    assert [w][1..] == [];
  }

  lemma ExecThree(db: Db, rs: seq<Change>, us: seq<Change>, w: Change)
    ensures Exec(db, rs + us + [w]) == Apply(Exec(Exec(db, rs), us), w)
  {
    ExecConcat(db, rs, us);
    ExecConcat(db, rs + us, [w]);
    ExecOne(Exec(db, rs + us), w);
  }

  // ---- every plan fits ----------------------------------------------------------------------------------------------

  predicate GrantChange(w: Change) { w.AddGrant? || w.SetGrant? || w.DropGrant? || w.DropGrantsOf? }

  predicate GrantChanges(ws: seq<Change>) { forall i :: 0 <= i < |ws| ==> GrantChange(ws[i]) }

  lemma {:induction false} GrantChangesLeaveRoles(db: Db, ws: seq<Change>)
    requires GrantChanges(ws)
    ensures Exec(db, ws).roles == db.roles && Exec(db, ws).users == db.users
    decreases ws
  {
    if ws != [] { GrantChangesLeaveRoles(Apply(db, ws[0]), ws[1..]); }
  }

  /** No grant of the role has one of the listed keys. */
  predicate Vacant(db: Db, roleId: Id, k: Key) {
    forall i <- db.perms :: !IsGrant(db, roleId, k, i)
  }

  predicate OwnRole(db: Db, roleId: Id, companyId: Id) {
    roleId in db.roles && db.roles[roleId].companyId == companyId
  }

  lemma VacantAfterAdd(db: Db, g: Permission, audited: bool, k: Key)
    requires Vacant(db, g.roleId, k) && k != g.key
    ensures Vacant(Apply(db, AddGrant(g, audited)), g.roleId, k)
  {
    var db' := Apply(db, AddGrant(g, audited));
    forall i | i in db'.perms ensures !IsGrant(db', g.roleId, k, i) {
      if i != db.nextId { assert !IsGrant(db, g.roleId, k, i); }
    }
  }

  lemma {:induction false} AdditionsFit(db: Db, roleId: Id, companyId: Id, ps: seq<GrantInput>, audited: bool)
    requires OwnRole(db, roleId, companyId) && DistinctKeys(ps)
    requires forall j :: 0 <= j < |ps| ==> Vacant(db, roleId, ps[j].key)
    ensures FitsAll(db, Additions(roleId, companyId, ps, audited))
            && GrantChanges(Additions(roleId, companyId, ps, audited))
    decreases ps
  {
    if ps != [] {
      var w := AddGrant(NewGrant(roleId, companyId, ps[0]), audited);
      assert Vacant(db, roleId, ps[0].key);
      forall j | 0 <= j < |ps[1..]| ensures Vacant(Apply(db, w), roleId, ps[1..][j].key) {
        assert ps[1..][j] == ps[j + 1];
        VacantAfterAdd(db, w.grant, audited, ps[j + 1].key);
      }
      AdditionsFit(Apply(db, w), roleId, companyId, ps[1..], audited);
    }
  }

  lemma {:induction false} NoGrantError(ps: seq<GrantInput>, i: nat)
    requires i <= |ps| && FirstGrantError(ps, i).None?
    ensures forall j :: i <= j < |ps| ==> Acceptable(ps[j].limit) && !HasKey(ps[..j], ps[j].key)
    decreases |ps| - i
  {
    if i < |ps| { NoGrantError(ps, i + 1); }
  }

  lemma NoGrantErrorMeansDistinct(ps: seq<GrantInput>)
    requires FirstGrantError(ps, 0).None?
    ensures DistinctKeys(ps)
  {
    NoGrantError(ps, 0);
    forall i, j | 0 <= i < j < |ps| ensures ps[i].key != ps[j].key {
      assert ps[..j][i] == ps[i] && !HasKey(ps[..j], ps[j].key);
    }
  }

  lemma CreateRoleFits(db: Db, cat: Catalogue, co: Id, name: string, limit: LimitInput, unscoped: bool,
          ps: seq<GrantInput>)
    requires Inv(db)
    ensures (var plan := CreateRole(db, cat, co, name, limit, unscoped, ps); plan.Ok? ==> FitsAll(db, plan.value))
  {
    var plan := CreateRole(db, cat, co, name, limit, unscoped, ps);
    if plan.Ok? {
      var w := plan.value[0];
      var db1 := Apply(db, w);
      assert FindRoleByName(db, co, name).None?;
      assert forall i :: i in db.roles ==> i < db.nextId && !IsNamed(db, co, name, i);
      NoGrantErrorMeansDistinct(ps);
      forall j | 0 <= j < |ps| ensures Vacant(db1, db.nextId, ps[j].key) {
        forall i | i in db1.perms ensures !IsGrant(db1, db.nextId, ps[j].key, i) { assert OwnedAt(db, i); }
      }
      AdditionsFit(db1, db.nextId, co, ps, false);
      assert plan.value[1..] == Additions(db.nextId, co, ps, false);
    }
  }

  lemma SaveRoleFits(db: Db, id: Id, role: Role, note: RoleNote)
    requires IdsBelow(db) && NamesUnique(db) && id in db.roles && role.companyId == db.roles[id].companyId
    requires role.name != db.roles[id].name ==> FindRoleByName(db, role.companyId, role.name).None?
    ensures Fits(db, SaveRole(id, role, note))
  {
    forall i | i in db.roles && IsNamed(db, role.companyId, role.name, i) ensures i == id {
      assert i < db.nextId;
      if role.name == db.roles[id].name {
        assert IsNamed(db, db.roles[id].companyId, db.roles[id].name, i);
      }
    }
  }

  lemma DeleteRoleFits(db: Db, id: Id, co: Id)
    requires Inv(db)
    ensures (var plan := DeleteRole(db, id, co); plan.Ok? ==> FitsAll(db, plan.value))
  {
    var plan := DeleteRole(db, id, co);
    if plan.Ok? {
      var db1 := Apply(db, plan.value[0]);
      forall i | i in db1.perms ensures db1.perms[i].roleId != id {
        assert i in db.perms && !IsGrantOf(db, id, co, i) && OwnedAt(db, i);
      }
      var name := db.roles[id].name;
      assert HasUsers(db1, co, name) == HasUsers(db, co, name);
      assert plan.value == [plan.value[0]] + [plan.value[1]];
      ExecOne(db, plan.value[0]);
      ExecOne(db1, plan.value[1]);
      ExecConcat(db, [plan.value[0]], [plan.value[1]]);
    }
  }

  lemma {:induction false} RevocationsFit(db: Db, db0: Db, ids: seq<Id>, ps: seq<GrantInput>)
    requires forall i <- ids :: i in db0.perms
    ensures FitsAll(db, Revocations(db0, ids, ps)) && GrantChanges(Revocations(db0, ids, ps))
    decreases ids
  {
    if ids != [] {
      if HasKey(ps, db0.perms[ids[0]].key) {
        RevocationsFit(db, db0, ids[1..], ps);
        assert Revocations(db0, ids, ps) == Revocations(db0, ids[1..], ps);
      } else {
        var w := DropGrant(ids[0], false);
        RevocationsFit(Apply(db, w), db0, ids[1..], ps);
        assert Revocations(db0, ids, ps)[1..] == Revocations(db0, ids[1..], ps);
      }
    }
  }

  lemma {:induction false} DropsFit(db: Db, ids: seq<Id>)
    ensures FitsAll(db, Drops(ids)) && GrantChanges(Drops(ids))
    decreases ids
  {
    if ids != [] { DropsFit(Apply(db, DropGrant(ids[0], true)), ids[1..]); }
  }

  /** Keys that had no grant to begin with still have none. */
  ghost predicate NewKeysVacant(db: Db, current: map<Key, Id>, roleId: Id, ps: seq<GrantInput>) {
    forall j :: 0 <= j < |ps| && ps[j].key !in current ==> Vacant(db, roleId, ps[j].key)
  }

  lemma VacantAfterSet(db: Db, id: Id, scope: Option<Scope>, limit: Option<Option<nat>>, version: nat, roleId: Id,
          k: Key)
    requires Vacant(db, roleId, k)
    ensures Vacant(Apply(db, SetGrant(id, scope, limit, version)), roleId, k)
  {
    var db' := Apply(db, SetGrant(id, scope, limit, version));
    forall i | i in db'.perms ensures !IsGrant(db', roleId, k, i) { assert !IsGrant(db, roleId, k, i); }
  }

  lemma UpsertFits(db: Db, db0: Db, current: map<Key, Id>, roleId: Id, companyId: Id, ps: seq<GrantInput>)
    requires forall k <- current :: current[k] in db0.perms
    requires OwnRole(db, roleId, companyId) && DistinctKeys(ps) && ps != [] && NewKeysVacant(db, current, roleId, ps)
    ensures (var ws := Upsert(db0, current, roleId, companyId, ps[0]);
             FitsAll(db, ws) && GrantChanges(ws) && OwnRole(Exec(db, ws), roleId, companyId)
                 && NewKeysVacant(Exec(db, ws), current, roleId, ps[1..]))
  {
    var ws := Upsert(db0, current, roleId, companyId, ps[0]);
    if ws != [] {
      ExecOne(db, ws[0]);
      forall j | 0 <= j < |ps[1..]| && ps[1..][j].key !in current
        ensures Vacant(Apply(db, ws[0]), roleId, ps[1..][j].key)
      {
        assert ps[1..][j] == ps[j + 1] && Vacant(db, roleId, ps[j + 1].key);
        if ws[0].AddGrant? {
          VacantAfterAdd(db, ws[0].grant, ws[0].audited, ps[j + 1].key);
        } else {
          VacantAfterSet(db, ws[0].id, ws[0].scope, ws[0].limit, ws[0].version, roleId, ps[j + 1].key);
        }
      }
    } else {
      forall j | 0 <= j < |ps[1..]| && ps[1..][j].key !in current ensures Vacant(db, roleId, ps[1..][j].key) {
        assert ps[1..][j] == ps[j + 1];
      }
    }
  }

  lemma {:induction false} UpsertsFit(db: Db, db0: Db, current: map<Key, Id>, roleId: Id, companyId: Id,
          ps: seq<GrantInput>)
    requires forall k <- current :: current[k] in db0.perms
    requires OwnRole(db, roleId, companyId) && DistinctKeys(ps) && NewKeysVacant(db, current, roleId, ps)
    ensures FitsAll(db, Upserts(db0, current, roleId, companyId, ps))
            && GrantChanges(Upserts(db0, current, roleId, companyId, ps))
    decreases ps
  {
    if ps != [] {
      var ws := Upsert(db0, current, roleId, companyId, ps[0]);
      UpsertFits(db, db0, current, roleId, companyId, ps);
      UpsertsFit(Exec(db, ws), db0, current, roleId, companyId, ps[1..]);
      ExecConcat(db, ws, Upserts(db0, current, roleId, companyId, ps[1..]));
    }
  }

  lemma RevocationsKeepVacant(db: Db, db0: Db, ids: seq<Id>, ps: seq<GrantInput>, roleId: Id, k: Key)
    requires forall i <- ids :: i in db0.perms
    requires Vacant(db, roleId, k)
    ensures Vacant(Exec(db, Revocations(db0, ids, ps)), roleId, k)
    decreases ids
  {
    if ids != [] {
      if HasKey(ps, db0.perms[ids[0]].key) {
        RevocationsKeepVacant(db, db0, ids[1..], ps, roleId, k);
        assert Revocations(db0, ids, ps) == Revocations(db0, ids[1..], ps);
      } else {
        var w := DropGrant(ids[0], false);
        forall i | i in Apply(db, w).perms
          ensures !IsGrant(Apply(db, w), roleId, k, i) { assert !IsGrant(db, roleId, k, i); }
        RevocationsKeepVacant(Apply(db, w), db0, ids[1..], ps, roleId, k);
        assert Revocations(db0, ids, ps)[1..] == Revocations(db0, ids[1..], ps);
      }
    }
  }

  /** A key that no current row of the role has is vacant. */
  lemma NoCurrentMeansVacant(db: Db, id: Id, co: Id, k: Key)
    requires IdsBelow(db) && GrantsOwned(db) && OwnRole(db, id, co)
    requires k !in CurrentByKey(db, GrantIds(db, id, co))
    ensures Vacant(db, id, k)
  {
    var ids := GrantIds(db, id, co);
    CurrentFacts(db, ids);
    forall i | i in db.perms ensures !IsGrant(db, id, k, i) {
      assert OwnedAt(db, i) && i < db.nextId;
      if db.perms[i].roleId == id { assert IsGrantOf(db, id, co, i) && i in ids; }
    }
  }

  /** The three parts of a batch replace. */
  function BatchWrites(db: Db, id: Id, co: Id, ps: seq<GrantInput>): seq<Change>
    requires OwnRole(db, id, co)
  {
    var ids := GrantIds(db, id, co);
    CurrentFacts(db, ids);
    Revocations(db, ids, ps) + Upserts(db, CurrentByKey(db, ids), id, co, ps)
    + [SaveRole(id, db.roles[id].(version := db.roles[id].version + 1), NoRow)]
  }

  /** What acceptance of a batch means. */
  lemma AcceptedBatch(db: Db, cat: Catalogue, id: Id, co: Id, version: nat, ps: seq<GrantInput>)
    ensures ReplacePermissions(db, cat, id, co, version, ps).Ok? ==>
              && OwnRole(db, id, co) && db.roles[id].version == version && ValidPayload(cat, ps)
              && !(IsAdminSuperuser(db.roles[id]) && LosesGround(db, cat, GrantIds(db, id, co), ps))
              && ReplacePermissions(db, cat, id, co, version, ps).value == BatchWrites(db, id, co, ps)
  {
  }

  lemma RevocationsPrepare(db: Db, id: Id, co: Id, ps: seq<GrantInput>)
    requires Inv(db) && OwnRole(db, id, co)
    ensures (var db1 := Exec(db, Revocations(db, GrantIds(db, id, co), ps));
             && FitsAll(db, Revocations(db, GrantIds(db, id, co), ps))
             && db1.roles == db.roles && NewKeysVacant(db1, CurrentByKey(db, GrantIds(db, id, co)), id, ps))
  {
    var ids := GrantIds(db, id, co);
    var current := CurrentByKey(db, ids);
    var rs := Revocations(db, ids, ps);
    RevocationsFit(db, db, ids, ps);
    GrantChangesLeaveRoles(db, rs);
    forall j | 0 <= j < |ps| && ps[j].key !in current ensures Vacant(Exec(db, rs), id, ps[j].key) {
      NoCurrentMeansVacant(db, id, co, ps[j].key);
      RevocationsKeepVacant(db, db, ids, ps, id, ps[j].key);
    }
  }

  lemma FitsThree(db: Db, rs: seq<Change>, us: seq<Change>, w: Change)
    requires FitsAll(db, rs) && FitsAll(Exec(db, rs), us) && Fits(Exec(Exec(db, rs), us), w)
    ensures FitsAll(db, rs + us + [w])
  {
    ExecConcat(db, rs, us);
    ExecOne(Exec(db, rs + us), w);
    ExecConcat(db, rs + us, [w]);
  }

  lemma BatchFits(db: Db, id: Id, co: Id, ps: seq<GrantInput>)
    requires Inv(db) && OwnRole(db, id, co) && DistinctKeys(ps)
    ensures FitsAll(db, BatchWrites(db, id, co, ps))
  {
    var ids := GrantIds(db, id, co);
    var current := CurrentByKey(db, ids);
    CurrentFacts(db, ids);
    var rs, us := Revocations(db, ids, ps), Upserts(db, current, id, co, ps);
    var role := db.roles[id].(version := db.roles[id].version + 1);
    RevocationsPrepare(db, id, co, ps);
    var db1 := Exec(db, rs);
    UpsertsFit(db1, db, current, id, co, ps);
    GrantChangesLeaveRoles(db1, us);
    ExecKeepsInv(db, rs);
    ExecKeepsInv(db1, us);
    SaveRoleFits(Exec(db1, us), id, role, NoRow);
    FitsThree(db, rs, us, SaveRole(id, role, NoRow));
    assert BatchWrites(db, id, co, ps) == rs + us + [SaveRole(id, role, NoRow)];
  }

  lemma ReplaceFits(db: Db, cat: Catalogue, id: Id, co: Id, version: nat, ps: seq<GrantInput>)
    requires Inv(db)
    ensures (var plan := ReplacePermissions(db, cat, id, co, version, ps); plan.Ok? ==> FitsAll(db, plan.value))
  {
    AcceptedBatch(db, cat, id, co, version, ps);
    if ReplacePermissions(db, cat, id, co, version, ps).Ok? { BatchFits(db, id, co, ps); }
  }

  lemma SeedRoleFits(db: Db, co: Id, seed: RoleSeed)
    requires Inv(db)
    ensures (var w := SeedRole(db, co, seed); Fits(db, w) && w.SaveRole? && OwnRole(Apply(db, w), w.id, co))
  {
    var found := FindRoleByName(db, co, seed.name);
    if found.Some? {
      var role := db.roles[found.value];
      SaveRoleFits(db, found.value,
                   role.(isSystem := true, isUnscoped := seed.isUnscoped, approvalLimit := seed.approvalLimit), NoRow);
    } else {
      assert forall i :: i in db.roles ==> i < db.nextId && !IsNamed(db, co, seed.name, i);
    }
  }

  lemma {:induction false} SeedGrantsFit(db: Db, roleId: Id, co: Id, scope: Scope, keys: seq<Key>)
    requires OwnRole(db, roleId, co)
    ensures FitsAll(db, SeedGrants(db, roleId, co, scope, keys))
            && GrantChanges(SeedGrants(db, roleId, co, scope, keys))
    decreases keys
  {
    if keys != [] {
      if exists i :: i in db.perms && db.perms[i].roleId == roleId && db.perms[i].key == keys[0] {
        SeedGrantsFit(db, roleId, co, scope, keys[1..]);
      } else {
        var w := AddGrant(Permission(roleId, co, keys[0], scope, None, 1), false);
        SeedGrantsFit(Apply(db, w), roleId, co, scope, keys[1..]);
        assert SeedGrants(db, roleId, co, scope, keys)[1..] == SeedGrants(Apply(db, w), roleId, co, scope, keys[1..]);
      }
    }
  }

  lemma {:induction false} SeedAllFits(db: Db, co: Id, seeds: seq<RoleSeed>)
    requires Inv(db)
    ensures FitsAll(db, SeedAll(db, co, seeds))
    decreases seeds
  {
    if seeds != [] {
      var w := SeedRole(db, co, seeds[0]);
      var db1 := Apply(db, w);
      SeedRoleFits(db, co, seeds[0]);
      ApplyKeepsInv(db, w);
      var gs := SeedGrants(db1, w.id, co, seeds[0].scope, seeds[0].grants);
      SeedGrantsFit(db1, w.id, co, seeds[0].scope, seeds[0].grants);
      ExecKeepsInv(db1, gs);
      var rest := SeedAll(Exec(db1, gs), co, seeds[1..]);
      SeedAllFits(Exec(db1, gs), co, seeds[1..]);
      ExecOne(db, w);
      ExecConcat(db, [w], gs);
      ExecConcat(db, [w] + gs, rest);
    }
  }

  lemma CreatePermissionFits(db: Db, cat: Catalogue, co: Id, roleId: Id, p: GrantInput)
    requires Inv(db)
    ensures (var plan := CreatePermission(db, cat, co, roleId, p); plan.Ok? ==> FitsAll(db, plan.value))
  {
    var plan := CreatePermission(db, cat, co, roleId, p);
    if plan.Ok? {
      forall i | i in db.perms ensures !IsGrant(db, roleId, p.key, i) {
        assert OwnedAt(db, i);
        assert IsGrant(db, roleId, p.key, i) ==> IsGrantOf(db, roleId, co, i);
      }
      ExecOne(db, plan.value[0]);
    }
  }

  lemma UserPlansFit(db: Db, cat: Catalogue, r: Request)
    requires UsersResolve(db) && (r.CreateUserRequest? || r.PatchUserRequest?)
    ensures (var plan := Plan(db, cat, r); plan.Ok? ==> FitsAll(db, plan.value))
  {
    var plan := Plan(db, cat, r);
    if plan.Ok? {
      if r.CreateUserRequest? {
        assert IsNamed(db, r.companyId, db.roles[r.roleId].name, r.roleId);
      } else {
        assert Resolves(db, db.users[r.userId]);
        assert r.newRole.Some? && FindRole(db, r.newRole.value, r.companyId).Some? ==>
            IsNamed(db, r.companyId, db.roles[r.newRole.value].name, r.newRole.value);
      }
      ExecOne(db, plan.value[0]);
    }
  }

  /** Whatever a request plans respects the keys and references of the tables. */
  lemma PlanFits(db: Db, cat: Catalogue, r: Request)
    requires Inv(db)
    ensures (var plan := Plan(db, cat, r); plan.Ok? ==> FitsAll(db, plan.value))
  {
    match r
    case CreateRoleRequest(co, name, limit, unscoped, ps) => CreateRoleFits(db, cat, co, name, limit, unscoped, ps);
    case PatchRoleRequest(co, id, name, limit, unscoped, version) =>
      var plan := Plan(db, cat, r);
      if plan.Ok? {
        SaveRoleFits(db, id, plan.value[0].role, plan.value[0].note);
        ExecOne(db, plan.value[0]);
      }
    case DeleteRoleRequest(co, id) => DeleteRoleFits(db, id, co);
    case ReplaceRequest(co, id, version, ps) => ReplaceFits(db, cat, id, co, version, ps);
    case CreatePermissionRequest(co, roleId, p) => CreatePermissionFits(db, cat, co, roleId, p);
    case CreateUserRequest(_, _) => UserPlansFit(db, cat, r);
    case PatchUserRequest(_, _, _, _) => UserPlansFit(db, cat, r);
    case SweepRequest(co) => DropsFit(db, OrphanIds(db, cat, co));
    case SeedRequest(co, seeds) => SeedAllFits(db, co, seeds);
    case _ =>
      var plan := Plan(db, cat, r);
      if plan.Ok? { ExecOne(db, plan.value[0]); }
  }

  lemma StepKeepsInv(db: Db, cat: Catalogue, r: Request)
    requires Inv(db)
    ensures Inv(Step(db, cat, r))
  {
    PlanFits(db, cat, r);
    if Plan(db, cat, r).Ok? { ExecKeepsInv(db, Plan(db, cat, r).value); }
  }

  /**
   Every run of role, grant and user requests, sweeps and re-seeds, under changing catalogues, keeps the references and
   unique keys of the tables and a resolvable role name for every user - although users refer to roles by name.
   */
  lemma {:induction false} RunKeepsInv(db: Db, cs: seq<Call>)
    requires Inv(db)
    ensures Inv(Run(db, cs))
    decreases cs
  {
    if cs != [] {
      StepKeepsInv(db, cs[0].cat, cs[0].request);
      RunKeepsInv(Step(db, cs[0].cat, cs[0].request), cs[1..]);
    }
  }
}
