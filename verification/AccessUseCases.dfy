/**
 The use cases as they run: one transaction over the tables, rolled back when the use case throws. Each is proved to
 fail with the error, and to leave the tables in the state, that the plans of AccessControl give.
 */
module AccessUseCases {
  import opened Prelude
  import opened AccessControl
  import opened AccessInvariants
  import opened AccessEdits
  import C = Calendar

  /** None when the request succeeds. */
  function ErrorOf(plan: Result<seq<Change>, Error>): Option<Error> {
    if plan.Err? then Some(plan.error) else None
  }

  /** What a request comes to when it plans at most one change. */
  predicate Plans(db: Db, cat: Catalogue, r: Request, planned: Result<Change, Error>) {
    Plan(db, cat, r) == (if planned.Ok? then Ok([planned.value]) else Err(planned.error))
  }

  lemma StepOfOne(db: Db, cat: Catalogue, r: Request, w: Change)
    requires Plan(db, cat, r) == Ok([w])
    ensures Step(db, cat, r) == Apply(db, w)
  {
    ExecOne(db, w);
  }

  /** One planned change to a role, and what it comes to. */
  lemma RoleSaved(db: Db, cat: Catalogue, r: Request, w: Change)
    requires Inv(db) && r.PatchRoleRequest? && Plan(db, cat, r) == Ok([w])
    ensures Step(db, cat, r) == Apply(db, w) && Inv(Apply(db, w))
    ensures RoleEdited(db, Apply(db, w), r.companyId, r.id, r.newName, r.newLimit, r.newUnscoped, r.version)
  {
    StepOfOne(db, cat, r, w);
    StepKeepsInv(db, cat, r);
    RoleEditIsExact(db, cat, r);
  }

  lemma GrantSaved(db: Db, cat: Catalogue, r: Request, w: Change)
    requires Inv(db) && Plan(db, cat, r) == Ok([w])
    ensures Step(db, cat, r) == Apply(db, w) && Inv(Apply(db, w))
    ensures r.CreatePermissionRequest? ==> GrantCreated(db, Apply(db, w), r.roleId, r.grant)
    ensures r.PatchPermissionRequest? ==> GrantPatched(db, Apply(db, w), r.id, r.scope, r.newLimit, r.version)
    ensures r.DeletePermissionRequest? ==> GrantDeleted(db, Apply(db, w), r.id)
  {
    StepOfOne(db, cat, r, w);
    StepKeepsInv(db, cat, r);
    GrantEditsAreExact(db, cat, r);
  }

  lemma UserWritten(db: Db, cat: Catalogue, r: Request, w: Change)
    requires Inv(db) && Plan(db, cat, r) == Ok([w])
    ensures Step(db, cat, r) == Apply(db, w) && Inv(Apply(db, w))
    ensures r.CreateUserRequest? ==>
              && OwnRole(db, r.roleId, r.companyId)
              && UserSaved(db, Apply(db, w), r.companyId, db.nextId, db.roles[r.roleId].name)
    ensures r.PatchUserRequest? ==>
              && r.userId in db.users
              && UserSaved(db, Apply(db, w), r.companyId, r.userId,
                           NextRoleName(db, r.companyId, r.newRole, db.users[r.userId].roleName))
  {
    StepOfOne(db, cat, r, w);
    StepKeepsInv(db, cat, r);
    UserEditsAreExact(db, cat, r);
  }

  lemma {:induction false} AdditionsSnoc(roleId: Id, co: Id, ps: seq<GrantInput>, p: GrantInput, audited: bool)
    ensures Additions(roleId, co, ps + [p], audited)
            == Additions(roleId, co, ps, audited) + [AddGrant(NewGrant(roleId, co, p), audited)]
  {
    if ps == [] {
      assert ps + [p] == [p] && [p][1..] == [];
    } else {
      assert (ps + [p])[1..] == ps[1..] + [p];
      AdditionsSnoc(roleId, co, ps[1..], p, audited);
    }
  }

  lemma ExecSnoc(db: Db, ws: seq<Change>, vs: seq<Change>, w: Change)
    ensures vs == [w] ==> Exec(db, ws + vs) == Apply(Exec(db, ws), w)
    ensures vs == [] ==> Exec(db, ws + vs) == Exec(db, ws)
  {
    ExecConcat(db, ws, vs);
    ExecOne(Exec(db, ws), w);
  }

  // ---- invariants of the loops ------------------------------------------------------------------------------------

  function CreateWrites(start: Db, w: Change, co: Id, ps: seq<GrantInput>): seq<Change> {
    [w] + Additions(start.nextId, co, ps, false)
  }

  /** The role and its first i grants are saved; the role's rows are those of the first i items. */
  ghost predicate Planted(db: Db, start: Db, w: Change, co: Id, ps: seq<GrantInput>, i: nat)
    requires i <= |ps|
  {
    && db == Exec(start, CreateWrites(start, w, co, ps[..i]))
    && FirstGrantError(ps, 0) == FirstGrantError(ps, i)
    && (forall x :: x in db.perms && db.perms[x].roleId == start.nextId ==> HasKey(ps[..i], db.perms[x].key))
    && (forall m :: 0 <= m < i ==> !Vacant(db, start.nextId, ps[m].key))
  }

  lemma PlantNone(start: Db, w: Change, co: Id, ps: seq<GrantInput>)
    requires Inv(start) && w.SaveRole?
    ensures Planted(Apply(start, w), start, w, co, ps, 0)
  {
    assert ps[..0] == [] && CreateWrites(start, w, co, []) == [w];
    ExecOne(start, w);
    assert forall x :: x in start.perms ==> OwnedAt(start, x);
  }

  lemma PlantOne(db: Db, start: Db, w: Change, co: Id, ps: seq<GrantInput>, i: nat)
    requires i < |ps| && Planted(db, start, w, co, ps, i) && IdsBelow(db)
    requires Acceptable(ps[i].limit) && Vacant(db, start.nextId, ps[i].key)
    ensures Planted(Apply(db, AddGrant(NewGrant(start.nextId, co, ps[i]), false)), start, w, co, ps, i + 1)
  {
    var id := start.nextId;
    var g := AddGrant(NewGrant(id, co, ps[i]), false);
    var db' := Apply(db, g);
    assert ps[..i + 1] == ps[..i] + [ps[i]];
    AdditionsSnoc(id, co, ps[..i], ps[i], false);
    assert CreateWrites(start, w, co, ps[..i + 1]) == CreateWrites(start, w, co, ps[..i]) + [g];
    ExecSnoc(start, CreateWrites(start, w, co, ps[..i]), [g], g);
    assert !HasKey(ps[..i], ps[i].key);
    forall m | 0 <= m < i + 1 ensures !Vacant(db', id, ps[m].key) {
      if m == i {
        assert IsGrant(db', id, ps[m].key, db.nextId);
      } else {
        var x :| x in db.perms && IsGrant(db, id, ps[m].key, x);
        assert IsGrant(db', id, ps[m].key, x);
      }
    }
    assert ps[..i + 1][i] == ps[i];
    forall x | x in db'.perms && db'.perms[x].roleId == id ensures HasKey(ps[..i + 1], db'.perms[x].key) {
      if x != db.nextId {
        var m :| 0 <= m < |ps[..i]| && ps[..i][m].key == db.perms[x].key;
        assert ps[..i + 1][m] == ps[..i][m];
      }
    }
  }

  lemma PlantClash(db: Db, start: Db, w: Change, co: Id, ps: seq<GrantInput>, i: nat)
    requires i < |ps| && Planted(db, start, w, co, ps, i) && !Vacant(db, start.nextId, ps[i].key)
    ensures HasKey(ps[..i], ps[i].key)
  {
    var x :| x in db.perms && IsGrant(db, start.nextId, ps[i].key, x);
  }

  /** nextByKey after the first i items, all of them valid so far. */
  ghost predicate Indexed(cat: Catalogue, ps: seq<GrantInput>, i: nat, nextByKey: map<Key, GrantInput>)
    requires i <= |ps|
  {
    && (forall j :: 0 <= j < i ==> InCatalogue(cat, ps[j].key) && Acceptable(ps[j].limit))
    && (forall j :: 0 <= j < i ==> ps[j].key in nextByKey && nextByKey[ps[j].key] == ps[j])
    && (forall k <- nextByKey :: exists j :: 0 <= j < i && ps[j].key == k)
    && (forall j, m :: 0 <= j < m < i ==> ps[j].key != ps[m].key)
  }

  /** One more valid item is indexed; an item that is not valid makes the payload invalid. */
  lemma IndexOneMore(cat: Catalogue, ps: seq<GrantInput>, i: nat, nextByKey: map<Key, GrantInput>)
    requires i < |ps| && Indexed(cat, ps, i, nextByKey)
    ensures (var valid := InCatalogue(cat, ps[i].key) && ps[i].key !in nextByKey && Acceptable(ps[i].limit);
             if valid then Indexed(cat, ps, i + 1, nextByKey[ps[i].key := ps[i]]) else !ValidPayload(cat, ps))
  {
    if ps[i].key in nextByKey {
      var j :| 0 <= j < i && ps[j].key == ps[i].key;
    } else {
      assert forall j :: 0 <= j < i ==> ps[j].key != ps[i].key;
    }
  }

  lemma IndexedItem(cat: Catalogue, ps: seq<GrantInput>, nextByKey: map<Key, GrantInput>, p: Permission)
    requires Indexed(cat, ps, |ps|, nextByKey)
    ensures StandsIn(p, ps) <==> p.key in nextByKey && !Narrows(p, nextByKey[p.key].scope, nextByKey[p.key].limit)
  {
    if p.key in nextByKey {
      var j :| 0 <= j < |ps| && ps[j].key == p.key;
      assert nextByKey[p.key] == ps[j];
    }
  }

  /** The writes still to come, from the state the writes so far have led to, lead to the planned state. */
  ghost predicate LeadsTo(db: Db, ws: seq<Change>, end: Db) { Exec(db, ws) == end }

  lemma LeadsOn(db: Db, ws: seq<Change>, vs: seq<Change>, end: Db)
    requires LeadsTo(db, ws + vs, end)
    ensures LeadsTo(Exec(db, ws), vs, end)
  {
    ExecConcat(db, ws, vs);
  }

  lemma UpsertsHead(db0: Db, current: map<Key, Id>, roleId: Id, co: Id, ps: seq<GrantInput>, i: nat)
    requires (forall k <- current :: current[k] in db0.perms) && i < |ps|
    ensures Upserts(db0, current, roleId, co, ps[i..])
            == Upsert(db0, current, roleId, co, ps[i]) + Upserts(db0, current, roleId, co, ps[i + 1..])
  {
    assert ps[i..][0] == ps[i] && ps[i..][1..] == ps[i + 1..];
  }

  lemma RevocationsHead(db0: Db, ids: seq<Id>, ps: seq<GrantInput>, i: nat)
    requires (forall x <- ids :: x in db0.perms) && i < |ids|
    ensures Revocations(db0, ids[i..], ps)
         == (if HasKey(ps, db0.perms[ids[i]].key) then [] else [DropGrant(ids[i], false)])
             + Revocations(db0, ids[i + 1..], ps)
  {
    assert ids[i..][0] == ids[i] && ids[i..][1..] == ids[i + 1..];
  }

  /** What the checks of the batch replace come to. */
  function CheckError(db: Db, cat: Catalogue, role: Role, ids: seq<Id>, ps: seq<GrantInput>): Option<Error>
    requires forall i <- ids :: i in db.perms
  {
    if !ValidPayload(cat, ps) then Some(ValidationError)
    else if role.isUnscoped && exists i :: 0 <= i < |ps| && ps[i].scope == ASSIGNED then Some(RoleScopeConflict)
    else if IsAdminSuperuser(role) && LosesGround(db, cat, ids, ps) then Some(AdminLockoutForbidden)
    else None
  }

  lemma ReplaceErrors(db: Db, cat: Catalogue, id: Id, co: Id, version: nat, ps: seq<GrantInput>)
    requires OwnRole(db, id, co) && db.roles[id].version == version
    ensures ErrorOf(ReplacePermissions(db, cat, id, co, version, ps))
            == CheckError(db, cat, db.roles[id], GrantIds(db, id, co), ps)
  {
  }

  lemma ReplacePlan(db: Db, cat: Catalogue, id: Id, co: Id, version: nat, ps: seq<GrantInput>)
    requires OwnRole(db, id, co) && db.roles[id].version == version
    requires CheckError(db, cat, db.roles[id], GrantIds(db, id, co), ps).None?
    ensures (var ids := GrantIds(db, id, co);
             && (forall k <- CurrentByKey(db, ids) :: CurrentByKey(db, ids)[k] in db.perms)
             && ReplacePermissions(db, cat, id, co, version, ps)
                == Ok(Revocations(db, ids, ps) + Upserts(db, CurrentByKey(db, ids), id, co, ps)
                      + [SaveRole(id, db.roles[id].(version := version + 1), NoRow)]))
  {
    CurrentFacts(db, GrantIds(db, id, co));
  }

  lemma StepOfThree(db: Db, cat: Catalogue, r: Request, rs: seq<Change>, us: seq<Change>, w: Change)
    requires Plan(db, cat, r) == Ok(rs + us + [w])
    ensures Step(db, cat, r) == Apply(Exec(Exec(db, rs), us), w)
  {
    ExecThree(db, rs, us, w);
  }

  /** One key of a seed, on the way to the state the remaining keys lead to. */
  lemma SeedGrantsHead(db: Db, roleId: Id, co: Id, scope: Scope, keys: seq<Key>, i: nat, end: Db)
    requires i < |keys| && LeadsTo(db, SeedGrants(db, roleId, co, scope, keys[i..]), end)
    ensures (var w := AddGrant(Permission(roleId, co, keys[i], scope, None, 1), false);
             var db' := if exists x :: x in db.perms && db.perms[x].roleId == roleId && db.perms[x].key == keys[i]
                        then db else Apply(db, w);
             LeadsTo(db', SeedGrants(db', roleId, co, scope, keys[i + 1..]), end))
  {
    assert keys[i..][0] == keys[i] && keys[i..][1..] == keys[i + 1..];
    if !exists x :: x in db.perms && db.perms[x].roleId == roleId && db.perms[x].key == keys[i] {
      var w := AddGrant(Permission(roleId, co, keys[i], scope, None, 1), false);
      LeadsOn(db, [w], SeedGrants(Apply(db, w), roleId, co, scope, keys[i + 1..]), end);
      ExecOne(db, w);
    }
  }

  /** One seed's writes, on the way to the state the remaining seeds lead to. */
  lemma SeedHead(db: Db, co: Id, seeds: seq<RoleSeed>, i: nat, end: Db)
    requires i < |seeds| && LeadsTo(db, SeedAll(db, co, seeds[i..]), end)
    ensures (var w := SeedRole(db, co, seeds[i]);
             var db1 := Apply(db, w);
             var db2 := Exec(db1, SeedGrants(db1, w.id, co, seeds[i].scope, seeds[i].grants));
             LeadsTo(db2, SeedAll(db2, co, seeds[i + 1..]), end))
  {
    assert seeds[i..][0] == seeds[i] && seeds[i..][1..] == seeds[i + 1..];
    var w := SeedRole(db, co, seeds[i]);
    var gs := SeedGrants(Apply(db, w), w.id, co, seeds[i].scope, seeds[i].grants);
    LeadsOn(db, [w] + gs, SeedAll(Exec(Apply(db, w), gs), co, seeds[i + 1..]), end);
    ExecConcat(db, [w], gs);
    ExecOne(db, w);
  }

  class Tables {
    var roles: map<Id, Role>
    var perms: map<Id, Permission>
    var users: map<Id, User>
    var log: seq<Event>
    var nextId: Id

    constructor ()
      ensures Db() == AccessControl.Db.Db(map[], map[], map[], [], 0) && Valid()
    {
      roles, perms, users, log, nextId := map[], map[], map[], [], 0;
    }

    function Db(): Db
      reads this
    {
      AccessControl.Db.Db(roles, perms, users, log, nextId)
    }

    ghost predicate Valid()
      reads this
    {
      Inv(Db())
    }

    /** The repositories' writes, with the audit row where the use case records one. */
    method Write(w: Change)
      modifies this
      ensures Db() == Apply(old(Db()), w)
    {
      var start := Db();
      match w
      case SaveRole(id, role, note) =>
        if id in roles { users := RenamedUsers(users, role.companyId, roles[id].name, role.name); }
        roles := roles[id := role];
        nextId := Max(nextId, id + 1);
        if !note.NoRow? { log := log + [RoleRow(start, id, role, note)]; }
      case DropRole(id) =>
        if id in roles {
          log := log + [RoleDeleted(roles[id].companyId, id, roles[id].name)];
          roles := roles - {id};
        }
      case AddGrant(p, audited) =>
        if audited { log := log + [PermissionCreated(p.companyId, nextId, p.key, p.scope)]; }
        perms := perms[nextId := p];
        nextId := nextId + 1;
      case SetGrant(id, scope, limit, version) =>
        if id in perms {
          perms := perms[id := Patched(perms[id], scope, limit, version)];
          log := log + [PermissionUpdated(perms[id].companyId, id, scope, limit.Some?)];
        }
      case DropGrant(id, swept) =>
        if id in perms {
          log := log + [Deletion(perms[id], id, swept)];
          perms := perms - {id};
        }
      case DropGrantsOf(roleId, companyId) =>
        perms := map i | i in perms && !(perms[i].roleId == roleId && perms[i].companyId == companyId) :: perms[i];
        assert perms == Apply(old(Db()), w).perms;
      case SaveUser(id, user) =>
        users := users[id := user];
        nextId := Max(nextId, id + 1);
        log := log + [UserRow(start, id, user)];
    }

    /** The transaction is rolled back. */
    method Rollback(start: Db)
      modifies this
      ensures Db() == start
    {
      roles, perms, users, log, nextId := start.roles, start.perms, start.users, start.log, start.nextId;
    }

    method CreateRole(cat: Catalogue, co: Id, name: string, limit: LimitInput, isUnscoped: bool, ps: seq<GrantInput>)
      returns (error: Option<Error>)
      requires Valid()
      modifies this
      ensures Valid()
      ensures (var r := CreateRoleRequest(co, name, limit, isUnscoped, ps);
               error == ErrorOf(Plan(old(Db()), cat, r)) && Db() == Step(old(Db()), cat, r))
    {
      StepKeepsInv(Db(), cat, CreateRoleRequest(co, name, limit, isUnscoped, ps));
      var start := Db();
      if FindRoleByName(start, co, name).Some? { return Some(DuplicateRoleName); }
      if !AllInCatalogue(cat, ps) { return Some(ValidationError); }
      if !Acceptable(limit) { return Some(InvalidLimit); }
      if C.Trim(name) == "" { return Some(BlankName); }
      var id := nextId;
      var w := SaveRole(id, Role(co, name, false, StoredLimit(limit), isUnscoped, 1), CreationRow);
      Write(w);
      PlantNone(start, w, co, ps);
      ApplyKeepsIds(start, w);
      var i := 0;
      while i < |ps|
        invariant 0 <= i <= |ps| && IdsBelow(Db()) && Planted(Db(), start, w, co, ps, i)
      {
        if !Acceptable(ps[i].limit) {
          Rollback(start);
          return Some(InvalidLimit);
        }
        if !Vacant(Db(), id, ps[i].key) {
          PlantClash(Db(), start, w, co, ps, i);
          Rollback(start);
          return Some(UniqueViolation);
        }
        PlantOne(Db(), start, w, co, ps, i);
        ApplyKeepsIds(Db(), AddGrant(NewGrant(id, co, ps[i]), false));
        Write(AddGrant(NewGrant(id, co, ps[i]), false));
        i := i + 1;
      }
      assert ps[..i] == ps;
      return None;
    }
  
    /** The guards of patchRole, and the change that is left to save when they pass. */
    method CheckRolePatch(cat: Catalogue, id: Id, co: Id, name: Option<string>, limit: Option<LimitInput>,
            unscoped: Option<bool>, version: nat)
      returns (planned: Result<Change, Error>)
      ensures Plans(Db(), cat, PatchRoleRequest(co, id, name, limit, unscoped, version), planned)
    {
      var found := FindRole(Db(), id, co);
      if found.None? { return Err(NotFound); }
      var role := found.value;
      if role.version != version { return Err(OptimisticLockConflict); }
      if name.Some? && name.value != role.name {
        if FindRoleByName(Db(), co, name.value).Some? { return Err(DuplicateRoleName); }
        if role.isSystem { return Err(SystemRoleImmutable); }
        if C.Trim(name.value) == "" { return Err(BlankName); }
        role := role.(name := name.value);
      }
      if limit.Some? {
        if !Acceptable(limit.value) { return Err(InvalidLimit); }
        role := role.(approvalLimit := StoredLimit(limit.value));
      }
      if unscoped.Some? { role := role.(isUnscoped := unscoped.value); }
      return Ok(SaveRole(id, role.(version := role.version + 1), PatchRow(limit.Some?, unscoped.Some?)));
    }

    method PatchRole(cat: Catalogue, id: Id, co: Id, name: Option<string>, limit: Option<LimitInput>,
            unscoped: Option<bool>, version: nat)
      returns (error: Option<Error>)
      requires Valid()
      modifies this
      ensures Valid()
      ensures (var r := PatchRoleRequest(co, id, name, limit, unscoped, version);
               error == ErrorOf(Plan(old(Db()), cat, r)) && Db() == Step(old(Db()), cat, r))
      ensures error.None? ==> RoleEdited(old(Db()), Db(), co, id, name, limit, unscoped, version)
    {
      var planned := CheckRolePatch(cat, id, co, name, limit, unscoped, version);
      if planned.Err? { return Some(planned.error); }
      RoleSaved(Db(), cat, PatchRoleRequest(co, id, name, limit, unscoped, version), planned.value);
      Write(planned.value);
      return None;
    }

    method DeleteRole(cat: Catalogue, id: Id, co: Id) returns (error: Option<Error>)
      requires Valid()
      modifies this
      ensures Valid()
      ensures (var r := DeleteRoleRequest(co, id);
               error == ErrorOf(Plan(old(Db()), cat, r)) && Db() == Step(old(Db()), cat, r))
      ensures error.None? ==> RoleGone(old(Db()), Db(), co, id)
    {
      StepKeepsInv(Db(), cat, DeleteRoleRequest(co, id));
      var start := Db();
      var role := FindRole(start, id, co);
      if role.None? { return Some(NotFound); }
      if role.value.isSystem { return Some(SystemRoleImmutable); }
      if HasUsers(start, co, role.value.name) { return Some(RoleInUse); }
      ExecSnoc(start, [DropGrantsOf(id, co)], [DropRole(id)], DropRole(id));
      ExecOne(start, DropGrantsOf(id, co));
      Write(DropGrantsOf(id, co));
      Write(DropRole(id));
      RoleDeletionIsExact(old(Db()), cat, DeleteRoleRequest(co, id));
      return None;
    }

    /** Validates the payload and indexes it by key. */
    method IndexPayload(cat: Catalogue, ps: seq<GrantInput>) returns (valid: bool, nextByKey: map<Key, GrantInput>)
      ensures valid <==> ValidPayload(cat, ps)
      ensures valid ==> Indexed(cat, ps, |ps|, nextByKey)
    {
      nextByKey := map[];
      var i := 0;
      while i < |ps|
        invariant 0 <= i <= |ps| && Indexed(cat, ps, i, nextByKey)
      {
        IndexOneMore(cat, ps, i, nextByKey);
        if !InCatalogue(cat, ps[i].key) || ps[i].key in nextByKey || !Acceptable(ps[i].limit) {
          return false, nextByKey;
        }
        nextByKey := nextByKey[ps[i].key := ps[i]];
        i := i + 1;
      }
      return true, nextByKey;
    }

    /** Looks for a catalogue-valid grant that the payload drops or narrows. */
    method FindLostGround(cat: Catalogue, ids: seq<Id>, ps: seq<GrantInput>,
            nextByKey: map<Key, GrantInput>) returns (lost: bool)
      requires (forall i <- ids :: i in perms) && Indexed(cat, ps, |ps|, nextByKey)
      ensures lost <==> LosesGround(Db(), cat, ids, ps)
    {
      var i := 0;
      while i < |ids|
        invariant 0 <= i <= |ids|
        invariant forall j :: 0 <= j < i ==> InCatalogue(cat, perms[ids[j]].key) ==> StandsIn(perms[ids[j]], ps)
      {
        var pm := perms[ids[i]];
        IndexedItem(cat, ps, nextByKey, pm);
        if InCatalogue(cat, pm.key)
            && (pm.key !in nextByKey || Narrows(pm, nextByKey[pm.key].scope, nextByKey[pm.key].limit)) {
          assert ids[i] in ids;
          return true;
        }
        i := i + 1;
      }
      return false;
    }

    /** The checks of the batch, before anything is written. */
    method CheckBatch(cat: Catalogue, role: Role, ids: seq<Id>, ps: seq<GrantInput>)
      returns (error: Option<Error>, nextByKey: map<Key, GrantInput>)
      requires forall i <- ids :: i in perms
      ensures error == CheckError(Db(), cat, role, ids, ps)
      ensures error.None? ==> Indexed(cat, ps, |ps|, nextByKey)
    {
      var valid;
      valid, nextByKey := IndexPayload(cat, ps);
      if !valid { return Some(ValidationError), nextByKey; }
      if role.isUnscoped && exists j :: 0 <= j < |ps| && ps[j].scope == ASSIGNED {
        return Some(RoleScopeConflict), nextByKey;
      }
      if IsAdminSuperuser(role) {
        var lost := FindLostGround(cat, ids, ps, nextByKey);
        if lost { return Some(AdminLockoutForbidden), nextByKey; }
      }
      return None, nextByKey;
    }

    method CurrentMap(ids: seq<Id>) returns (currentByKey: map<Key, Id>)
      requires forall i <- ids :: i in perms
      ensures currentByKey == CurrentByKey(Db(), ids)
    {
      currentByKey := map[];
      var i := 0;
      assert ids[..0] == [];
      while i < |ids|
        invariant 0 <= i <= |ids| && currentByKey == CurrentByKey(Db(), ids[..i])
      {
        currentByKey := currentByKey[perms[ids[i]].key := ids[i]];
        assert ids[..i + 1][..i] == ids[..i];
        i := i + 1;
      }
      assert ids[..i] == ids;
    }

    /** Revokes the loaded grants whose key is not wanted. */
    method RevokeAbsent(start: Db, ids: seq<Id>, ps: seq<GrantInput>, nextByKey: map<Key, GrantInput>)
      requires start == Db() && forall i <- ids :: i in start.perms
      requires forall k :: k in nextByKey <==> HasKey(ps, k)
      modifies this
      ensures Db() == Exec(start, Revocations(start, ids, ps))
    {
      ghost var end := Exec(start, Revocations(start, ids, ps));
      var i := 0;
      while i < |ids|
        invariant 0 <= i <= |ids| && LeadsTo(Db(), Revocations(start, ids[i..], ps), end)
      {
        RevocationsHead(start, ids, ps, i);
        var pm := start.perms[ids[i]];
        if pm.key !in nextByKey {
          var w := DropGrant(ids[i], false);
          LeadsOn(Db(), [w], Revocations(start, ids[i + 1..], ps), end);
          ExecOne(Db(), w);
          Write(w);
        } else {
          assert Revocations(start, ids[i..], ps) == Revocations(start, ids[i + 1..], ps);
        }
        i := i + 1;
      }
    }

    /** Adds the wanted grants that are new and updates those whose scope or limit differs. */
    method ApplyWanted(start: Db, currentByKey: map<Key, Id>, id: Id, co: Id, ps: seq<GrantInput>)
      requires forall k <- currentByKey :: currentByKey[k] in start.perms
      modifies this
      ensures Db() == Exec(old(Db()), Upserts(start, currentByKey, id, co, ps))
    {
      ghost var end := Exec(Db(), Upserts(start, currentByKey, id, co, ps));
      var i := 0;
      while i < |ps|
        invariant 0 <= i <= |ps| && LeadsTo(Db(), Upserts(start, currentByKey, id, co, ps[i..]), end)
      {
        UpsertsHead(start, currentByKey, id, co, ps, i);
        ghost var ws := Upsert(start, currentByKey, id, co, ps[i]);
        LeadsOn(Db(), ws, Upserts(start, currentByKey, id, co, ps[i + 1..]), end);
        if ws != [] { ExecOne(Db(), ws[0]); }
        var next := ps[i];
        if next.key !in currentByKey {
          Write(AddGrant(NewGrant(id, co, next), true));
        } else {
          var existing := start.perms[currentByKey[next.key]];
          if existing.scope != next.scope || !SameLimit(existing.limit, next.limit) {
            Write(SetGrant(currentByKey[next.key], Some(next.scope), Some(StoredLimit(next.limit)), existing.version));
          }
        }
        i := i + 1;
      }
    }

    /** The revocations, then the additions and changes. */
    method WriteGrid(ids: seq<Id>, nextByKey: map<Key, GrantInput>, id: Id, co: Id, ps: seq<GrantInput>)
      requires (forall i <- ids :: i in perms) && (forall k :: k in nextByKey <==> HasKey(ps, k))
      requires forall k <- CurrentByKey(Db(), ids) :: CurrentByKey(Db(), ids)[k] in perms
      modifies this
      ensures Db() == Exec(Exec(old(Db()), Revocations(old(Db()), ids, ps)),
                           Upserts(old(Db()), CurrentByKey(old(Db()), ids), id, co, ps))
    {
      var start := Db();
      var currentByKey := CurrentMap(ids);
      RevokeAbsent(start, ids, ps, nextByKey);
      ApplyWanted(start, currentByKey, id, co, ps);
    }

    method ReplaceRolePermissions(cat: Catalogue, id: Id, co: Id, version: nat,
            ps: seq<GrantInput>) returns (error: Option<Error>)
      requires Valid()
      modifies this
      ensures Valid()
      ensures (var r := ReplaceRequest(co, id, version, ps);
               error == ErrorOf(Plan(old(Db()), cat, r)) && Db() == Step(old(Db()), cat, r))
    {
      var start := Db();
      var found := FindRole(start, id, co);
      if found.None? { return Some(NotFound); }
      var role := found.value;
      if role.version != version { return Some(OptimisticLockConflict); }
      var ids := GrantIds(start, id, co);
      ReplaceErrors(start, cat, id, co, version, ps);
      var nextByKey;
      error, nextByKey := CheckBatch(cat, role, ids, ps);
      if error.Some? { return; }
      ReplacePlan(start, cat, id, co, version, ps);
      var w := SaveRole(id, role.(version := role.version + 1), NoRow);
      StepOfThree(start, cat, ReplaceRequest(co, id, version, ps), Revocations(start, ids, ps),
                  Upserts(start, CurrentByKey(start, ids), id, co, ps), w);
      WriteGrid(ids, nextByKey, id, co, ps);
      Write(w);
      StepKeepsInv(start, cat, ReplaceRequest(co, id, version, ps));
      return None;
    }

    method CreatePermission(cat: Catalogue, co: Id, roleId: Id, p: GrantInput) returns (error: Option<Error>)
      requires Valid()
      modifies this
      ensures Valid()
      ensures (var r := CreatePermissionRequest(co, roleId, p);
               error == ErrorOf(Plan(old(Db()), cat, r)) && Db() == Step(old(Db()), cat, r))
      ensures error.None? ==> GrantCreated(old(Db()), Db(), roleId, p)
    {
      if FindRole(Db(), roleId, co).None? { return Some(NotFound); }
      if !InCatalogue(cat, p.key) { return Some(ValidationError); }
      if HasGrant(Db(), roleId, co, p.key) { return Some(DuplicatePermission); }
      if !Acceptable(p.limit) { return Some(InvalidLimit); }
      var w := AddGrant(NewGrant(roleId, co, p), true);
      GrantSaved(Db(), cat, CreatePermissionRequest(co, roleId, p), w);
      Write(w);
      return None;
    }

    /** The guards of patchPermission, and the change that is left to save when they pass. */
    method CheckGrantPatch(cat: Catalogue, id: Id, co: Id, scope: Option<Scope>, limit: Option<LimitInput>,
            version: nat)
      returns (planned: Result<Change, Error>)
      ensures Plans(Db(), cat, PatchPermissionRequest(co, id, scope, limit, version), planned)
    {
      if id !in perms || perms[id].companyId != co { return Err(NotFound); }
      var p := perms[id];
      if p.version != version { return Err(OptimisticLockConflict); }
      if limit == Some(Unparsable) { return Err(InvalidLimit); }
      var role := FindRole(Db(), p.roleId, co);
      if role.Some? && IsAdminSuperuser(role.value) && InCatalogue(cat, p.key) {
        var nextScope := if scope.Some? then scope.value else p.scope;
        var nextLimit := if limit.Some? then limit.value
                         else if p.limit.Some? then Amount(p.limit.value as real) else NoLimit;
        if Narrows(p, nextScope, nextLimit) { return Err(AdminLockoutForbidden); }
      }
      if limit.Some? && limit.value.Negative? { return Err(InvalidLimit); }
      return Ok(SetGrant(id, scope, if limit.Some? then Some(StoredLimit(limit.value)) else None, p.version + 1));
    }

    method PatchPermission(cat: Catalogue, id: Id, co: Id, scope: Option<Scope>, limit: Option<LimitInput>,
            version: nat)
      returns (error: Option<Error>)
      requires Valid()
      modifies this
      ensures Valid()
      ensures (var r := PatchPermissionRequest(co, id, scope, limit, version);
               error == ErrorOf(Plan(old(Db()), cat, r)) && Db() == Step(old(Db()), cat, r))
      ensures error.None? ==> GrantPatched(old(Db()), Db(), id, scope, limit, version)
    {
      var planned := CheckGrantPatch(cat, id, co, scope, limit, version);
      if planned.Err? { return Some(planned.error); }
      GrantSaved(Db(), cat, PatchPermissionRequest(co, id, scope, limit, version), planned.value);
      Write(planned.value);
      return None;
    }

    method DeletePermission(cat: Catalogue, id: Id, co: Id) returns (error: Option<Error>)
      requires Valid()
      modifies this
      ensures Valid()
      ensures (var r := DeletePermissionRequest(co, id);
               error == ErrorOf(Plan(old(Db()), cat, r)) && Db() == Step(old(Db()), cat, r))
      ensures error.None? ==> GrantDeleted(old(Db()), Db(), id)
    {
      if id !in perms || perms[id].companyId != co { return Some(NotFound); }
      var role := FindRole(Db(), perms[id].roleId, co);
      if role.Some? && IsAdminSuperuser(role.value)
          && InCatalogue(cat, perms[id].key) { return Some(AdminLockoutForbidden); }
      GrantSaved(Db(), cat, DeletePermissionRequest(co, id), DropGrant(id, false));
      Write(DropGrant(id, false));
      return None;
    }

    method CreateUser(cat: Catalogue, co: Id, roleId: Id) returns (error: Option<Error>)
      requires Valid()
      modifies this
      ensures Valid()
      ensures (var r := CreateUserRequest(co, roleId);
               error == ErrorOf(Plan(old(Db()), cat, r)) && Db() == Step(old(Db()), cat, r))
      ensures error.None? ==> OwnRole(old(Db()), roleId, co)
      ensures error.None? ==> UserSaved(old(Db()), Db(), co, old(nextId), old(roles)[roleId].name)
    {
      var role := FindRole(Db(), roleId, co);
      if role.None? { return Some(NotFound); }
      var w := SaveUser(nextId, User(co, role.value.name));
      UserWritten(Db(), cat, CreateUserRequest(co, roleId), w);
      Write(w);
      return None;
    }

    method PatchUser(cat: Catalogue, co: Id, userId: Id, roleId: Option<Id>,
            versionMatches: bool) returns (error: Option<Error>)
      requires Valid()
      modifies this
      ensures Valid()
      ensures (var r := PatchUserRequest(co, userId, roleId, versionMatches);
               error == ErrorOf(Plan(old(Db()), cat, r)) && Db() == Step(old(Db()), cat, r))
      ensures error.None? ==> userId in old(users)
      ensures error.None? ==> (var was := old(users)[userId].roleName;
                               UserSaved(old(Db()), Db(), co, userId, NextRoleName(old(Db()), co, roleId, was)))
    {
      if userId !in users || users[userId].companyId != co { return Some(NotFound); }
      if !versionMatches { return Some(OptimisticLockConflict); }
      var roleName := users[userId].roleName;
      if roleId.Some? {
        var role := FindRole(Db(), roleId.value, co);
        if role.Some? { roleName := role.value.name; }
      }
      var w := SaveUser(userId, users[userId].(roleName := roleName));
      UserWritten(Db(), cat, PatchUserRequest(co, userId, roleId, versionMatches), w);
      Write(w);
      return None;
    }

    /** The deploy-time sweep; its result is the number of rows it deleted. */
    method SweepOrphanPermissions(cat: Catalogue, co: Id) returns (swept: nat)
      requires Valid()
      modifies this
      ensures Valid()
      ensures Db() == Step(old(Db()), cat, SweepRequest(co)) && swept == |OrphanIds(old(Db()), cat, co)|
    {
      StepKeepsInv(Db(), cat, SweepRequest(co));
      var orphans := OrphanIds(Db(), cat, co);
      ghost var end := Exec(Db(), Drops(orphans));
      var i := 0;
      while i < |orphans|
        invariant 0 <= i <= |orphans| && LeadsTo(Db(), Drops(orphans[i..]), end)
      {
        assert orphans[i..][1..] == orphans[i + 1..];
        var w := DropGrant(orphans[i], true);
        LeadsOn(Db(), [w], Drops(orphans[i + 1..]), end);
        ExecOne(Db(), w);
        Write(w);
        i := i + 1;
      }
      return |orphans|;
    }

    method SeedGrantsOf(roleId: Id, co: Id, scope: Scope, keys: seq<Key>)
      modifies this
      ensures Db() == Exec(old(Db()), SeedGrants(old(Db()), roleId, co, scope, keys))
    {
      ghost var end := Exec(Db(), SeedGrants(Db(), roleId, co, scope, keys));
      var i := 0;
      while i < |keys|
        invariant 0 <= i <= |keys| && LeadsTo(Db(), SeedGrants(Db(), roleId, co, scope, keys[i..]), end)
      {
        SeedGrantsHead(Db(), roleId, co, scope, keys, i, end);
        if !exists x :: x in perms && perms[x].roleId == roleId && perms[x].key == keys[i] {
          Write(AddGrant(Permission(roleId, co, keys[i], scope, None, 1), false));
        }
        i := i + 1;
      }
    }

    /** One built-in role with its missing grants. */
    method SeedOne(co: Id, seed: RoleSeed)
      modifies this
      ensures (var w := SeedRole(old(Db()), co, seed);
               var db1 := Apply(old(Db()), w);
               Db() == Exec(db1, SeedGrants(db1, w.id, co, seed.scope, seed.grants)))
    {
      var w := SeedRole(Db(), co, seed);
      Write(w);
      SeedGrantsOf(w.id, co, seed.scope, seed.grants);
    }

    method SeedInTurn(co: Id, seeds: seq<RoleSeed>)
      modifies this
      ensures Db() == Exec(old(Db()), SeedAll(old(Db()), co, seeds))
    {
      ghost var end := Exec(Db(), SeedAll(Db(), co, seeds));
      var i := 0;
      while i < |seeds|
        invariant 0 <= i <= |seeds| && LeadsTo(Db(), SeedAll(Db(), co, seeds[i..]), end)
      {
        SeedHead(Db(), co, seeds, i, end);
        SeedOne(co, seeds[i]);
        i := i + 1;
      }
    }

    method SeedRolesPermissions(cat: Catalogue, co: Id, seeds: seq<RoleSeed>)
      requires Valid()
      modifies this
      ensures Valid()
      ensures Db() == Step(old(Db()), cat, SeedRequest(co, seeds))
    {
      StepKeepsInv(Db(), cat, SeedRequest(co, seeds));
      SeedInTurn(co, seeds);
    }
  }
}
