/**
 Anti-lockout over whole runs: the built-in ADMIN role stays, and each of its grants that every deployment's catalogue
 still declares stays too and only ever widens.
 */
module AccessLockout {
  import opened Prelude
  import opened AccessControl
  import opened AccessInvariants

  function AsInput(limit: Option<nat>): LimitInput {
    if limit.Some? then Amount(limit.value as real) else NoLimit
  }

  /** q reaches at least as far as p. */
  predicate NotNarrowed(p: Permission, q: Permission) {
    !Narrows(p, q.scope, AsInput(q.limit))
  }

  /** "Not narrowed" is a partial order on scope and limit, with no limit at the top. */
  lemma NotNarrowedIsPartialOrder(p: Permission, q: Permission, r: Permission)
    ensures NotNarrowed(p, p)
    ensures NotNarrowed(p, q) && NotNarrowed(q, r) ==> NotNarrowed(p, r)
    ensures NotNarrowed(p, q) && NotNarrowed(q, p) ==> p.scope == q.scope && p.limit == q.limit
  {
  }

  lemma HalfUpKeepsBound(v: real, n: nat)
    requires n as real <= v
    ensures n <= (v + 0.5).Floor && n as real <= (v + 0.5).Floor as real
  {
  }

  /** Rounding to the column's four decimals never turns a change that does not narrow into one that does. */
  lemma RoundingDoesNotNarrow(p: Permission, scope: Scope, limit: LimitInput, version: nat)
    requires Acceptable(limit) && !Narrows(p, scope, limit)
    ensures NotNarrowed(p, Patched(p, Some(scope), Some(StoredLimit(limit)), version))
  {
    if limit.Amount? {
      var n := p.limit.value;
      HalfUpKeepsBound(limit.amount, n);
      assert LimitValue(AsInput(StoredLimit(limit))) == (limit.amount + 0.5).Floor as real;
    }
  }

  predicate IsAdmin(db: Db, a: Id) { a in db.roles && IsAdminSuperuser(db.roles[a]) }

  /** Role a is still the built-in ADMIN, and its grant of k, if it had one, is still there and reaches as far. */
  ghost predicate Kept(db: Db, db': Db, a: Id, k: Key) {
    && IsAdmin(db', a)
    && forall i <- db.perms :: IsGrant(db, a, k, i) ==> IsGrant(db', a, k, i) && NotNarrowed(db.perms[i], db'.perms[i])
  }

  lemma KeptIsTransitive(db: Db, db1: Db, db2: Db, a: Id, k: Key)
    requires Kept(db, db1, a, k) && Kept(db1, db2, a, k)
    ensures Kept(db, db2, a, k)
  {
    forall i | i in db.perms && IsGrant(db, a, k, i)
      ensures IsGrant(db2, a, k, i) && NotNarrowed(db.perms[i], db2.perms[i])
    {
      assert IsGrant(db1, a, k, i);
      NotNarrowedIsPartialOrder(db.perms[i], db1.perms[i], db2.perms[i]);
    }
  }

  ghost predicate Safe(db: Db, w: Change, a: Id, k: Key) {
    match w
    case SaveRole(id, role, _) => id == a ==> IsAdminSuperuser(role)
    case DropRole(id) => id != a
    case SetGrant(id, scope, limit, version) =>
      IsGrant(db, a, k, id) ==> NotNarrowed(db.perms[id], Patched(db.perms[id], scope, limit, version))
    case DropGrant(id, _) => !IsGrant(db, a, k, id)
    case DropGrantsOf(roleId, _) => roleId != a
    case _ => true
  }

  ghost predicate SafeAll(db: Db, ws: seq<Change>, a: Id, k: Key)
    decreases ws
  {
    ws == [] || (Safe(db, ws[0], a, k) && SafeAll(Apply(db, ws[0]), ws[1..], a, k))
  }

  lemma ApplyKeeps(db: Db, w: Change, a: Id, k: Key)
    requires IdsBelow(db) && IsAdmin(db, a) && Safe(db, w, a, k)
    ensures Kept(db, Apply(db, w), a, k)
  {
    forall i | i in db.perms && IsGrant(db, a, k, i)
      ensures IsGrant(Apply(db, w), a, k, i) && NotNarrowed(db.perms[i], Apply(db, w).perms[i])
    {
      NotNarrowedIsPartialOrder(db.perms[i], db.perms[i], db.perms[i]);
    }
  }

  lemma {:induction false} ExecKeeps(db: Db, ws: seq<Change>, a: Id, k: Key)
    requires IdsBelow(db) && IsAdmin(db, a) && SafeAll(db, ws, a, k)
    ensures Kept(db, Exec(db, ws), a, k)
    decreases ws
  {
    if ws == [] {
      forall i | i in db.perms ensures NotNarrowed(db.perms[i], db.perms[i]) {
        NotNarrowedIsPartialOrder(db.perms[i], db.perms[i], db.perms[i]);
      }
    } else {
      ApplyKeeps(db, ws[0], a, k);
      ApplyKeepsIds(db, ws[0]);
      ExecKeeps(Apply(db, ws[0]), ws[1..], a, k);
      KeptIsTransitive(db, Apply(db, ws[0]), Exec(db, ws), a, k);
    }
  }

  lemma {:induction false} SafeConcat(db: Db, ws: seq<Change>, vs: seq<Change>, a: Id, k: Key)
    requires SafeAll(db, ws, a, k) && SafeAll(Exec(db, ws), vs, a, k)
    ensures SafeAll(db, ws + vs, a, k)
    decreases ws
  {
    if ws == [] {
      assert ws + vs == vs;
    } else {
      assert (ws + vs)[0] == ws[0] && (ws + vs)[1..] == ws[1..] + vs;
      SafeConcat(Apply(db, ws[0]), ws[1..], vs, a, k);
    }
  }

  lemma SafeOne(db: Db, w: Change, a: Id, k: Key)
    requires Safe(db, w, a, k)
    ensures SafeAll(db, [w], a, k)
  {
    assert [w][1..] == [];
  }

  // ---- the plans are safe -----------------------------------------------------------------------------------------

  lemma {:induction false} AdditionsSafe(db: Db, roleId: Id, companyId: Id, ps: seq<GrantInput>, audited: bool,
          a: Id, k: Key)
    ensures SafeAll(db, Additions(roleId, companyId, ps, audited), a, k)
    decreases ps
  {
    if ps != [] {
      AdditionsSafe(Apply(db, AddGrant(NewGrant(roleId, companyId, ps[0]), audited)), roleId, companyId, ps[1..],
                    audited, a, k);
    }
  }

  /** Every row of db is a row of db0, unchanged. */
  ghost predicate RowsFrom(db: Db, db0: Db) {
    forall i <- db.perms :: i in db0.perms && db.perms[i] == db0.perms[i]
  }

  lemma {:induction false} DropsSafe(db: Db, db0: Db, ids: seq<Id>, a: Id, k: Key)
    requires RowsFrom(db, db0) && forall i <- ids :: !IsGrant(db0, a, k, i)
    ensures SafeAll(db, Drops(ids), a, k)
    decreases ids
  {
    if ids != [] {
      assert ids[0] in ids && Drops(ids)[1..] == Drops(ids[1..]);
      DropsSafe(Apply(db, DropGrant(ids[0], true)), db0, ids[1..], a, k);
    }
  }

  lemma {:induction false} RevocationsSafe(db: Db, db0: Db, ids: seq<Id>, ps: seq<GrantInput>, a: Id, k: Key)
    requires RowsFrom(db, db0) && forall i <- ids :: i in db0.perms
    requires forall i <- ids :: IsGrant(db0, a, k, i) ==> HasKey(ps, k)
    ensures SafeAll(db, Revocations(db0, ids, ps), a, k)
    decreases ids
  {
    if ids != [] {
      assert ids[0] in ids;
      if HasKey(ps, db0.perms[ids[0]].key) {
        RevocationsSafe(db, db0, ids[1..], ps, a, k);
        assert Revocations(db0, ids, ps) == Revocations(db0, ids[1..], ps);
      } else {
        var w := DropGrant(ids[0], false);
        assert Safe(db, w, a, k);
        RevocationsSafe(Apply(db, w), db0, ids[1..], ps, a, k);
        assert Revocations(db0, ids, ps)[0] == w && Revocations(db0, ids, ps)[1..] == Revocations(db0, ids[1..], ps);
      }
    }
  }

  /** The rows still to be looked at are as they were when the batch began (or gone). */
  ghost predicate Untouched(db: Db, db0: Db, current: map<Key, Id>, ps: seq<GrantInput>) {
    forall j :: 0 <= j < |ps| && ps[j].key in current && current[ps[j].key] in db.perms ==>
      current[ps[j].key] in db0.perms && db.perms[current[ps[j].key]] == db0.perms[current[ps[j].key]]
  }

  /** No item of the list narrows the role's grant of k. */
  ghost predicate KeepsReach(db0: Db, current: map<Key, Id>, ps: seq<GrantInput>, a: Id, k: Key) {
    forall j :: 0 <= j < |ps| && ps[j].key in current && IsGrant(db0, a, k, current[ps[j].key]) ==>
      !Narrows(db0.perms[current[ps[j].key]], ps[j].scope, ps[j].limit)
  }

  ghost predicate ByKey(db0: Db, current: map<Key, Id>) {
    forall k <- current :: current[k] in db0.perms && db0.perms[current[k]].key == k
  }

  lemma UpsertSafe(db: Db, db0: Db, current: map<Key, Id>, roleId: Id, co: Id, ps: seq<GrantInput>, a: Id, k: Key)
    requires ByKey(db0, current) && IdsBelow(db0) && db0.nextId <= db.nextId
    requires DistinctKeys(ps) && ps != [] && Untouched(db, db0, current, ps) && KeepsReach(db0, current, ps, a, k)
    requires Acceptable(ps[0].limit)
    ensures (var ws := Upsert(db0, current, roleId, co, ps[0]);
             SafeAll(db, ws, a, k) && Untouched(Exec(db, ws), db0, current, ps[1..])
                 && db0.nextId <= Exec(db, ws).nextId)
  {
    var ws := Upsert(db0, current, roleId, co, ps[0]);
    if ws != [] {
      var w := ws[0];
      if w.SetGrant? {
        if IsGrant(db, a, k, w.id) {
          RoundingDoesNotNarrow(db.perms[w.id], ps[0].scope, ps[0].limit, w.version);
        }
      }
      SafeOne(db, w, a, k);
      ExecOne(db, w);
    }
    var db1 := Exec(db, ws);
    forall j | 0 <= j < |ps[1..]| && ps[1..][j].key in current && current[ps[1..][j].key] in db1.perms
      ensures current[ps[1..][j].key] in db0.perms
              && db1.perms[current[ps[1..][j].key]] == db0.perms[current[ps[1..][j].key]]
    {
      assert ps[1..][j] == ps[j + 1] && ps[0].key != ps[j + 1].key;
    }
  }

  lemma {:induction false} UpsertsSafe(db: Db, db0: Db, current: map<Key, Id>, roleId: Id, co: Id,
          ps: seq<GrantInput>, a: Id, k: Key)
    requires ByKey(db0, current) && IdsBelow(db0) && db0.nextId <= db.nextId
    requires DistinctKeys(ps) && Untouched(db, db0, current, ps) && KeepsReach(db0, current, ps, a, k)
    requires forall j :: 0 <= j < |ps| ==> Acceptable(ps[j].limit)
    ensures SafeAll(db, Upserts(db0, current, roleId, co, ps), a, k)
    decreases ps
  {
    if ps != [] {
      var ws := Upsert(db0, current, roleId, co, ps[0]);
      UpsertSafe(db, db0, current, roleId, co, ps, a, k);
      assert KeepsReach(db0, current, ps[1..], a, k) by {
        assert forall j :: 0 <= j < |ps[1..]| ==> ps[1..][j] == ps[j + 1];
      }
      UpsertsSafe(Exec(db, ws), db0, current, roleId, co, ps[1..], a, k);
      SafeConcat(db, ws, Upserts(db0, current, roleId, co, ps[1..]), a, k);
    }
  }

  lemma BatchSafe(db: Db, cat: Catalogue, id: Id, co: Id, ps: seq<GrantInput>, a: Id, k: Key)
    requires Inv(db) && IsAdmin(db, a) && InCatalogue(cat, k) && OwnRole(db, id, co) && ValidPayload(cat, ps)
    requires !(IsAdminSuperuser(db.roles[id]) && LosesGround(db, cat, GrantIds(db, id, co), ps))
    ensures SafeAll(db, BatchWrites(db, id, co, ps), a, k)
  {
    var ids := GrantIds(db, id, co);
    var current := CurrentByKey(db, ids);
    CurrentFacts(db, ids);
    var rs, us := Revocations(db, ids, ps), Upserts(db, current, id, co, ps);
    var w := SaveRole(id, db.roles[id].(version := db.roles[id].version + 1), NoRow);
    forall i | i in ids && IsGrant(db, a, k, i) ensures StandsIn(db.perms[i], ps) {
      assert IsGrantOf(db, id, co, i) && id == a;
    }
    RevocationsSafe(db, db, ids, ps, a, k);
    RevocationsLeave(db, db, ids, ps);
    forall j | 0 <= j < |ps| && ps[j].key in current && IsGrant(db, a, k, current[ps[j].key])
      ensures !Narrows(db.perms[current[ps[j].key]], ps[j].scope, ps[j].limit)
    {
      assert current[ps[j].key] in ids && StandsIn(db.perms[current[ps[j].key]], ps);
    }
    UpsertsSafe(Exec(db, rs), db, current, id, co, ps, a, k);
    SafeConcat(db, rs, us, a, k);
    SafeOne(Exec(db, rs + us), w, a, k);
    SafeConcat(db, rs + us, [w], a, k);
  }

  lemma ReplaceSafe(db: Db, cat: Catalogue, id: Id, co: Id, version: nat, ps: seq<GrantInput>, a: Id, k: Key)
    requires Inv(db) && IsAdmin(db, a) && InCatalogue(cat, k)
    ensures (var plan := ReplacePermissions(db, cat, id, co, version, ps); plan.Ok? ==> SafeAll(db, plan.value, a, k))
  {
    AcceptedBatch(db, cat, id, co, version, ps);
    if ReplacePermissions(db, cat, id, co, version, ps).Ok? { BatchSafe(db, cat, id, co, ps, a, k); }
  }

  lemma {:induction false} RevocationsLeave(db: Db, db0: Db, ids: seq<Id>, ps: seq<GrantInput>)
    requires RowsFrom(db, db0) && forall i <- ids :: i in db0.perms
    ensures RowsFrom(Exec(db, Revocations(db0, ids, ps)), db0)
            && Exec(db, Revocations(db0, ids, ps)).nextId == db.nextId
    decreases ids
  {
    if ids != [] {
      if HasKey(ps, db0.perms[ids[0]].key) {
        RevocationsLeave(db, db0, ids[1..], ps);
        assert Revocations(db0, ids, ps) == Revocations(db0, ids[1..], ps);
      } else {
        var w := DropGrant(ids[0], false);
        RevocationsLeave(Apply(db, w), db0, ids[1..], ps);
        assert Revocations(db0, ids, ps)[0] == w && Revocations(db0, ids, ps)[1..] == Revocations(db0, ids[1..], ps);
      }
    }
  }

  lemma {:induction false} SeedGrantsSafe(db: Db, roleId: Id, co: Id, scope: Scope, keys: seq<Key>, a: Id, k: Key)
    ensures SafeAll(db, SeedGrants(db, roleId, co, scope, keys), a, k)
    decreases keys
  {
    if keys != [] {
      if exists i :: i in db.perms && db.perms[i].roleId == roleId && db.perms[i].key == keys[0] {
        SeedGrantsSafe(db, roleId, co, scope, keys[1..], a, k);
      } else {
        var w := AddGrant(Permission(roleId, co, keys[0], scope, None, 1), false);
        SeedGrantsSafe(Apply(db, w), roleId, co, scope, keys[1..], a, k);
        assert SeedGrants(db, roleId, co, scope, keys)[1..] == SeedGrants(Apply(db, w), roleId, co, scope, keys[1..]);
      }
    }
  }

  lemma {:induction false} SeedAllSafe(db: Db, co: Id, seeds: seq<RoleSeed>, a: Id, k: Key)
    requires IdsBelow(db) && IsAdmin(db, a)
    ensures SafeAll(db, SeedAll(db, co, seeds), a, k)
    decreases seeds
  {
    if seeds != [] {
      var w := SeedRole(db, co, seeds[0]);
      var db1 := Apply(db, w);
      SafeOne(db, w, a, k);
      ApplyKeeps(db, w, a, k);
      ApplyKeepsIds(db, w);
      var gs := SeedGrants(db1, w.id, co, seeds[0].scope, seeds[0].grants);
      SeedGrantsSafe(db1, w.id, co, seeds[0].scope, seeds[0].grants, a, k);
      ExecKeeps(db1, gs, a, k);
      ExecKeepsIds(db1, gs);
      SeedAllSafe(Exec(db1, gs), co, seeds[1..], a, k);
      ExecOne(db, w);
      SafeConcat(db, [w], gs, a, k);
      ExecConcat(db, [w], gs);
      SafeConcat(db, [w] + gs, SeedAll(Exec(db1, gs), co, seeds[1..]), a, k);
    }
  }

  lemma {:induction false} ExecKeepsIds(db: Db, ws: seq<Change>)
    requires IdsBelow(db)
    ensures IdsBelow(Exec(db, ws))
    decreases ws
  {
    if ws != [] {
      ApplyKeepsIds(db, ws[0]);
      ExecKeepsIds(Apply(db, ws[0]), ws[1..]);
    }
  }

  lemma PatchSafe(db: Db, cat: Catalogue, id: Id, co: Id, scope: Option<Scope>, limit: Option<LimitInput>,
          version: nat, a: Id, k: Key)
    requires Inv(db) && IsAdmin(db, a) && InCatalogue(cat, k)
    ensures (var plan := PatchPermission(db, cat, id, co, scope, limit, version);
             plan.Ok? ==> |plan.value| == 1 && Safe(db, plan.value[0], a, k))
  {
    var plan := PatchPermission(db, cat, id, co, scope, limit, version);
    if plan.Ok? && IsGrant(db, a, k, id) {
      assert OwnedAt(db, id);
      var p := db.perms[id];
      var next := if limit.Some? then limit.value else AsInput(p.limit);
      assert !PatchNarrows(p, scope, limit);
      RoundingDoesNotNarrow(p, if scope.Some? then scope.value else p.scope, next, p.version + 1);
    }
  }

  lemma DeleteSafe(db: Db, cat: Catalogue, id: Id, co: Id, a: Id, k: Key)
    requires Inv(db) && IsAdmin(db, a) && InCatalogue(cat, k)
    ensures (var plan := DeletePermission(db, cat, id, co); plan.Ok? ==>
             |plan.value| == 1 && Safe(db, plan.value[0], a, k))
  {
    if id in db.perms { assert OwnedAt(db, id); }
  }

  lemma CreateRoleSafe(db: Db, cat: Catalogue, co: Id, name: string, limit: LimitInput, unscoped: bool,
          ps: seq<GrantInput>, a: Id, k: Key)
    requires Inv(db) && IsAdmin(db, a)
    ensures (var plan := CreateRole(db, cat, co, name, limit, unscoped, ps);
             plan.Ok? ==> SafeAll(db, plan.value, a, k))
  {
    var plan := CreateRole(db, cat, co, name, limit, unscoped, ps);
    if plan.Ok? {
      AdditionsSafe(Apply(db, plan.value[0]), db.nextId, co, ps, false, a, k);
      assert plan.value[1..] == Additions(db.nextId, co, ps, false);
    }
  }

  lemma DeleteRoleSafe(db: Db, id: Id, co: Id, a: Id, k: Key)
    requires Inv(db) && IsAdmin(db, a)
    ensures (var plan := DeleteRole(db, id, co); plan.Ok? ==> SafeAll(db, plan.value, a, k))
  {
    var plan := DeleteRole(db, id, co);
    if plan.Ok? {
      SafeOne(Apply(db, plan.value[0]), plan.value[1], a, k);
      assert plan.value[1..] == [plan.value[1]];
    }
  }

  lemma PlanSafe(db: Db, cat: Catalogue, r: Request, a: Id, k: Key)
    requires Inv(db) && IsAdmin(db, a) && InCatalogue(cat, k)
    ensures (var plan := Plan(db, cat, r); plan.Ok? ==> SafeAll(db, plan.value, a, k))
  {
    var plan := Plan(db, cat, r);
    match r
    case CreateRoleRequest(co, name, limit, unscoped, ps) =>
      CreateRoleSafe(db, cat, co, name, limit, unscoped, ps, a, k);
    case DeleteRoleRequest(co, id) => DeleteRoleSafe(db, id, co, a, k);
    case ReplaceRequest(co, id, version, ps) => ReplaceSafe(db, cat, id, co, version, ps, a, k);
    case SweepRequest(co) => DropsSafe(db, db, OrphanIds(db, cat, co), a, k);
    case SeedRequest(co, seeds) => SeedAllSafe(db, co, seeds, a, k);
    case PatchPermissionRequest(co, id, scope, limit, version) =>
      PatchSafe(db, cat, id, co, scope, limit, version, a, k);
      if plan.Ok? { SafeOne(db, plan.value[0], a, k); assert plan.value == [plan.value[0]]; }
    case DeletePermissionRequest(co, id) =>
      DeleteSafe(db, cat, id, co, a, k);
      if plan.Ok? { SafeOne(db, plan.value[0], a, k); assert plan.value == [plan.value[0]]; }
    case _ =>
      if plan.Ok? { SafeOne(db, plan.value[0], a, k); }
  }

  /**
   Anti-lockout: along any run of requests, sweeps and re-seeds, the built-in ADMIN role keeps its name and protection,
   and its grant of any resource and action that every catalogue along the way declares is still there under the same
   id, with scope and limit reaching at least as far as at the start.
   */
  lemma {:induction false} AdminIsNeverLockedOut(db: Db, cs: seq<Call>, a: Id, k: Key)
    requires Inv(db) && IsAdmin(db, a)
    requires forall i :: 0 <= i < |cs| ==> InCatalogue(cs[i].cat, k)
    ensures Kept(db, Run(db, cs), a, k)
    decreases cs
  {
    if cs == [] {
      ExecKeeps(db, [], a, k);
    } else {
      var cat, r := cs[0].cat, cs[0].request;
      var db1 := Step(db, cat, r);
      PlanSafe(db, cat, r, a, k);
      ExecKeeps(db, if Plan(db, cat, r).Ok? then Plan(db, cat, r).value else [], a, k);
      StepKeepsInv(db, cat, r);
      AdminIsNeverLockedOut(db1, cs[1..], a, k);
      KeptIsTransitive(db, db1, Run(db, cs), a, k);
    }
  }
}
