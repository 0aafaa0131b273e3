/**
 Replaying the Permission audit rows over the starting grid: when they tell the whole story of the grid, and when not.
 */
module AccessReplay {
  import opened Prelude
  import opened AccessControl
  import opened AccessInvariants
  import C = Calendar

  datatype GridRow = GridRow(key: Key, scope: Scope)

  function GridOf(db: Db): map<Id, GridRow> {
    map i | i in db.perms :: GridRow(db.perms[i].key, db.perms[i].scope)
  }

  /** What one audit row says about the grid. */
  function ReplayOne(grid: map<Id, GridRow>, e: Event): map<Id, GridRow> {
    match e
    case PermissionCreated(_, id, key, scope) => grid[id := GridRow(key, scope)]
    case PermissionUpdated(_, id, scope, _) =>
      if id in grid && scope.Some? then grid[id := grid[id].(scope := scope.value)] else grid
    case PermissionDeleted(_, id, _, _, _, _) => grid - {id}
    case _ => grid
  }

  function Replay(grid: map<Id, GridRow>, es: seq<Event>): map<Id, GridRow>
    decreases es
  {
    if es == [] then grid else Replay(ReplayOne(grid, es[0]), es[1..])
  }

  /** The audit rows db' has beyond those of db. */
  function NewRows(db: Db, db': Db): seq<Event> {
    if |db.log| <= |db'.log| then db'.log[|db.log|..] else []
  }

  /** The log only grows, and its new rows turn the old grid into the new one. */
  ghost predicate Replays(db: Db, db': Db) {
    db.log <= db'.log && Replay(GridOf(db), NewRows(db, db')) == GridOf(db')
  }

  lemma NewRowsChain(db: Db, db1: Db, db2: Db)
    requires db.log <= db1.log && db1.log <= db2.log
    ensures db.log <= db2.log && NewRows(db, db2) == NewRows(db, db1) + NewRows(db1, db2)
  {
  }

  predicate Audited(w: Change) { !(w.AddGrant? && !w.audited) && !w.DropGrantsOf? }

  predicate AllAudited(ws: seq<Change>) { forall i :: 0 <= i < |ws| ==> Audited(ws[i]) }

  lemma {:induction false} ReplayConcat(grid: map<Id, GridRow>, es: seq<Event>, fs: seq<Event>)
    ensures Replay(grid, es + fs) == Replay(Replay(grid, es), fs)
    decreases es
  {
    if es == [] {
      assert es + fs == fs;
    } else {
      assert (es + fs)[0] == es[0] && (es + fs)[1..] == es[1..] + fs;
      ReplayConcat(ReplayOne(grid, es[0]), es[1..], fs);
    }
  }

  lemma ReplaysTrans(db: Db, db1: Db, db2: Db)
    requires Replays(db, db1) && Replays(db1, db2)
    ensures Replays(db, db2)
  {
    NewRowsChain(db, db1, db2);
    ReplayConcat(GridOf(db), NewRows(db, db1), NewRows(db1, db2));
  }

  lemma ReplayAtMostOne(grid: map<Id, GridRow>, e: Event)
    ensures Replay(grid, [e]) == ReplayOne(grid, e) && Replay(grid, []) == grid
  {
    assert [e][1..] == [];
  }

  lemma ApplyReplays(db: Db, w: Change)
    requires Audited(w)
    ensures Replays(db, Apply(db, w))
  {
    var rows := NewRows(db, Apply(db, w));
    assert rows == [] || rows == [rows[0]];
    ReplayAtMostOne(GridOf(db), if rows == [] then RoleDeleted(0, 0, "") else rows[0]);
    assert ReplayOne(GridOf(db), if rows == [] then RoleDeleted(0, 0, "") else rows[0]) == GridOf(Apply(db, w));
  }

  lemma {:induction false} ExecReplays(db: Db, ws: seq<Change>)
    requires AllAudited(ws)
    ensures Replays(db, Exec(db, ws))
    decreases ws
  {
    if ws != [] {
      ApplyReplays(db, ws[0]);
      ExecReplays(Apply(db, ws[0]), ws[1..]);
      ReplaysTrans(db, Apply(db, ws[0]), Exec(db, ws));
    }
  }

  /** Some role of the company with the name has a grant of k. */
  predicate HeldByName(db: Db, co: Id, name: string, k: Key) {
    exists r <- db.roles, i <- db.perms :: IsNamed(db, co, name, r) && IsGrant(db, r, k, i)
  }

  /** A seeded role still lacks one of its seeded grants (or does not exist yet). */
  predicate SeedMissing(db: Db, co: Id, seeds: seq<RoleSeed>) {
    exists i, j ::
        0 <= i < |seeds| && 0 <= j < |seeds[i].grants| && !HeldByName(db, co, seeds[i].name, seeds[i].grants[j])
  }

  /**
   The request succeeds and adds a grant row, or clears rows away with their role, without a Permission audit row.
   Each case can be read off the tables and the request before it is served.
   */
  predicate Silent(db: Db, cat: Catalogue, r: Request) {
    var plan := Plan(db, cat, r);
    plan.Ok? &&
    match r
    case CreateRoleRequest(_, _, _, _, ps) => ps != []
    case DeleteRoleRequest(co, id) => GrantIds(db, id, co) != []
    case SeedRequest(co, seeds) => SeedMissing(db, co, seeds)
    case _ => false
  }

  // ---- silent changes show ----------------------------------------------------------------------------------------

  /** New or reset roles and unaudited new grants: what createRole and the seed are made of. */
  predicate Planting(w: Change) { (w.SaveRole? && !w.note.PatchRow?) || (w.AddGrant? && !w.audited) }

  predicate AllPlanting(ws: seq<Change>) { forall i :: 0 <= i < |ws| ==> Planting(ws[i]) }

  predicate Plants(ws: seq<Change>) { exists i :: 0 <= i < |ws| && ws[i].AddGrant? }

  predicate RoleCreations(es: seq<Event>) { forall i :: 0 <= i < |es| ==> es[i].RoleCreated? }

  lemma {:induction false} ReplayOtherRows(grid: map<Id, GridRow>, es: seq<Event>)
    requires RoleCreations(es)
    ensures Replay(grid, es) == grid
    decreases es
  {
    if es != [] { ReplayOtherRows(grid, es[1..]); }
  }

  lemma PlantOne(db: Db, w: Change)
    requires IdsBelow(db) && Planting(w)
    ensures db.log <= Apply(db, w).log && RoleCreations(NewRows(db, Apply(db, w)))
    ensures forall i <- db.perms :: i in Apply(db, w).perms
    ensures w.AddGrant? ==> db.nextId in Apply(db, w).perms && db.nextId !in db.perms
  {
  }

  lemma {:induction false} PlantingGrows(db: Db, ws: seq<Change>)
    requires IdsBelow(db) && AllPlanting(ws)
    ensures db.log <= Exec(db, ws).log && RoleCreations(NewRows(db, Exec(db, ws)))
    ensures forall i <- db.perms :: i in Exec(db, ws).perms
    ensures Plants(ws) ==> exists i :: i in Exec(db, ws).perms && i !in db.perms
    decreases ws
  {
    if ws != [] {
      var db1, db2 := Apply(db, ws[0]), Exec(db, ws);
      ApplyKeepsIds(db, ws[0]);
      PlantOne(db, ws[0]);
      PlantingGrows(db1, ws[1..]);
      NewRowsChain(db, db1, db2);
      if Plants(ws) && !ws[0].AddGrant? {
        var i :| 0 <= i < |ws| && ws[i].AddGrant?;
        assert ws[1..][i - 1] == ws[i];
      }
    }
  }

  /** Planted grants leave no row to replay. */
  lemma PlantingShows(db: Db, ws: seq<Change>)
    requires IdsBelow(db) && AllPlanting(ws)
    ensures Replays(db, Exec(db, ws)) <==> !Plants(ws)
  {
    var db' := Exec(db, ws);
    PlantingGrows(db, ws);
    ReplayOtherRows(GridOf(db), NewRows(db, db'));
    if Plants(ws) {
      var i :| i in db'.perms && i !in db.perms;
      assert i in GridOf(db') && i !in GridOf(db);
    } else {
      ExecReplays(db, ws) by {
        assert forall i :: 0 <= i < |ws| ==> !ws[i].AddGrant? && Planting(ws[i]);
      }
    }
  }

  lemma {:induction false} AdditionsPlant(roleId: Id, co: Id, ps: seq<GrantInput>)
    ensures AllPlanting(Additions(roleId, co, ps, false)) && (Plants(Additions(roleId, co, ps, false)) <==> ps != [])
  {
    if ps != [] {
      AdditionsPlant(roleId, co, ps[1..]);
      assert Additions(roleId, co, ps, false)[0].AddGrant?;
    }
  }

  lemma {:induction false} SeedGrantsPlant(db: Db, roleId: Id, co: Id, scope: Scope, keys: seq<Key>)
    ensures AllPlanting(SeedGrants(db, roleId, co, scope, keys))
    decreases keys
  {
    if keys != [] {
      if exists i :: i in db.perms && db.perms[i].roleId == roleId && db.perms[i].key == keys[0] {
        SeedGrantsPlant(db, roleId, co, scope, keys[1..]);
      } else {
        var w := AddGrant(Permission(roleId, co, keys[0], scope, None, 1), false);
        SeedGrantsPlant(Apply(db, w), roleId, co, scope, keys[1..]);
      }
    }
  }

  lemma {:induction false} SeedAllPlants(db: Db, co: Id, seeds: seq<RoleSeed>)
    ensures AllPlanting(SeedAll(db, co, seeds))
    decreases seeds
  {
    if seeds != [] {
      var w := SeedRole(db, co, seeds[0]);
      var db1 := Apply(db, w);
      var gs := SeedGrants(db1, w.id, co, seeds[0].scope, seeds[0].grants);
      SeedGrantsPlant(db1, w.id, co, seeds[0].scope, seeds[0].grants);
      SeedAllPlants(Exec(db1, gs), co, seeds[1..]);
    }
  }

  /** The seed inserts for a role exactly when one of the keys is vacant. */
  lemma {:induction false} SeedGrantsPlantIff(db: Db, roleId: Id, co: Id, scope: Scope, keys: seq<Key>)
    ensures Plants(SeedGrants(db, roleId, co, scope, keys))
            <==> exists j :: 0 <= j < |keys| && Vacant(db, roleId, keys[j])
    ensures Plants(SeedGrants(db, roleId, co, scope, keys)) || SeedGrants(db, roleId, co, scope, keys) == []
    decreases keys
  {
    if keys != [] {
      if exists i :: i in db.perms && db.perms[i].roleId == roleId && db.perms[i].key == keys[0] {
        SeedGrantsPlantIff(db, roleId, co, scope, keys[1..]);
        var i :| i in db.perms && db.perms[i].roleId == roleId && db.perms[i].key == keys[0];
        assert IsGrant(db, roleId, keys[0], i);
        assert forall j :: 0 < j < |keys| ==> keys[1..][j - 1] == keys[j];
      } else {
        assert SeedGrants(db, roleId, co, scope, keys)[0].AddGrant?;
        assert Vacant(db, roleId, keys[0]);
      }
    }
  }

  /** After the role is created or reset, it lacks a grant exactly when its name held none before. */
  lemma SeedRoleHolds(db: Db, co: Id, seed: RoleSeed, k: Key)
    requires Inv(db)
    ensures (var w := SeedRole(db, co, seed); Vacant(Apply(db, w), w.id, k) <==> !HeldByName(db, co, seed.name, k))
  {
    var w := SeedRole(db, co, seed);
    var found := FindRoleByName(db, co, seed.name);
    assert Apply(db, w).perms == db.perms;
    if found.Some? {
      assert forall r <- db.roles :: IsNamed(db, co, seed.name, r) ==> r == found.value;
    } else {
      assert forall r <- db.roles :: r < db.nextId && !IsNamed(db, co, seed.name, r);
      forall i | i in db.perms ensures !IsGrant(Apply(db, w), w.id, k, i) { assert OwnedAt(db, i); }
    }
  }

  lemma SeedRoleKeepsNames(db: Db, co: Id, seed: RoleSeed, name: string)
    requires IdsBelow(db)
    ensures (var db1 := Apply(db, SeedRole(db, co, seed));
             && db1.perms == db.perms
             && (forall r <- db.roles :: IsNamed(db1, co, name, r) <==> IsNamed(db, co, name, r)))
  {
  }

  /** Creating or resetting a built-in role changes nobody's grants. */
  lemma SeedRoleKeepsHeld(db: Db, co: Id, seed: RoleSeed, name: string, k: Key)
    requires Inv(db)
    ensures HeldByName(Apply(db, SeedRole(db, co, seed)), co, name, k) <==> HeldByName(db, co, name, k)
  {
    var db1 := Apply(db, SeedRole(db, co, seed));
    SeedRoleKeepsNames(db, co, seed, name);
    if r, i :| r in db.roles && i in db.perms && IsNamed(db, co, name, r) && IsGrant(db, r, k, i) {
      assert IsNamed(db1, co, name, r) && IsGrant(db1, r, k, i);
    }
    if r, i :| r in db1.roles && i in db1.perms && IsNamed(db1, co, name, r) && IsGrant(db1, r, k, i) {
      assert OwnedAt(db, i);
      assert IsNamed(db, co, name, r) && IsGrant(db, r, k, i);
    }
  }

  lemma SeedMissingSplits(db: Db, co: Id, seeds: seq<RoleSeed>)
    requires Inv(db) && seeds != []
    ensures (var w := SeedRole(db, co, seeds[0]);
             SeedMissing(db, co, seeds)
             <==> (exists j :: 0 <= j < |seeds[0].grants| && Vacant(Apply(db, w), w.id, seeds[0].grants[j]))
                  || SeedMissing(Apply(db, w), co, seeds[1..]))
  {
    var db1 := Apply(db, SeedRole(db, co, seeds[0]));
    forall k ensures Vacant(db1, SeedRole(db, co, seeds[0]).id, k) <==> !HeldByName(db, co, seeds[0].name, k) {
      SeedRoleHolds(db, co, seeds[0], k);
    }
    forall name, k ensures HeldByName(db1, co, name, k) <==> HeldByName(db, co, name, k) {
      SeedRoleKeepsHeld(db, co, seeds[0], name, k);
    }
    if i, j :| 0 <= i < |seeds| && 0 <= j < |seeds[i].grants|
              && !HeldByName(db, co, seeds[i].name, seeds[i].grants[j]) {
      if i > 0 {
        assert seeds[1..][i - 1] == seeds[i];
        assert !HeldByName(db1, co, seeds[1..][i - 1].name, seeds[1..][i - 1].grants[j]);
      }
    }
    if i, j :| 0 <= i < |seeds[1..]| && 0 <= j < |seeds[1..][i].grants|
              && !HeldByName(db1, co, seeds[1..][i].name, seeds[1..][i].grants[j]) {
      assert seeds[i + 1] == seeds[1..][i] && !HeldByName(db, co, seeds[i + 1].name, seeds[i + 1].grants[j]);
    }
  }

  lemma PlantsConcat(ws: seq<Change>, vs: seq<Change>)
    ensures Plants(ws + vs) <==> Plants(ws) || Plants(vs)
  {
    if i :| 0 <= i < |ws| && ws[i].AddGrant? { assert (ws + vs)[i].AddGrant?; }
    if i :| 0 <= i < |vs| && vs[i].AddGrant? { assert (ws + vs)[|ws| + i].AddGrant?; }
  }

  /** A seed inserts a grant exactly when one was missing, which the tables and the seed list tell beforehand. */
  lemma {:induction false} SeedPlantsIffMissing(db: Db, co: Id, seeds: seq<RoleSeed>)
    requires Inv(db)
    ensures Plants(SeedAll(db, co, seeds)) <==> SeedMissing(db, co, seeds)
    decreases seeds
  {
    if seeds != [] {
      var w := SeedRole(db, co, seeds[0]);
      var db1 := Apply(db, w);
      var gs := SeedGrants(db1, w.id, co, seeds[0].scope, seeds[0].grants);
      SeedRoleFits(db, co, seeds[0]);
      ApplyKeepsInv(db, w);
      SeedGrantsPlantIff(db1, w.id, co, seeds[0].scope, seeds[0].grants);
      SeedMissingSplits(db, co, seeds);
      PlantsConcat([w], gs);
      PlantsConcat([w] + gs, SeedAll(Exec(db1, gs), co, seeds[1..]));
      if gs == [] { SeedPlantsIffMissing(db1, co, seeds[1..]); }
    }
  }

  lemma CreateRoleShows(db: Db, cat: Catalogue, co: Id, name: string, limit: LimitInput, unscoped: bool,
          ps: seq<GrantInput>)
    requires IdsBelow(db)
    ensures (var plan := CreateRole(db, cat, co, name, limit, unscoped, ps);
             plan.Ok? ==> (Replays(db, Exec(db, plan.value)) <==> ps == []))
  {
    var plan := CreateRole(db, cat, co, name, limit, unscoped, ps);
    if plan.Ok? {
      var adds := Additions(db.nextId, co, ps, false);
      AdditionsPlant(db.nextId, co, ps);
      assert plan.value == [plan.value[0]] + adds;
      assert Plants(plan.value) <==> Plants(adds) by {
        if Plants(adds) {
          var i :| 0 <= i < |adds| && adds[i].AddGrant?;
          assert plan.value[i + 1] == adds[i];
        }
      }
      PlantingShows(db, plan.value);
    }
  }

  lemma DeleteRoleShows(db: Db, id: Id, co: Id)
    requires IdsBelow(db)
    ensures (var plan := DeleteRole(db, id, co); plan.Ok? ==>
             (Replays(db, Exec(db, plan.value)) <==> GrantIds(db, id, co) == []))
  {
    var plan := DeleteRole(db, id, co);
    if plan.Ok? {
      var w, v := plan.value[0], plan.value[1];
      var db' := Exec(db, plan.value);
      assert plan.value[1..] == [v];
      ExecOne(Apply(db, w), v);
      var e := RoleDeleted(co, id, db.roles[id].name);
      assert NewRows(db, db') == [e];
      ReplayAtMostOne(GridOf(db), e);
      var ids := GrantIds(db, id, co);
      if ids == [] {
        forall i | i in db.perms ensures !IsGrantOf(db, id, co, i) {
          assert i < db.nextId;
          assert IsGrantOf(db, id, co, i) ==> i in ids;
        }
        assert GridOf(db') == GridOf(db);
      } else {
        assert ids[0] in ids && ids[0] in GridOf(db) && ids[0] !in GridOf(db');
      }
    }
  }

  lemma {:induction false} RevocationsAudited(db: Db, ids: seq<Id>, ps: seq<GrantInput>)
    requires forall i <- ids :: i in db.perms
    ensures AllAudited(Revocations(db, ids, ps))
  {
    if ids != [] { RevocationsAudited(db, ids[1..], ps); }
  }

  lemma {:induction false} UpsertsAudited(db: Db, current: map<Key, Id>, roleId: Id, co: Id, ps: seq<GrantInput>)
    requires forall k <- current :: current[k] in db.perms
    ensures AllAudited(Upserts(db, current, roleId, co, ps))
  {
    if ps != [] { UpsertsAudited(db, current, roleId, co, ps[1..]); }
  }

  lemma {:induction false} DropsAudited(ids: seq<Id>)
    ensures AllAudited(Drops(ids))
  {
    if ids != [] { DropsAudited(ids[1..]); }
  }

  lemma BatchAudited(db: Db, id: Id, co: Id, ps: seq<GrantInput>)
    requires OwnRole(db, id, co)
    ensures AllAudited(BatchWrites(db, id, co, ps))
  {
    var ids := GrantIds(db, id, co);
    CurrentFacts(db, ids);
    RevocationsAudited(db, ids, ps);
    UpsertsAudited(db, CurrentByKey(db, ids), id, co, ps);
  }

  lemma OtherPlansAudited(db: Db, cat: Catalogue, r: Request)
    requires !r.CreateRoleRequest? && !r.DeleteRoleRequest? && !r.SeedRequest?
    ensures Plan(db, cat, r).Ok? ==> AllAudited(Plan(db, cat, r).value)
  {
    match r
    case ReplaceRequest(co, id, version, ps) =>
      AcceptedBatch(db, cat, id, co, version, ps);
      if Plan(db, cat, r).Ok? { BatchAudited(db, id, co, ps); }
    case SweepRequest(co) => DropsAudited(OrphanIds(db, cat, co));
    case _ =>
  }

  /**
   Replaying the Permission rows a request wrote over the grid before it gives the grid after it, ids, keys and scopes
   alike - for every batch replace, single edit, sweep and user or role edit; and for the three requests that touch
   grants without a row (a role created with grants, a role deleted with grants, a seed that inserts) it never does.
   */
  lemma StepReplaysIff(db: Db, cat: Catalogue, r: Request)
    requires Inv(db)
    ensures Replays(db, Step(db, cat, r)) <==> !Silent(db, cat, r)
  {
    var plan := Plan(db, cat, r);
    if plan.Err? {
      ExecReplays(db, []);
    } else {
      match r
      case CreateRoleRequest(co, name, limit, unscoped, ps) => CreateRoleShows(db, cat, co, name, limit, unscoped, ps);
      case DeleteRoleRequest(co, id) => DeleteRoleShows(db, id, co);
      case SeedRequest(co, seeds) =>
        SeedAllPlants(db, co, seeds);
        SeedPlantsIffMissing(db, co, seeds);
        PlantingShows(db, plan.value);
      case _ =>
        OtherPlansAudited(db, cat, r);
        ExecReplays(db, plan.value);
    }
  }

  /** No step of the run changes grants silently. */
  predicate NeverSilent(db: Db, cs: seq<Call>)
    decreases cs
  {
    cs == [] || (!Silent(db, cs[0].cat, cs[0].request) && NeverSilent(Step(db, cs[0].cat, cs[0].request), cs[1..]))
  }

  /** The Permission rows of a whole run, folded over the starting grid, reproduce the final grid. */
  lemma {:induction false} RunReplays(db: Db, cs: seq<Call>)
    requires Inv(db) && NeverSilent(db, cs)
    ensures Replays(db, Run(db, cs))
    decreases cs
  {
    if cs == [] {
      ExecReplays(db, []);
    } else {
      var db1 := Step(db, cs[0].cat, cs[0].request);
      StepReplaysIff(db, cs[0].cat, cs[0].request);
      StepKeepsInv(db, cs[0].cat, cs[0].request);
      RunReplays(db1, cs[1..]);
      ReplaysTrans(db, db1, Run(db, cs));
    }
  }

  /** No roles, grants or users yet. */
  const EMPTY := Db(map[], map[], map[], [], 0)

  /** Into empty tables, a role created with one grant: the grant is there, and no Permission row says so. */
  lemma RoleWithAGrantDoesNotReplay()
    ensures (var cat: Catalogue := map["reports" := {READ}];
             var r := CreateRoleRequest(1, "Clerk", NoLimit, false, [GrantInput(Key("reports", READ), ALL, NoLimit)]);
             Plan(EMPTY, cat, r).Ok? && !Replays(EMPTY, Step(EMPTY, cat, r)))
  {
    var cat: Catalogue := map["reports" := {READ}];
    var r := CreateRoleRequest(1, "Clerk", NoLimit, false, [GrantInput(Key("reports", READ), ALL, NoLimit)]);
    assert C.Trim("Clerk") == "Clerk";
    assert FirstGrantError(r.grants, 0).None?;
    StepReplaysIff(EMPTY, cat, r);
  }
}
