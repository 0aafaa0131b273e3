/**
 Which requests leave audit rows that cannot be read back as they were sealed: rows whose payload lists its keys in
 another order than jsonb returns them. Here the rows are still events; AccessSeals turns them into sealed content.
 */
module AccessTrail {
  import opened AccessControl
  import opened AccessInvariants
  import opened AccessReplay

  /**
   A permission created, deleted by a use case, or patched in both of its fields; a role patched in limit and flag; a
   user created.
   */
  predicate Disordered(e: Event) {
    match e
    case PermissionCreated(_, _, _, _) => true
    case PermissionDeleted(_, _, _, _, _, swept) => !swept
    case PermissionUpdated(_, _, scope, limitSet) => scope.Some? && limitSet
    case RoleUpdated(_, _, _, _, limitSet, unscopedSet) => limitSet && unscopedSet
    case UserCreated(_, _, _) => true
    case _ => false
  }

  predicate HasDisorder(es: seq<Event>, co: Id) {
    exists i :: 0 <= i < |es| && Disordered(es[i]) && es[i].companyId == co
  }

  /** Whatever is disordered belongs to the company. */
  predicate DisorderOnlyOf(es: seq<Event>, co: Id) {
    forall i :: 0 <= i < |es| && Disordered(es[i]) ==> es[i].companyId == co
  }

  /** The list holds something the role's grid does not, or leaves out something it does. */
  predicate ChangesGrid(db: Db, id: Id, ps: seq<GrantInput>) {
    || (exists j :: 0 <= j < |ps| && !HasAsListed(db, id, ps[j]))
    || (exists i <- db.perms :: db.perms[i].roleId == id && !HasKey(ps, db.perms[i].key))
  }

  predicate HasAsListed(db: Db, id: Id, g: GrantInput) {
    exists i <- db.perms :: IsGrant(db, id, g.key, i) && !Differs(db.perms[i], g)
  }

  /**
   The request succeeds and creates or deletes a permission, patches both fields of one, replaces a grid by a list that
   differs from it, supplies both limit and flag in a role patch, or creates a user.
   */
  predicate LeavesDisorder(db: Db, cat: Catalogue, r: Request) {
    Plan(db, cat, r).Ok? &&
    match r
    case CreatePermissionRequest(_, _, _) => true
    case DeletePermissionRequest(_, _) => true
    case PatchPermissionRequest(_, _, scope, limit, _) => scope.Some? && limit.Some?
    case ReplaceRequest(_, id, _, ps) => ChangesGrid(db, id, ps)
    case PatchRoleRequest(_, _, _, limit, unscoped, _) => limit.Some? && unscoped.Some?
    case CreateUserRequest(_, _) => true
    case _ => false
  }

  // ---- logs grow -------------------------------------------------------------------------------------------------

  lemma {:induction false} ExecGrowsLog(db: Db, ws: seq<Change>)
    ensures db.log <= Exec(db, ws).log
    decreases ws
  {
    if ws != [] { ExecGrowsLog(Apply(db, ws[0]), ws[1..]); }
  }

  lemma StepGrowsLog(db: Db, cat: Catalogue, r: Request)
    ensures db.log <= Step(db, cat, r).log
  {
    if Plan(db, cat, r).Ok? { ExecGrowsLog(db, Plan(db, cat, r).value); }
  }

  lemma DisorderConcat(es: seq<Event>, fs: seq<Event>, co: Id)
    ensures HasDisorder(es + fs, co) <==> HasDisorder(es, co) || HasDisorder(fs, co)
    ensures DisorderOnlyOf(es + fs, co) <==> DisorderOnlyOf(es, co) && DisorderOnlyOf(fs, co)
  {
    var all := es + fs;
    assert forall i :: 0 <= i < |es| ==> all[i] == es[i];
    assert forall i :: 0 <= i < |fs| ==> all[|es| + i] == fs[i];
    if i :| 0 <= i < |all| && Disordered(all[i]) && all[i].companyId == co {
      assert i >= |es| ==> all[i] == fs[i - |es|];
    }
    if DisorderOnlyOf(es, co) && DisorderOnlyOf(fs, co) {
      forall i | 0 <= i < |all| && Disordered(all[i]) ensures all[i].companyId == co {
        assert i >= |es| ==> all[i] == fs[i - |es|];
      }
    }
    if DisorderOnlyOf(all, co) {
      forall i | 0 <= i < |es| && Disordered(es[i]) ensures es[i].companyId == co { assert all[i] == es[i]; }
      forall i | 0 <= i < |fs| && Disordered(fs[i]) ensures fs[i].companyId == co { assert all[|es| + i] == fs[i]; }
    }
  }

  // ---- the batch replace -----------------------------------------------------------------------------------------

  /** The batch's writes to grants of the company: audited, and of both fields when they change a row. */
  predicate GridWrite(db0: Db, w: Change, co: Id) {
    match w
    case AddGrant(p, audited) => audited && p.companyId == co
    case SetGrant(id, scope, limit, _) => scope.Some? && limit.Some? && id in db0.perms && db0.perms[id].companyId == co
    case DropGrant(id, swept) => !swept && id in db0.perms && db0.perms[id].companyId == co
    case _ => false
  }

  predicate GridWrites(db0: Db, ws: seq<Change>, co: Id) { forall i :: 0 <= i < |ws| ==> GridWrite(db0, ws[i], co) }

  /** The grants that were there before the batch are still the same company's. */
  predicate OwnersFrom(db: Db, db0: Db, co: Id) {
    && db0.nextId <= db.nextId
    && forall i <- db.perms :: i in db0.perms && db0.perms[i].companyId == co ==> db.perms[i].companyId == co
  }

  lemma GridWriteRow(db: Db, db0: Db, w: Change, co: Id)
    requires IdsBelow(db0) && OwnersFrom(db, db0, co) && GridWrite(db0, w, co)
    ensures OwnersFrom(Apply(db, w), db0, co)
    ensures db.log <= Apply(db, w).log && DisorderOnlyOf(NewRows(db, Apply(db, w)), co)
    ensures db == db0 ==> HasDisorder(NewRows(db, Apply(db, w)), co)
  {
    var rows := NewRows(db, Apply(db, w));
    assert db == db0 ==> rows != [] && Disordered(rows[0]) && rows[0].companyId == co;
  }

  lemma {:induction false} GridWritesRows(db: Db, db0: Db, ws: seq<Change>, co: Id)
    requires IdsBelow(db0) && OwnersFrom(db, db0, co) && GridWrites(db0, ws, co)
    ensures db.log <= Exec(db, ws).log && DisorderOnlyOf(NewRows(db, Exec(db, ws)), co)
    ensures db == db0 && ws != [] ==> HasDisorder(NewRows(db, Exec(db, ws)), co)
    decreases ws
  {
    if ws != [] {
      var db1 := Apply(db, ws[0]);
      GridWriteRow(db, db0, ws[0], co);
      assert GridWrites(db0, ws[1..], co);
      GridWritesRows(db1, db0, ws[1..], co);
      NewRowsChain(db, db1, Exec(db, ws));
      DisorderConcat(NewRows(db, db1), NewRows(db1, Exec(db, ws)), co);
    }
  }

  lemma {:induction false} RevocationsWrite(db: Db, ids: seq<Id>, ps: seq<GrantInput>, co: Id)
    requires forall i <- ids :: i in db.perms && db.perms[i].companyId == co
    ensures GridWrites(db, Revocations(db, ids, ps), co)
    ensures Revocations(db, ids, ps) == [] <==> forall i <- ids :: HasKey(ps, db.perms[i].key)
  {
    if ids != [] {
      assert ids[0] in ids;
      RevocationsWrite(db, ids[1..], ps, co);
    }
  }

  /** What the current map leads to is the one grant of the role with that key. */
  ghost predicate LeadsToOwn(db: Db, current: map<Key, Id>, id: Id, co: Id) {
    && (forall k <- current :: IsGrant(db, id, k, current[k]) && db.perms[current[k]].companyId == co)
    && (forall i <- db.perms :: db.perms[i].roleId == id ==>
        db.perms[i].key in current && current[db.perms[i].key] == i)
  }

  lemma UpsertWrites(db: Db, current: map<Key, Id>, id: Id, co: Id, g: GrantInput)
    requires LeadsToOwn(db, current, id, co)
    ensures GridWrites(db, Upsert(db, current, id, co, g), co)
    ensures Upsert(db, current, id, co, g) == [] <==> HasAsListed(db, id, g)
  {
  }

  lemma {:induction false} UpsertsWrite(db: Db, current: map<Key, Id>, id: Id, co: Id, ps: seq<GrantInput>)
    requires LeadsToOwn(db, current, id, co)
    ensures GridWrites(db, Upserts(db, current, id, co, ps), co)
    ensures Upserts(db, current, id, co, ps) == [] <==> forall j :: 0 <= j < |ps| ==> HasAsListed(db, id, ps[j])
  {
    if ps != [] {
      UpsertWrites(db, current, id, co, ps[0]);
      UpsertsWrite(db, current, id, co, ps[1..]);
      assert forall j :: 0 < j < |ps| ==> ps[1..][j - 1] == ps[j];
      assert forall j :: 0 <= j < |ps[1..]| ==> ps[1..][j] == ps[j + 1];
    }
  }

  lemma CurrentLeadsToOwn(db: Db, id: Id, co: Id)
    requires Inv(db) && OwnRole(db, id, co)
    ensures (forall i <- GrantIds(db, id, co) :: i in db.perms)
    ensures LeadsToOwn(db, CurrentByKey(db, GrantIds(db, id, co)), id, co)
    ensures forall i :: i in GrantIds(db, id, co) <==> i in db.perms && db.perms[i].roleId == id
  {
    var ids := GrantIds(db, id, co);
    CurrentFacts(db, ids);
    var current := CurrentByKey(db, ids);
    forall i | i in db.perms && db.perms[i].roleId == id
      ensures i in ids && db.perms[i].key in current && current[db.perms[i].key] == i
    {
      assert OwnedAt(db, i) && IsGrantOf(db, id, co, i) && i < db.nextId;
      assert IsGrant(db, id, db.perms[i].key, current[db.perms[i].key]);
    }
  }

  lemma VersionBumpLeavesLog(db: Db, ws: seq<Change>, w: Change)
    requires w.SaveRole? && w.note.NoRow?
    ensures Exec(db, ws + [w]).log == Exec(db, ws).log
  {
    ExecConcat(db, ws, [w]);
    ExecOne(Exec(db, ws), w);
  }

  /** The batch's writes to grants: none exactly when the list is the grid. */
  lemma GridEdits(db: Db, id: Id, co: Id, ps: seq<GrantInput>) returns (ws: seq<Change>)
    requires Inv(db) && OwnRole(db, id, co)
    ensures GridWrites(db, ws, co) && (ws == [] <==> !ChangesGrid(db, id, ps))
    ensures BatchWrites(db, id, co, ps)
            == ws + [SaveRole(id, db.roles[id].(version := db.roles[id].version + 1), NoRow)]
  {
    var ids := GrantIds(db, id, co);
    CurrentLeadsToOwn(db, id, co);
    var current := CurrentByKey(db, ids);
    RevocationsWrite(db, ids, ps, co);
    UpsertsWrite(db, current, id, co, ps);
    ws := Revocations(db, ids, ps) + Upserts(db, current, id, co, ps);
  }

  /** A batch replace leaves disordered rows exactly when it changes the grid. */
  lemma ReplaceDisorders(db: Db, id: Id, co: Id, ps: seq<GrantInput>)
    requires Inv(db) && OwnRole(db, id, co)
    ensures (var rows := NewRows(db, Exec(db, BatchWrites(db, id, co, ps)));
             DisorderOnlyOf(rows, co) && (HasDisorder(rows, co) <==> ChangesGrid(db, id, ps)))
  {
    var ws := GridEdits(db, id, co, ps);
    GridWritesRows(db, db, ws, co);
    VersionBumpLeavesLog(db, ws, SaveRole(id, db.roles[id].(version := db.roles[id].version + 1), NoRow));
  }

  // ---- every request ---------------------------------------------------------------------------------------------

  predicate InOrder(es: seq<Event>) { forall e <- es :: !Disordered(e) }

  lemma {:induction false} SweepsInOrder(db: Db, ids: seq<Id>)
    ensures db.log <= Exec(db, Drops(ids)).log
    ensures InOrder(NewRows(db, Exec(db, Drops(ids))))
    decreases ids
  {
    if ids != [] {
      var w := DropGrant(ids[0], true);
      var db1, db2 := Apply(db, w), Exec(db, Drops(ids));
      SweepsInOrder(db1, ids[1..]);
      NewRowsChain(db, db1, db2);
      assert InOrder(NewRows(db, db1));
    }
  }

  lemma OrderlyRows(es: seq<Event>)
    requires RoleCreations(es)
    ensures InOrder(es)
  {
  }

  lemma CreateRoleInOrder(db: Db, cat: Catalogue, co: Id, name: string, limit: LimitInput, unscoped: bool,
          ps: seq<GrantInput>)
    requires IdsBelow(db)
    ensures (var plan := CreateRole(db, cat, co, name, limit, unscoped, ps);
             plan.Ok? ==> InOrder(NewRows(db, Exec(db, plan.value))))
  {
    var plan := CreateRole(db, cat, co, name, limit, unscoped, ps);
    if plan.Ok? {
      AdditionsPlant(db.nextId, co, ps);
      PlantingGrows(db, plan.value);
      OrderlyRows(NewRows(db, Exec(db, plan.value)));
    }
  }

  lemma DeleteRoleInOrder(db: Db, id: Id, co: Id)
    ensures (var plan := DeleteRole(db, id, co); plan.Ok? ==> InOrder(NewRows(db, Exec(db, plan.value))))
  {
    var plan := DeleteRole(db, id, co);
    if plan.Ok? {
      assert plan.value[1..] == [plan.value[1]];
      ExecOne(Apply(db, plan.value[0]), plan.value[1]);
      assert NewRows(db, Exec(db, plan.value)) == [RoleDeleted(co, id, db.roles[id].name)];
    }
  }

  lemma SeedInOrder(db: Db, co: Id, seeds: seq<RoleSeed>)
    requires IdsBelow(db)
    ensures InOrder(NewRows(db, Exec(db, SeedAll(db, co, seeds))))
  {
    SeedAllPlants(db, co, seeds);
    PlantingGrows(db, SeedAll(db, co, seeds));
    OrderlyRows(NewRows(db, Exec(db, SeedAll(db, co, seeds))));
  }

  predicate WritesOnce(r: Request) {
    || r.PatchRoleRequest? || r.CreatePermissionRequest? || r.PatchPermissionRequest? || r.DeletePermissionRequest?
    || r.CreateUserRequest? || r.PatchUserRequest?
  }

  lemma OnePlanned(db: Db, cat: Catalogue, r: Request)
    requires IdsBelow(db) && WritesOnce(r) && Plan(db, cat, r).Ok?
    ensures (var ws := Plan(db, cat, r).value; |ws| == 1 && ws == [ws[0]])
    ensures (var rows := NewRows(db, Apply(db, Plan(db, cat, r).value[0]));
             |rows| == 1 && (Disordered(rows[0]) <==> LeavesDisorder(db, cat, r))
             && (Disordered(rows[0]) ==> rows[0].companyId == r.companyId))
  {
  }

  lemma SingleDisorders(db: Db, cat: Catalogue, r: Request)
    requires IdsBelow(db) && WritesOnce(r) && Plan(db, cat, r).Ok?
    ensures (var rows := NewRows(db, Step(db, cat, r));
             DisorderOnlyOf(rows, r.companyId) && (HasDisorder(rows, r.companyId) <==> LeavesDisorder(db, cat, r)))
  {
    OnePlanned(db, cat, r);
    var w := Plan(db, cat, r).value[0];
    ExecOne(db, w);
    var rows := NewRows(db, Apply(db, w));
    assert HasDisorder(rows, r.companyId) <==> Disordered(rows[0]) && rows[0].companyId == r.companyId;
  }

  lemma InOrderHasNone(es: seq<Event>, co: Id)
    requires InOrder(es)
    ensures DisorderOnlyOf(es, co) && !HasDisorder(es, co)
  {
  }

  /**
   A request leaves rows that will not read back exactly when it is one of those above - a quick check of the tables
   and the request - and all such rows are its own company's.
   */
  lemma StepDisordersIff(db: Db, cat: Catalogue, r: Request)
    requires Inv(db)
    ensures (var rows := NewRows(db, Step(db, cat, r));
             DisorderOnlyOf(rows, r.companyId) && (HasDisorder(rows, r.companyId) <==> LeavesDisorder(db, cat, r)))
  {
    var rows := NewRows(db, Step(db, cat, r));
    if Plan(db, cat, r).Err? {
      InOrderHasNone(rows, r.companyId);
    } else if WritesOnce(r) {
      SingleDisorders(db, cat, r);
    } else if r.ReplaceRequest? {
      AcceptedBatch(db, cat, r.id, r.companyId, r.version, r.grants);
      ReplaceDisorders(db, r.id, r.companyId, r.grants);
    } else {
      match r {
        case CreateRoleRequest(co, name, limit, unscoped, ps) =>
          CreateRoleInOrder(db, cat, co, name, limit, unscoped, ps);
        case DeleteRoleRequest(co, id) => DeleteRoleInOrder(db, id, co);
        case SeedRequest(co, seeds) => SeedInOrder(db, co, seeds);
        case SweepRequest(co) => SweepsInOrder(db, OrphanIds(db, cat, co));
      }
      InOrderHasNone(rows, r.companyId);
    }
  }

  /** Some request of the company in the run leaves disordered rows. */
  predicate DisorderedBy(db: Db, cs: seq<Call>, co: Id)
    decreases cs
  {
    cs != [] &&
    ((cs[0].request.companyId == co && LeavesDisorder(db, cs[0].cat, cs[0].request))
     || DisorderedBy(Step(db, cs[0].cat, cs[0].request), cs[1..], co))
  }

  /** Over a run, the company's trail gains disordered rows exactly when one of its requests is of that kind. */
  lemma {:induction false} RunDisordersIff(db: Db, cs: seq<Call>, co: Id)
    requires Inv(db)
    ensures db.log <= Run(db, cs).log
    ensures HasDisorder(NewRows(db, Run(db, cs)), co) <==> DisorderedBy(db, cs, co)
    decreases cs
  {
    if cs != [] {
      var db1, db2 := Step(db, cs[0].cat, cs[0].request), Run(db, cs);
      StepDisordersIff(db, cs[0].cat, cs[0].request);
      StepGrowsLog(db, cs[0].cat, cs[0].request);
      StepKeepsInv(db, cs[0].cat, cs[0].request);
      RunDisordersIff(db1, cs[1..], co);
      NewRowsChain(db, db1, db2);
      DisorderConcat(NewRows(db, db1), NewRows(db1, db2), co);
    }
  }
}
