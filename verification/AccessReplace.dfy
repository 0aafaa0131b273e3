/** The batch replace: it rejects and changes nothing, or leaves the role's grid exactly as listed. */
module AccessReplace {
  import opened Prelude
  import opened AccessControl
  import opened AccessInvariants

  /** The row says what the item asks for. */
  predicate Matches(p: Permission, roleId: Id, g: GrantInput) {
    p.roleId == roleId && p.key == g.key && p.scope == g.scope && p.limit == StoredLimit(g.limit)
  }

  ghost predicate Listed(p: Permission, roleId: Id, ps: seq<GrantInput>) {
    exists j :: 0 <= j < |ps| && Matches(p, roleId, ps[j])
  }

  lemma UndifferingMatches(p: Permission, roleId: Id, g: GrantInput)
    requires p.roleId == roleId && p.key == g.key && !Differs(p, g) && Acceptable(g.limit)
    ensures Matches(p, roleId, g)
  {
    if g.limit.Amount? {
      assert g.limit.amount == p.limit.value as real;
      HalfUpOfWhole(p.limit.value);
    }
  }

  lemma HalfUpOfWhole(n: nat)
    ensures (n as real + 0.5).Floor == n
  {
  }

  // ---- revocations --------------------------------------------------------------------------------------------------

  predicate Revoked(db0: Db, ids: seq<Id>, ps: seq<GrantInput>, i: Id)
    requires forall x <- ids :: x in db0.perms
  {
    i in ids && !HasKey(ps, db0.perms[i].key)
  }

  lemma {:induction false} RevocationsEffect(db: Db, db0: Db, ids: seq<Id>, ps: seq<GrantInput>)
    requires forall x <- ids :: x in db0.perms
    ensures (var db' := Exec(db, Revocations(db0, ids, ps));
             && db'.nextId == db.nextId
             && (forall i :: i in db'.perms <==> i in db.perms && !Revoked(db0, ids, ps, i))
             && (forall i <- db'.perms :: db'.perms[i] == db.perms[i]))
    decreases ids
  {
    if ids != [] {
      if HasKey(ps, db0.perms[ids[0]].key) {
        RevocationsEffect(db, db0, ids[1..], ps);
        assert Revocations(db0, ids, ps) == Revocations(db0, ids[1..], ps);
      } else {
        var w := DropGrant(ids[0], false);
        RevocationsEffect(Apply(db, w), db0, ids[1..], ps);
        assert Revocations(db0, ids, ps)[0] == w && Revocations(db0, ids, ps)[1..] == Revocations(db0, ids[1..], ps);
      }
      assert forall i :: Revoked(db0, ids, ps, i)
               <==> (i == ids[0] && !HasKey(ps, db0.perms[i].key)) || Revoked(db0, ids[1..], ps, i);
    }
  }

  // ---- additions and changes --------------------------------------------------------------------------------------

  /** The current map leads each key to the role's row with that key. */
  ghost predicate LeadsHome(db0: Db, current: map<Key, Id>, roleId: Id) {
    forall k <- current ::
        current[k] in db0.perms && db0.perms[current[k]].key == k && db0.perms[current[k]].roleId == roleId
  }

  /** The rows the list is still to be compared with are as they were when the batch began. */
  ghost predicate Pending(db: Db, db0: Db, current: map<Key, Id>, ps: seq<GrantInput>)
    requires forall k <- current :: current[k] in db0.perms
  {
    forall j :: 0 <= j < |ps| && ps[j].key in current ==>
      current[ps[j].key] in db.perms && db.perms[current[ps[j].key]] == db0.perms[current[ps[j].key]]
  }

  ghost predicate SameRow(db: Db, db': Db, x: Id) {
    (x in db'.perms <==> x in db.perms) && (x in db.perms ==> db'.perms[x] == db.perms[x])
  }

  lemma {:induction false} UpsertsFrame(db: Db, db0: Db, current: map<Key, Id>, roleId: Id, co: Id,
          ps: seq<GrantInput>, x: Id)
    requires forall k <- current :: current[k] in db0.perms
    requires x < db.nextId && forall j :: 0 <= j < |ps| && ps[j].key in current ==> current[ps[j].key] != x
    ensures SameRow(db, Exec(db, Upserts(db0, current, roleId, co, ps)), x)
    decreases ps
  {
    if ps != [] {
      var ws := Upsert(db0, current, roleId, co, ps[0]);
      if ws != [] { ExecOne(db, ws[0]); }
      assert forall j :: 0 <= j < |ps[1..]| ==> ps[1..][j] == ps[j + 1];
      UpsertsFrame(Exec(db, ws), db0, current, roleId, co, ps[1..], x);
      ExecConcat(db, ws, Upserts(db0, current, roleId, co, ps[1..]));
    }
  }

  lemma UpsertStep(db: Db, db0: Db, current: map<Key, Id>, roleId: Id, co: Id, ps: seq<GrantInput>) returns (i: Id)
    requires LeadsHome(db0, current, roleId) && IdsBelow(db) && Pending(db, db0, current, ps)
    requires DistinctKeys(ps) && ps != [] && Acceptable(ps[0].limit)
    ensures (var db1 := Exec(db, Upsert(db0, current, roleId, co, ps[0]));
             && IdsBelow(db1) && Pending(db1, db0, current, ps[1..])
             && i in db1.perms && Matches(db1.perms[i], roleId, ps[0])
             && (if ps[0].key in current then i == current[ps[0].key] else i == db.nextId)
             && (forall x :: x in db1.perms && x !in db.perms ==> x == i)
             && (forall x <- db.perms :: x != i ==> SameRow(db, db1, x)))
  {
    var ws := Upsert(db0, current, roleId, co, ps[0]);
    i := if ps[0].key in current then current[ps[0].key] else db.nextId;
    if ws != [] {
      ExecOne(db, ws[0]);
      ApplyKeepsIds(db, ws[0]);
    } else {
      UndifferingMatches(db.perms[i], roleId, ps[0]);
    }
    var db1 := Exec(db, ws);
    forall j | 0 <= j < |ps[1..]| && ps[1..][j].key in current
      ensures current[ps[1..][j].key] in db1.perms
              && db1.perms[current[ps[1..][j].key]] == db0.perms[current[ps[1..][j].key]]
    {
      assert ps[1..][j] == ps[j + 1] && ps[0].key != ps[j + 1].key;
    }
  }

  /** Item j ends up in a row of its own: the one its key had, or a new one. */
  lemma {:induction false} ItemSettles(db: Db, db0: Db, current: map<Key, Id>, roleId: Id, co: Id,
          ps: seq<GrantInput>, j: nat)
    returns (i: Id)
    requires LeadsHome(db0, current, roleId) && IdsBelow(db) && Pending(db, db0, current, ps)
    requires DistinctKeys(ps) && j < |ps| && forall m :: 0 <= m < |ps| ==> Acceptable(ps[m].limit)
    ensures (var db' := Exec(db, Upserts(db0, current, roleId, co, ps));
             i in db'.perms && Matches(db'.perms[i], roleId, ps[j])
                 && (ps[j].key in current ==> i == current[ps[j].key]))
    decreases ps
  {
    var ws := Upsert(db0, current, roleId, co, ps[0]);
    var db1 := Exec(db, ws);
    ExecConcat(db, ws, Upserts(db0, current, roleId, co, ps[1..]));
    assert forall m :: 0 <= m < |ps[1..]| ==> ps[1..][m] == ps[m + 1];
    var first := UpsertStep(db, db0, current, roleId, co, ps);
    if j == 0 {
      i := first;
      forall m | 0 <= m < |ps[1..]| && ps[1..][m].key in current ensures current[ps[1..][m].key] != i {
        assert ps[m + 1].key != ps[0].key && current[ps[m + 1].key] in db.perms;
      }
      UpsertsFrame(db1, db0, current, roleId, co, ps[1..], i);
    } else {
      i := ItemSettles(db1, db0, current, roleId, co, ps[1..], j - 1);
    }
  }

  /** Rows that were not there before are rows of the list. */
  lemma {:induction false} NewRowsAreListed(db: Db, db0: Db, current: map<Key, Id>, roleId: Id, co: Id,
          ps: seq<GrantInput>, i: Id)
    requires LeadsHome(db0, current, roleId) && IdsBelow(db) && Pending(db, db0, current, ps)
    requires DistinctKeys(ps) && forall m :: 0 <= m < |ps| ==> Acceptable(ps[m].limit)
    requires i in Exec(db, Upserts(db0, current, roleId, co, ps)).perms && i !in db.perms
    ensures Listed(Exec(db, Upserts(db0, current, roleId, co, ps)).perms[i], roleId, ps)
    decreases ps
  {
    if ps != [] {
      var ws := Upsert(db0, current, roleId, co, ps[0]);
      var db1, db' := Exec(db, ws), Exec(db, Upserts(db0, current, roleId, co, ps));
      ExecConcat(db, ws, Upserts(db0, current, roleId, co, ps[1..]));
      assert forall m :: 0 <= m < |ps[1..]| ==> ps[1..][m] == ps[m + 1];
      var first := UpsertStep(db, db0, current, roleId, co, ps);
      if i in db1.perms {
        assert forall m :: 0 <= m < |ps[1..]| && ps[1..][m].key in current ==> current[ps[1..][m].key] in db.perms;
        UpsertsFrame(db1, db0, current, roleId, co, ps[1..], i);
        assert Matches(db'.perms[i], roleId, ps[0]);
      } else {
        NewRowsAreListed(db1, db0, current, roleId, co, ps[1..], i);
        var j :| 0 <= j < |ps[1..]| && Matches(db'.perms[i], roleId, ps[1..][j]);
        assert Matches(db'.perms[i], roleId, ps[j + 1]);
      }
    }
  }

  // ---- the whole batch --------------------------------------------------------------------------------------------

  ghost predicate HasRow(db: Db, roleId: Id, g: GrantInput) {
    exists i :: i in db.perms && Matches(db.perms[i], roleId, g)
  }

  /** The role's grid is the list: every item has its row, and every row is an item. */
  ghost predicate GridIsList(db: Db, roleId: Id, ps: seq<GrantInput>) {
    && (forall j :: 0 <= j < |ps| ==> HasRow(db, roleId, ps[j]))
    && (forall i <- db.perms :: db.perms[i].roleId == roleId ==> Listed(db.perms[i], roleId, ps))
  }

  /** A grant whose key the list names keeps its id and version. */
  ghost predicate KeepsIds(db: Db, db': Db, roleId: Id, ps: seq<GrantInput>) {
    forall i <- db.perms :: db.perms[i].roleId == roleId && HasKey(ps, db.perms[i].key) ==>
      IsGrant(db', roleId, db.perms[i].key, i) && db'.perms[i].version == db.perms[i].version
  }

  ghost predicate OtherRolesUntouched(db: Db, db': Db, roleId: Id) {
    && (forall i <- db.perms :: db.perms[i].roleId != roleId ==> i in db'.perms && db'.perms[i] == db.perms[i])
    && (forall i <- db'.perms :: db'.perms[i].roleId != roleId ==> i in db.perms)
  }

  lemma UpsertsKeepVersion(db: Db, db0: Db, current: map<Key, Id>, roleId: Id, co: Id, ps: seq<GrantInput>, x: Id)
    requires LeadsHome(db0, current, roleId) && x in db.perms && x < db.nextId && x in db0.perms
    requires db.perms[x].version == db0.perms[x].version
    ensures (var db' := Exec(db, Upserts(db0, current, roleId, co, ps));
             x in db'.perms && db'.perms[x].version == db0.perms[x].version)
    decreases ps
  {
    if ps != [] {
      var ws := Upsert(db0, current, roleId, co, ps[0]);
      if ws != [] { ExecOne(db, ws[0]); }
      UpsertsKeepVersion(Exec(db, ws), db0, current, roleId, co, ps[1..], x);
      ExecConcat(db, ws, Upserts(db0, current, roleId, co, ps[1..]));
    }
  }

  /** The pieces of an accepted batch. */
  ghost predicate Accepted(db: Db, cat: Catalogue, id: Id, co: Id, version: nat, ps: seq<GrantInput>) {
    Inv(db) && ReplacePermissions(db, cat, id, co, version, ps).Ok?
  }

  function CurrentOf(db: Db, id: Id, co: Id): map<Key, Id> { CurrentByKey(db, GrantIds(db, id, co)) }

  /** For a role of the company, the current map holds exactly the role's rows. */
  lemma CurrentIsTheGrid(db: Db, id: Id, co: Id)
    requires Inv(db) && OwnRole(db, id, co)
    ensures LeadsHome(db, CurrentOf(db, id, co), id)
    ensures forall i <- db.perms :: db.perms[i].roleId == id ==>
            db.perms[i].key in CurrentOf(db, id, co) && CurrentOf(db, id, co)[db.perms[i].key] == i
    ensures forall i :: i in GrantIds(db, id, co) <==> i in db.perms && db.perms[i].roleId == id
  {
    var ids := GrantIds(db, id, co);
    CurrentFacts(db, ids);
    forall i | i in db.perms && db.perms[i].roleId == id
      ensures i in ids && db.perms[i].key in CurrentOf(db, id, co) && CurrentOf(db, id, co)[db.perms[i].key] == i
    {
      assert OwnedAt(db, i) && IsGrantOf(db, id, co, i) && i < db.nextId;
      var x := CurrentOf(db, id, co)[db.perms[i].key];
      assert IsGrant(db, db.perms[i].roleId, db.perms[i].key, x);
    }
  }

  /** The state between the revocations and the upserts. */
  function AfterRevocations(db: Db, id: Id, co: Id, ps: seq<GrantInput>): Db {
    Exec(db, Revocations(db, GrantIds(db, id, co), ps))
  }

  lemma RevokedState(db: Db, id: Id, co: Id, ps: seq<GrantInput>)
    requires Inv(db) && OwnRole(db, id, co)
    ensures (var db1 := AfterRevocations(db, id, co, ps);
             && IdsBelow(db1) && db1.nextId == db.nextId && db1.roles == db.roles && db1.users == db.users
             && (forall i :: i in db1.perms
                   <==> i in db.perms && (db.perms[i].roleId == id ==> HasKey(ps, db.perms[i].key)))
             && (forall i <- db1.perms :: db1.perms[i] == db.perms[i])
             && LeadsHome(db, CurrentOf(db, id, co), id) && Pending(db1, db, CurrentOf(db, id, co), ps))
  {
    var ids := GrantIds(db, id, co);
    CurrentIsTheGrid(db, id, co);
    RevocationsEffect(db, db, ids, ps);
    RevocationsFit(db, db, ids, ps);
    GrantChangesLeaveRoles(db, Revocations(db, ids, ps));
    ExecKeepsInv(db, Revocations(db, ids, ps));
  }

  /** Revocations and upserts are writes to grants only. */
  lemma GridWritesLeaveRoles(db: Db, id: Id, co: Id, ps: seq<GrantInput>)
    requires Inv(db) && OwnRole(db, id, co)
    ensures LeadsHome(db, CurrentOf(db, id, co), id)
    ensures (var db2 := Exec(AfterRevocations(db, id, co, ps), Upserts(db, CurrentOf(db, id, co), id, co, ps));
             db2.roles == db.roles && db2.users == db.users)
  {
    RevokedState(db, id, co, ps);
    UpsertsChangeGrants(db, CurrentOf(db, id, co), id, co, ps);
    GrantChangesLeaveRoles(AfterRevocations(db, id, co, ps), Upserts(db, CurrentOf(db, id, co), id, co, ps));
  }

  lemma WritesInParts(db: Db, id: Id, co: Id, ps: seq<GrantInput>)
    requires OwnRole(db, id, co) && LeadsHome(db, CurrentOf(db, id, co), id)
    ensures (var db2 := Exec(AfterRevocations(db, id, co, ps), Upserts(db, CurrentOf(db, id, co), id, co, ps));
             Exec(db, BatchWrites(db, id, co, ps))
             == Apply(db2, SaveRole(id, db.roles[id].(version := db.roles[id].version + 1), NoRow)))
  {
    var ids := GrantIds(db, id, co);
    ExecThree(db, Revocations(db, ids, ps), Upserts(db, CurrentOf(db, id, co), id, co, ps),
              SaveRole(id, db.roles[id].(version := db.roles[id].version + 1), NoRow));
  }

  lemma VersionBump(db: Db, id: Id)
    requires id in db.roles
    ensures (var db' := Apply(db, SaveRole(id, db.roles[id].(version := db.roles[id].version + 1), NoRow));
             && db'.perms == db.perms && db'.log == db.log && db'.users == db.users
             && db'.roles == db.roles[id := db.roles[id].(version := db.roles[id].version + 1)])
  {
    assert RenamedUsers(db.users, db.roles[id].companyId, db.roles[id].name, db.roles[id].name) == db.users;
  }

  lemma BatchParts(db: Db, cat: Catalogue, id: Id, co: Id, version: nat, ps: seq<GrantInput>)
    requires Accepted(db, cat, id, co, version, ps)
    ensures OwnRole(db, id, co) && ValidPayload(cat, ps) && db.roles[id].version == version
    ensures LeadsHome(db, CurrentOf(db, id, co), id)
    ensures (var db1 := AfterRevocations(db, id, co, ps);
             var db2 := Exec(db1, Upserts(db, CurrentOf(db, id, co), id, co, ps));
             var db' := Exec(db, ReplacePermissions(db, cat, id, co, version, ps).value);
             && db2.roles == db.roles && db'.perms == db2.perms && db'.log == db2.log
             && db'.roles == db.roles[id := db.roles[id].(version := version + 1)] && db'.users == db.users)
  {
    AcceptedBatch(db, cat, id, co, version, ps);
    GridWritesLeaveRoles(db, id, co, ps);
    WritesInParts(db, id, co, ps);
    VersionBump(Exec(AfterRevocations(db, id, co, ps), Upserts(db, CurrentOf(db, id, co), id, co, ps)), id);
  }

  lemma {:induction false} UpsertsChangeGrants(db0: Db, current: map<Key, Id>, roleId: Id, co: Id, ps: seq<GrantInput>)
    requires forall k <- current :: current[k] in db0.perms
    ensures GrantChanges(Upserts(db0, current, roleId, co, ps))
  {
    if ps != [] { UpsertsChangeGrants(db0, current, roleId, co, ps[1..]); }
  }

  lemma RowsAreListed(db: Db, cat: Catalogue, id: Id, co: Id, version: nat, ps: seq<GrantInput>, i: Id)
    requires Accepted(db, cat, id, co, version, ps)
    requires (var db' := Exec(db, ReplacePermissions(db, cat, id, co, version, ps).value);
              i in db'.perms && db'.perms[i].roleId == id)
    ensures Listed(Exec(db, ReplacePermissions(db, cat, id, co, version, ps).value).perms[i], id, ps)
  {
    BatchParts(db, cat, id, co, version, ps);
    RevokedState(db, id, co, ps);
    CurrentIsTheGrid(db, id, co);
    var db1, current := AfterRevocations(db, id, co, ps), CurrentOf(db, id, co);
    var db2 := Exec(db1, Upserts(db, current, id, co, ps));
    if i !in db1.perms {
      NewRowsAreListed(db1, db, current, id, co, ps, i);
    } else {
      assert i < db1.nextId;
      if db.perms[i].roleId == id {
        var j :| 0 <= j < |ps| && ps[j].key == db.perms[i].key;
        var x := ItemSettles(db1, db, current, id, co, ps, j);
        assert Matches(db2.perms[i], id, ps[j]);
      } else {
        UpsertsFrame(db1, db, current, id, co, ps, i);
      }
    }
  }

  lemma ItemsHaveRows(db: Db, cat: Catalogue, id: Id, co: Id, version: nat, ps: seq<GrantInput>, j: nat) returns (i: Id)
    requires Accepted(db, cat, id, co, version, ps) && j < |ps|
    ensures (var db' := Exec(db, ReplacePermissions(db, cat, id, co, version, ps).value);
             i in db'.perms && Matches(db'.perms[i], id, ps[j]))
    ensures ps[j].key in CurrentOf(db, id, co) ==> i == CurrentOf(db, id, co)[ps[j].key]
  {
    BatchParts(db, cat, id, co, version, ps);
    RevokedState(db, id, co, ps);
    i := ItemSettles(AfterRevocations(db, id, co, ps), db, CurrentOf(db, id, co), id, co, ps, j);
  }

  lemma NamedGrantsKeepIds(db: Db, cat: Catalogue, id: Id, co: Id, version: nat, ps: seq<GrantInput>)
    requires Accepted(db, cat, id, co, version, ps)
    ensures KeepsIds(db, Exec(db, ReplacePermissions(db, cat, id, co, version, ps).value), id, ps)
  {
    var db' := Exec(db, ReplacePermissions(db, cat, id, co, version, ps).value);
    BatchParts(db, cat, id, co, version, ps);
    RevokedState(db, id, co, ps);
    CurrentIsTheGrid(db, id, co);
    forall i | i in db.perms && db.perms[i].roleId == id && HasKey(ps, db.perms[i].key)
      ensures IsGrant(db', id, db.perms[i].key, i) && db'.perms[i].version == db.perms[i].version
    {
      var j :| 0 <= j < |ps| && ps[j].key == db.perms[i].key;
      var x := ItemsHaveRows(db, cat, id, co, version, ps, j);
      assert x == i;
      var db1 := AfterRevocations(db, id, co, ps);
      assert i in db1.perms;
      UpsertsKeepVersion(db1, db, CurrentOf(db, id, co), id, co, ps, i);
    }
  }

  lemma OthersStay(db: Db, cat: Catalogue, id: Id, co: Id, version: nat, ps: seq<GrantInput>)
    requires Accepted(db, cat, id, co, version, ps)
    ensures OtherRolesUntouched(db, Exec(db, ReplacePermissions(db, cat, id, co, version, ps).value), id)
  {
    var db' := Exec(db, ReplacePermissions(db, cat, id, co, version, ps).value);
    BatchParts(db, cat, id, co, version, ps);
    RevokedState(db, id, co, ps);
    var db1, current := AfterRevocations(db, id, co, ps), CurrentOf(db, id, co);
    forall i | i in db.perms && db.perms[i].roleId != id ensures i in db'.perms && db'.perms[i] == db.perms[i] {
      assert i in db1.perms && i < db1.nextId;
      UpsertsFrame(db1, db, current, id, co, ps, i);
    }
    forall i | i in db'.perms && db'.perms[i].roleId != id ensures i in db.perms {
      if i !in db1.perms { NewRowsAreListed(db1, db, current, id, co, ps, i); }
    }
  }

  /**
   An accepted batch leaves the role's grid equal to the supplied list; grants whose key the list names keep their ids;
   other roles' grants, the users and all other roles stay; the role's version goes up by one. A rejected batch
   changes nothing.
   */
  lemma ReplaceIsExact(db: Db, cat: Catalogue, id: Id, co: Id, version: nat, ps: seq<GrantInput>)
    requires Inv(db)
    ensures (var db' := Step(db, cat, ReplaceRequest(co, id, version, ps));
             if ReplacePermissions(db, cat, id, co, version, ps).Err? then db' == db
             else
               && GridIsList(db', id, ps) && KeepsIds(db, db', id, ps) && OtherRolesUntouched(db, db', id)
               && id in db.roles && db'.roles == db.roles[id := db.roles[id].(version := version + 1)]
                  && db'.users == db.users)
  {
    if ReplacePermissions(db, cat, id, co, version, ps).Ok? {
      var db' := Exec(db, ReplacePermissions(db, cat, id, co, version, ps).value);
      BatchParts(db, cat, id, co, version, ps);
      NamedGrantsKeepIds(db, cat, id, co, version, ps);
      OthersStay(db, cat, id, co, version, ps);
      forall j | 0 <= j < |ps| ensures HasRow(db', id, ps[j]) {
        var i := ItemsHaveRows(db, cat, id, co, version, ps, j);
      }
      forall i | i in db'.perms && db'.perms[i].roleId == id ensures Listed(db'.perms[i], id, ps) {
        RowsAreListed(db, cat, id, co, version, ps, i);
      }
    }
  }

  // ---- resubmitting the same list ---------------------------------------------------------------------------------

  /** The limit has at most four decimals, so the column stores it as it is. */
  predicate Exact(l: LimitInput) {
    l.Amount? ==> l.amount.Floor as real == l.amount
  }

  predicate AllExact(ps: seq<GrantInput>) { forall j :: 0 <= j < |ps| ==> Exact(ps[j].limit) }

  lemma MatchedItem(p: Permission, roleId: Id, g: GrantInput)
    requires Matches(p, roleId, g) && Acceptable(g.limit)
    ensures Differs(p, g) <==> !Exact(g.limit)
    ensures Exact(g.limit) ==> !Narrows(p, g.scope, g.limit)
  {
    if g.limit.Amount? {
      var n := g.limit.amount.Floor;
      if Exact(g.limit) {
        HalfUpOfWhole(n);
      } else {
        assert (p.limit.value as real).Floor == p.limit.value;
      }
    }
  }

  /** Each key of the list has its row, and that row matches. */
  ghost predicate Settled(db: Db, current: map<Key, Id>, roleId: Id, ps: seq<GrantInput>) {
    forall j :: 0 <= j < |ps| ==>
      ps[j].key in current && current[ps[j].key] in db.perms && Matches(db.perms[current[ps[j].key]], roleId, ps[j])
  }

  lemma {:induction false} SettledUpserts(db: Db, db0: Db, current: map<Key, Id>, roleId: Id, co: Id,
          ps: seq<GrantInput>)
    requires LeadsHome(db0, current, roleId) && IdsBelow(db) && Pending(db, db0, current, ps)
             && Settled(db0, current, roleId, ps)
    requires DistinctKeys(ps) && forall m :: 0 <= m < |ps| ==> Acceptable(ps[m].limit)
    ensures |Exec(db, Upserts(db0, current, roleId, co, ps)).log| >= |db.log|
    ensures |Exec(db, Upserts(db0, current, roleId, co, ps)).log| == |db.log| <==> AllExact(ps)
    decreases ps
  {
    if ps != [] {
      var ws := Upsert(db0, current, roleId, co, ps[0]);
      var db1 := Exec(db, ws);
      MatchedItem(db0.perms[current[ps[0].key]], roleId, ps[0]);
      var i := UpsertStep(db, db0, current, roleId, co, ps);
      if ws != [] { ExecOne(db, ws[0]); }
      assert forall m :: 0 <= m < |ps[1..]| ==> ps[1..][m] == ps[m + 1];
      SettledUpserts(db1, db0, current, roleId, co, ps[1..]);
      ExecConcat(db, ws, Upserts(db0, current, roleId, co, ps[1..]));
    }
  }

  lemma {:induction false} NothingRevoked(db: Db, ids: seq<Id>, ps: seq<GrantInput>)
    requires forall i <- ids :: i in db.perms && HasKey(ps, db.perms[i].key)
    ensures Revocations(db, ids, ps) == []
  {
    if ids != [] {
      assert ids[0] in ids;
      NothingRevoked(db, ids[1..], ps);
    }
  }

  lemma ListedHasKey(p: Permission, roleId: Id, ps: seq<GrantInput>)
    requires Listed(p, roleId, ps)
    ensures HasKey(ps, p.key)
  {
    var j :| 0 <= j < |ps| && Matches(p, roleId, ps[j]);
    assert ps[j].key == p.key;
  }

  lemma GridSettles(db: Db, id: Id, co: Id, ps: seq<GrantInput>)
    requires Inv(db) && OwnRole(db, id, co) && GridIsList(db, id, ps)
    ensures Settled(db, CurrentOf(db, id, co), id, ps)
    ensures (forall i <- GrantIds(db, id, co) :: i in db.perms) && Revocations(db, GrantIds(db, id, co), ps) == []
  {
    CurrentIsTheGrid(db, id, co);
    forall j | 0 <= j < |ps|
      ensures ps[j].key in CurrentOf(db, id, co) && Matches(db.perms[CurrentOf(db, id, co)[ps[j].key]], id, ps[j])
    {
      assert HasRow(db, id, ps[j]);
      var i :| i in db.perms && Matches(db.perms[i], id, ps[j]);
    }
    forall i | i in GrantIds(db, id, co) ensures HasKey(ps, db.perms[i].key) { ListedHasKey(db.perms[i], id, ps); }
    NothingRevoked(db, GrantIds(db, id, co), ps);
  }

  lemma ExactListStands(db: Db, cat: Catalogue, id: Id, co: Id, ps: seq<GrantInput>)
    requires Inv(db) && OwnRole(db, id, co) && GridIsList(db, id, ps) && ValidPayload(cat, ps) && AllExact(ps)
    requires forall i <- GrantIds(db, id, co) :: i in db.perms
    ensures !LosesGround(db, cat, GrantIds(db, id, co), ps)
  {
    forall i | i in GrantIds(db, id, co) ensures StandsIn(db.perms[i], ps) {
      ListedHasKey(db.perms[i], id, ps);
      var j :| 0 <= j < |ps| && Matches(db.perms[i], id, ps[j]);
      MatchedItem(db.perms[i], id, ps[j]);
      forall m | 0 <= m < |ps| && ps[m].key == db.perms[i].key ensures !Narrows(db.perms[i], ps[m].scope, ps[m].limit) {
        assert m == j;
      }
    }
  }

  /**
   Sending the same list again, with the new version, is accepted without writing an audit row exactly when no limit
   in it has more than four decimals. (A limit the column rounds differs from what is stored each time: it is saved
   and audited again, or for ADMIN rejected as a narrowing when it was rounded up.)
   */
  lemma ResubmissionIsQuietIffExact(db: Db, cat: Catalogue, id: Id, co: Id, version: nat, ps: seq<GrantInput>)
    requires Accepted(db, cat, id, co, version, ps)
    ensures (var db' := Step(db, cat, ReplaceRequest(co, id, version, ps));
             var again := ReplacePermissions(db', cat, id, co, version + 1, ps);
             again.Ok? && |Exec(db', again.value).log| == |db'.log| <==> AllExact(ps))
  {
    var db' := Step(db, cat, ReplaceRequest(co, id, version, ps));
    var again := ReplacePermissions(db', cat, id, co, version + 1, ps);
    ReplaceIsExact(db, cat, id, co, version, ps);
    BatchParts(db, cat, id, co, version, ps);
    StepKeepsInv(db, cat, ReplaceRequest(co, id, version, ps));
    GridSettles(db', id, co, ps);
    if AllExact(ps) {
      ExactListStands(db', cat, id, co, ps);
      assert again.Ok?;
    }
    if again.Ok? {
      BatchParts(db', cat, id, co, version + 1, ps);
      RevokedState(db', id, co, ps);
      SettledUpserts(AfterRevocations(db', id, co, ps), db', CurrentOf(db', id, co), id, co, ps);
    }
  }

  /** One custom role without grants. */
  const ONE_ROLE := Db(map[0 := Role(1, "Clerk", false, None, false, 1)], map[], map[], [], 1)

  /** A list with one limit of five decimals, 0.00005, is accepted, and accepted quietly never again. */
  lemma FiveDecimalsAreNeverQuiet()
    ensures (var cat: Catalogue := map["reports" := {READ}];
             var ps := [GrantInput(Key("reports", READ), ALL, Amount(0.5))];
             var db' := Step(ONE_ROLE, cat, ReplaceRequest(1, 0, 1, ps));
             var again := ReplacePermissions(db', cat, 0, 1, 2, ps);
             && ReplacePermissions(ONE_ROLE, cat, 0, 1, 1, ps).Ok?
             && !(again.Ok? && |Exec(db', again.value).log| == |db'.log|))
  {
    var cat: Catalogue := map["reports" := {READ}];
    var ps := [GrantInput(Key("reports", READ), ALL, Amount(0.5))];
    assert ps[0].limit.amount.Floor == 0 && !Exact(ps[0].limit);
    ResubmissionIsQuietIffExact(ONE_ROLE, cat, 0, 1, 1, ps);
  }
}
