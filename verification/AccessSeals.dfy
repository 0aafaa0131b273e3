/**
 From access-control requests to the sealed audit trail: every audit row a run of requests writes is turned into the
 content RealAuditService (or the sweep) seals, and the requests alone then decide whether the company's chain verifies.
 */
module AccessSeals {
  import opened Prelude
  import opened Json
  import opened SealText
  import opened SealChain
  import opened AuditChain
  import opened AuditPayloads
  import AC = AccessControl
  import AccessInvariants
  import AccessReplay
  import AccessTrail

  /** What an event leaves open about its row: who and when, limits as text, and user columns nothing else needs. */
  datatype Told = Told(actor: string, at: Instant, oldScope: AC.Scope, oldLimit: Json, newLimit: Json,
                       email: string, oldName: string, newName: string, oldPhone: Json, newPhone: Json)

  function ActionText(a: AC.Action): string {
    match a
    case CREATE => "CREATE"
    case READ => "READ"
    case UPDATE => "UPDATE"
    case DELETE => "DELETE"
    case POST => "POST"
    case CANCEL => "CANCEL"
    case APPROVE => "APPROVE"
    case REJECT => "REJECT"
  }

  function ScopeText(s: AC.Scope): string { if s == AC.ALL then "ALL" else "ASSIGNED" }

  function GrantText(key: AC.Key, scope: AC.Scope): Json {
    GrantPayload(key.resource, ActionText(key.action), ScopeText(scope))
  }

  function PatchText(changed: bool, scope: AC.Scope, limitChanged: bool, limit: Json): Json {
    PatchPayload(if changed then Some(ScopeText(scope)) else None, if limitChanged then Some(limit) else None)
  }

  /** A role patch: the name if it changed, and the supplied limit and flag, in one of the role's two states. */
  function RoleText(e: AC.Event, role: AC.Role, limit: Json): Json
    requires e.RoleUpdated?
  {
    RolePatchPayload(if e.before.name != e.after.name then Some(role.name) else None,
                     if e.limitSet then Some(limit) else None, if e.unscopedSet then Some(role.isUnscoped) else None)
  }

  function BeforeOf(idText: AC.Id -> string, t: Told, e: AC.Event): Json {
    match e
    case RoleUpdated(_, _, before, _, _, _) => RoleText(e, before, t.oldLimit)
    case RoleDeleted(_, _, name) => RoleNamePayload(name)
    case UserUpdated(_, _, oldRole, _) => UserPayload(t.oldName, oldRole, t.oldPhone)
    case PermissionUpdated(_, _, scope, limitSet) => PatchText(scope.Some?, t.oldScope, limitSet, t.oldLimit)
    case PermissionDeleted(_, _, roleId, key, scope, swept) =>
      if swept then SweptPayload(ActionText(key.action), idText(roleId), key.resource, ScopeText(scope))
      else GrantText(key, scope)
    case _ => JNull
  }

  function AfterOf(t: Told, e: AC.Event): Json {
    match e
    case RoleCreated(_, _, name, isUnscoped) => RoleCreationPayload(name, isUnscoped)
    case RoleUpdated(_, _, _, after, _, _) => RoleText(e, after, t.newLimit)
    case UserCreated(_, _, roleName) => UserCreationPayload(t.email, t.newName, roleName)
    case UserUpdated(_, _, _, newRole) => UserPayload(t.newName, newRole, t.newPhone)
    case PermissionCreated(_, _, key, scope) => GrantText(key, scope)
    case PermissionUpdated(_, _, scope, limitSet) =>
      PatchText(scope.Some?, if scope.Some? then scope.value else t.oldScope, limitSet, t.newLimit)
    case _ => JNull
  }

  function VerbOf(e: AC.Event): string {
    if e.RoleCreated? || e.UserCreated? || e.PermissionCreated? then "CREATE"
    else if e.RoleDeleted? || e.PermissionDeleted? then "DELETE"
    else "UPDATE"
  }

  function EntityOf(e: AC.Event): string {
    if e.RoleCreated? || e.RoleUpdated? || e.RoleDeleted? then "Role"
    else if e.UserCreated? || e.UserUpdated? then "User"
    else "Permission"
  }

  /** The record(...) call behind an event; ids appear as text. */
  function ContentOf(idText: AC.Id -> string, t: Told, e: AC.Event): Content {
    Content(idText(e.companyId), VerbOf(e), EntityOf(e), idText(e.id), t.actor, BeforeOf(idText, t, e), AfterOf(t, e),
            t.at)
  }

  /** Ids have texts of their own, free of '|'. */
  ghost predicate IdTexts(idText: AC.Id -> string) {
    && (forall i: AC.Id :: NoPipe(idText(i)))
    && (forall i: AC.Id, j: AC.Id :: idText(i) == idText(j) ==> i == j)
  }

  predicate Tellable(t: Told) {
    && NoPipe(t.actor) && ValidInstant(t.at)
    && TextOrNull(t.oldLimit) && TextOrNull(t.newLimit) && TextOrNull(t.oldPhone) && TextOrNull(t.newPhone)
  }

  // ---- what each row seals ---------------------------------------------------------------------------------------

  lemma PatchReadsBackIff(changed: bool, scope: AC.Scope, limitChanged: bool, limit: Json)
    requires TextOrNull(limit)
    ensures ReadsBackIff(PatchText(changed, scope, limitChanged, limit), !(changed && limitChanged))
  {
    PatchPayloadReadsBackIff(if changed then Some(ScopeText(scope)) else None,
                             if limitChanged then Some(limit) else None);
    LastField("valueLimit", limit);
    LastField("projectScope", JString(ScopeText(scope)));
    ClearField("projectScope", JString(ScopeText(scope)), Member("valueLimit", limit, EndMembers));
  }

  lemma RoleTextReadsBackIff(e: AC.Event, role: AC.Role, limit: Json)
    requires e.RoleUpdated? && TextOrNull(limit)
    ensures ReadsBackIff(RoleText(e, role, limit), !(e.limitSet && e.unscopedSet))
  {
    RolePatchReadsBackIff(if e.before.name != e.after.name then Some(role.name) else None,
                          if e.limitSet then Some(limit) else None,
                          if e.unscopedSet then Some(role.isUnscoped) else None);
  }

  lemma NullReadsBack()
    ensures ReadsBackIff(JNull, true)
  {
  }

  /** What is recorded before the change. */
  lemma BeforeReadsBackIff(idText: AC.Id -> string, t: Told, e: AC.Event)
    requires Tellable(t)
    ensures ReadsBackIff(BeforeOf(idText, t, e), !AccessTrail.Disordered(e) || BeforeOf(idText, t, e).JNull?)
  {
    NullReadsBack();
    match e
    case RoleUpdated(_, _, before, _, _, _) => RoleTextReadsBackIff(e, before, t.oldLimit);
    case RoleDeleted(_, _, name) => RoleNameReadsBack(name);
    case UserUpdated(_, _, oldRole, _) => UserPayloadReadsBack(t.oldName, oldRole, t.oldPhone);
    case PermissionUpdated(_, _, scope, limitSet) => PatchReadsBackIff(scope.Some?, t.oldScope, limitSet, t.oldLimit);
    case PermissionDeleted(_, _, roleId, key, scope, swept) =>
      GrantIsPlain(key.resource, ActionText(key.action), ScopeText(scope));
      GrantPayloadIsReordered(key.resource, ActionText(key.action), ScopeText(scope));
      SweptIsPlain(ActionText(key.action), idText(roleId), key.resource, ScopeText(scope));
      SweptPayloadReadsBack(ActionText(key.action), idText(roleId), key.resource, ScopeText(scope));
    case _ =>
  }

  /** What is recorded after the change. */
  lemma AfterReadsBackIff(t: Told, e: AC.Event)
    requires Tellable(t)
    ensures ReadsBackIff(AfterOf(t, e), !AccessTrail.Disordered(e) || AfterOf(t, e).JNull?)
  {
    NullReadsBack();
    match e
    case RoleCreated(_, _, name, isUnscoped) => RoleCreationReadsBack(name, isUnscoped);
    case RoleUpdated(_, _, _, after, _, _) => RoleTextReadsBackIff(e, after, t.newLimit);
    case UserCreated(_, _, roleName) => UserCreationIsReordered(t.email, t.newName, roleName);
    case UserUpdated(_, _, _, newRole) => UserPayloadReadsBack(t.newName, newRole, t.newPhone);
    case PermissionCreated(_, _, key, scope) =>
      GrantIsPlain(key.resource, ActionText(key.action), ScopeText(scope));
      GrantPayloadIsReordered(key.resource, ActionText(key.action), ScopeText(scope));
    case PermissionUpdated(_, _, scope, limitSet) =>
      PatchReadsBackIff(scope.Some?, if scope.Some? then scope.value else t.oldScope, limitSet, t.newLimit);
    case _ =>
  }

  lemma FixedTexts(e: AC.Event)
    ensures NoPipe(VerbOf(e)) && NoPipe(EntityOf(e))
  {
  }

  lemma SomethingIsRecorded(idText: AC.Id -> string, t: Told, e: AC.Event)
    ensures !BeforeOf(idText, t, e).JNull? || !AfterOf(t, e).JNull?
  {
  }

  /** Every row can be sealed, is out of redaction's reach, and reads back exactly when its event is in order. */
  lemma SealedEvent(idText: AC.Id -> string, t: Told, e: AC.Event)
    requires IdTexts(idText) && Tellable(t)
    ensures (var c := ContentOf(idText, t, e);
             Sealable(c) && Sanitised(c) == c && (KeysInStoredOrder(c) <==> !AccessTrail.Disordered(e)))
  {
    FixedTexts(e);
    BeforeReadsBackIff(idText, t, e);
    AfterReadsBackIff(t, e);
    SomethingIsRecorded(idText, t, e);
  }

  // ---- rows among the rows of the other modules ------------------------------------------------------------------

  /** The rows of the log were recorded in order, at the given places of all that was recorded. */
  ghost predicate RecordedAt(idText: AC.Id -> string, told: seq<Told>, log: seq<AC.Event>, cs: seq<Content>,
          place: seq<nat>)
  {
    && |told| == |place| == |log|
    && (forall n :: 0 <= n < |log| ==>
          Tellable(told[n]) && place[n] < |cs| && cs[place[n]] == Sanitised(ContentOf(idText, told[n], log[n])))
    && (forall m, n :: 0 <= m < n < |log| ==> place[m] < place[n])
  }

  /** The rows of other use cases can be sealed. */
  predicate OthersSealable(cs: seq<Content>, place: seq<nat>) {
    forall i :: 0 <= i < |cs| && i !in place ==> Sealable(cs[i])
  }

  /** The company's rows of other use cases read back. */
  predicate OthersInOrder(cs: seq<Content>, place: seq<nat>, owner: string) {
    forall i :: 0 <= i < |cs| && i !in place && cs[i].companyId == owner ==> KeysInStoredOrder(cs[i])
  }

  lemma RecordedRow(idText: AC.Id -> string, told: seq<Told>, log: seq<AC.Event>, cs: seq<Content>, place: seq<nat>,
          n: nat)
    requires IdTexts(idText) && RecordedAt(idText, told, log, cs, place) && n < |log|
    ensures (var c := cs[place[n]];
             && Sealable(c) && c.companyId == idText(log[n].companyId)
             && (KeysInStoredOrder(c) <==> !AccessTrail.Disordered(log[n])))
  {
    SealedEvent(idText, told[n], log[n]);
  }

  lemma AllSealableRows(idText: AC.Id -> string, told: seq<Told>, log: seq<AC.Event>, cs: seq<Content>, place: seq<nat>)
    requires IdTexts(idText) && RecordedAt(idText, told, log, cs, place) && OthersSealable(cs, place)
    ensures forall c <- cs :: Sealable(c)
  {
    forall i | 0 <= i < |cs| ensures Sealable(cs[i]) {
      if i in place {
        var n :| 0 <= n < |place| && place[n] == i;
        RecordedRow(idText, told, log, cs, place, n);
      }
    }
  }

  lemma DisorderedRow(idText: AC.Id -> string, told: seq<Told>, log: seq<AC.Event>, cs: seq<Content>, place: seq<nat>,
          co: AC.Id)
    requires IdTexts(idText) && RecordedAt(idText, told, log, cs, place)
    requires AccessTrail.HasDisorder(log, co) || !OthersInOrder(cs, place, idText(co))
    ensures exists c <- ContentsOf(cs, idText(co)) :: !KeysInStoredOrder(c)
  {
    var i: nat;
    if n :| 0 <= n < |log| && AccessTrail.Disordered(log[n]) && log[n].companyId == co {
      RecordedRow(idText, told, log, cs, place, n);
      i := place[n];
    } else {
      i :| 0 <= i < |cs| && i !in place && cs[i].companyId == idText(co) && !KeysInStoredOrder(cs[i]);
    }
    assert cs[i] in cs && cs[i] in ContentsOf(cs, idText(co));
  }

  lemma OrderlyRows(idText: AC.Id -> string, told: seq<Told>, log: seq<AC.Event>, cs: seq<Content>, place: seq<nat>,
          co: AC.Id)
    requires IdTexts(idText) && RecordedAt(idText, told, log, cs, place)
    requires !AccessTrail.HasDisorder(log, co) && OthersInOrder(cs, place, idText(co))
    ensures forall c <- ContentsOf(cs, idText(co)) :: KeysInStoredOrder(c)
  {
    forall c | c in ContentsOf(cs, idText(co)) ensures KeysInStoredOrder(c) {
      assert c in cs;
      var i :| 0 <= i < |cs| && cs[i] == c;
      if i in place {
        var n :| 0 <= n < |place| && place[n] == i;
        RecordedRow(idText, told, log, cs, place, n);
      }
    }
  }

  /** Some of the company's own rows has two texts, as sealed and as read back, that share a digest. */
  ghost predicate SomeRereadCollides(z: Sealing<Content>, h: seq<AuditRow>, own: seq<Content>) {
    exists i :: 0 <= i < |h| && i < |own| && RereadCollides(z, h, own, i)
  }

  /** Verified if so, and if not so, not verified short of a collision. */
  ghost predicate VerifiesJustWhen(z: Sealing<Content>, h: seq<AuditRow>, own: seq<Content>, so: bool) {
    (so ==> Verified(z, h)) && (!so && Verified(z, h) ==> SomeRereadCollides(z, h, own))
  }

  lemma OrderDecides(z: Sealing<Content>, h: seq<AuditRow>, own: seq<Content>)
    requires VerifiesIffReadBack(z, h, own)
    ensures VerifiesJustWhen(z, h, own, forall c <- own :: KeysInStoredOrder(c))
  {
    if c :| c in own && !KeysInStoredOrder(c) {
      var i :| 0 <= i < |own| && own[i] == c;
      assert Verified(z, h) ==> ReadsBackAt(z, h, own, i);
    }
  }

  /**
   Serve any requests on sound tables, and record their rows in order among any rows of other use cases, with the clock
   moving on. The company's chain verifies exactly when none of its requests succeeded in creating or deleting a
   permission, patching both fields of one, replacing a grid by a different one, patching limit and flag of a role, or
   creating a user - and its other rows read back. (A digest collision between a row's two texts aside.)
   */
  lemma RunVerifiesIff(hash: string -> string, z: Sealing<Content>, start: AC.Db, calls: seq<AC.Call>, co: AC.Id,
                       idText: AC.Id -> string, told: seq<Told>, ids: seq<string>, cs: seq<Content>, place: seq<nat>)
    requires HexLike(hash) && z == AuditSealing(hash) && AccessInvariants.Inv(start) && IdTexts(idText)
    requires RecordedAt(idText, told, AccessReplay.NewRows(start, AC.Run(start, calls)), cs, place)
    requires |ids| == |cs| && ClockMovesOn([], cs) && OthersSealable(cs, place)
    ensures VerifiesJustWhen(z, History(z, ids, cs, idText(co)), ContentsOf(cs, idText(co)),
                             !AccessTrail.DisorderedBy(start, calls, co) && OthersInOrder(cs, place, idText(co)))
  {
    var log := AccessReplay.NewRows(start, AC.Run(start, calls));
    AccessTrail.RunDisordersIff(start, calls, co);
    AllSealableRows(idText, told, log, cs, place);
    if AccessTrail.HasDisorder(log, co) || !OthersInOrder(cs, place, idText(co)) {
      DisorderedRow(idText, told, log, cs, place, co);
    } else {
      OrderlyRows(idText, told, log, cs, place, co);
    }
    RecordedRunVerifiesIff(hash, z, ids, cs, idText(co));
    OrderDecides(z, History(z, ids, cs, idText(co)), ContentsOf(cs, idText(co)));
  }

  lemma OneCallRun(start: AC.Db, c: AC.Call)
    ensures AC.Run(start, [c]) == AC.Step(start, c.cat, c.request)
  {
    assert [c][1..] == [];
  }

  /** A user created writes one row. */
  lemma OneUserRow(start: AC.Db, cat: AC.Catalogue, co: AC.Id, roleId: AC.Id)
    requires AccessInvariants.Inv(start) && AC.FindRole(start, roleId, co).Some?
    ensures (var r := AC.CreateUserRequest(co, roleId);
             var log := AccessReplay.NewRows(start, AC.Step(start, cat, r));
             AC.Plan(start, cat, r).Ok? && |log| == 1 && log[0].UserCreated? && log[0].companyId == co)
  {
    AccessInvariants.ExecOne(start, AC.SaveUser(start.nextId, AC.User(co, AC.FindRole(start, roleId, co).value.name)));
  }

  /**
   On any sound tables that have the role, one user created and recorded on an empty audit table: the chain does not
   verify, or the row's two texts collide.
   */
  lemma OneUserBreaksTheChain(hash: string -> string, z: Sealing<Content>, start: AC.Db, cat: AC.Catalogue, co: AC.Id,
                              roleId: AC.Id, idText: AC.Id -> string, t: Told, id: string)
    requires HexLike(hash) && z == AuditSealing(hash) && IdTexts(idText) && Tellable(t)
    requires AccessInvariants.Inv(start) && AC.FindRole(start, roleId, co).Some?
    ensures (var log := AccessReplay.NewRows(start, AC.Step(start, cat, AC.CreateUserRequest(co, roleId)));
             && |log| == 1
             && var c := ContentOf(idText, t, log[0]);
                var h := History(z, [id], [c], idText(co));
                !Verified(z, h) || SomeRereadCollides(z, h, [c]))
  {
    var call := AC.Call(cat, AC.CreateUserRequest(co, roleId));
    var log := AccessReplay.NewRows(start, AC.Run(start, [call]));
    OneCallRun(start, call);
    OneUserRow(start, cat, co, roleId);
    var c := ContentOf(idText, t, log[0]);
    SealedEvent(idText, t, log[0]);
    assert ContentsOf([c], idText(co)) == [c] by { assert [c][1..] == []; }
    RunVerifiesIff(hash, z, start, [call], co, idText, [t], [id], [c], [0]);
  }
}
