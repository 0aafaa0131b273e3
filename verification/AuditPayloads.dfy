/** The payloads that permission edits and the sweep record, and what their key order does to a company's chain. */
module AuditPayloads {
  import opened Prelude
  import opened Json
  import opened Jsonb
  import opened SealText
  import opened SealChain
  import opened AuditChain

  function Field(key: string, value: string, rest: Members): Members { Member(key, JString(value), rest) }

  /** Recorded by createPermission and deletePermission, and per grant by the batch replace. */
  function GrantPayload(resource: string, action: string, scope: string): Json {
    JObject(Field("resource", resource, Field("action", action, Field("projectScope", scope, EndMembers))))
  }

  /** Recorded by patchPermission: the fields it changes, scope before limit. */
  function PatchPayload(scope: Option<string>, limit: Option<Json>): Json {
    var tail := if limit.Some? then Member("valueLimit", limit.value, EndMembers) else EndMembers;
    JObject(if scope.Some? then Field("projectScope", scope.value, tail) else tail)
  }

  /** Recorded by sweepOrphanPermissions. */
  function SweptPayload(action: string, roleId: string, resource: string, scope: string): Json {
    JObject(Field("action", action, Field("roleId", roleId, Field("resource", resource,
            Field("sweptReason", "RESOURCE_NOT_IN_CATALOGUE", Field("projectScope", scope, EndMembers))))))
  }

  /** Recorded by createRole. */
  function RoleCreationPayload(name: string, isUnscoped: bool): Json {
    JObject(Field("name", name, Member("isUnscoped", JBool(isUnscoped), EndMembers)))
  }

  /** Recorded by deleteRole. */
  function RoleNamePayload(name: string): Json { JObject(Field("name", name, EndMembers)) }

  /** Up to three fields, in this order. */
  function UpToThree(k: string, v: Option<Json>, l: string, w: Option<Json>, j: string, u: Option<Json>): Json {
    var last := if u.Some? then Member(j, u.value, EndMembers) else EndMembers;
    var tail := if w.Some? then Member(l, w.value, last) else last;
    JObject(if v.Some? then Member(k, v.value, tail) else tail)
  }

  /** Recorded by patchRole: a changed name first, then the supplied limit and the supplied flag. */
  function RolePatchPayload(name: Option<string>, limit: Option<Json>, unscoped: Option<bool>): Json {
    UpToThree("name", if name.Some? then Some(JString(name.value)) else None, "approvalLimit", limit,
              "isUnscoped", if unscoped.Some? then Some(JBool(unscoped.value)) else None)
  }

  /** Recorded by createUser. */
  function UserCreationPayload(email: string, name: string, role: string): Json {
    JObject(Field("email", email, Field("name", name, Field("role", role, EndMembers))))
  }

  /** Recorded by patchUser, before and after; the phone may be null. */
  function UserPayload(name: string, role: string, phone: Json): Json {
    JObject(Field("name", name, Field("role", role, Member("phone", phone, EndMembers))))
  }

  lemma {:induction false} AsciiLength(k: string)
    requires forall i :: 0 <= i < |k| ==> k[i] as int < 128
    ensures ByteLength(k) == |k|
  {
    if k != "" { AsciiLength(k[1..]); }
  }

  /** A plain key: ASCII, and not an array index. */
  predicate Plain(k: string) {
    k != "" && !('0' <= k[0] <= '9') && forall i :: 0 <= i < |k| ==> k[i] as int < 128
  }

  lemma PlainKeyOrder(a: string, b: string)
    requires Plain(a) && Plain(b)
    ensures |a| < |b| || (|a| == |b| && a[0] < b[0]) ==> KeyBefore(a, b)
    ensures |b| < |a| ==> !KeyBefore(a, b)
  {
    AsciiLength(a);
    AsciiLength(b);
  }

  lemma OrderedPair(k: string, v: Json, l: string, w: Json, rest: Members)
    requires MembersInStoredOrder(Member(l, w, rest)) && InStoredOrder(v)
    ensures MembersInStoredOrder(Member(k, v, Member(l, w, rest))) <==> KeyBefore(k, l)
  {
    if KeyBefore(k, l) { AllAfterMonotone(k, l, rest); }
  }

  lemma DisorderedPair(k: string, v: Json, l: string, w: Json, rest: Members)
    requires !KeyBefore(k, l)
    ensures !InStoredOrder(JObject(Member(k, v, Member(l, w, rest))))
  {
  }

  /** Permission creations and deletions list "resource" before the shorter "action". */
  lemma GrantPayloadIsReordered(resource: string, action: string, scope: string)
    ensures !InStoredOrder(GrantPayload(resource, action, scope))
  {
    PlainKeyOrder("resource", "action");
    DisorderedPair("resource", JString(resource), "action", JString(action), Field("projectScope", scope, EndMembers));
  }

  lemma SingleField(k: string, v: Json)
    requires InStoredOrder(v)
    ensures MembersInStoredOrder(Member(k, v, EndMembers))
  {
  }

  /** A patch reads back as written exactly when it changes at most one field. */
  lemma PatchPayloadReadsBackIff(scope: Option<string>, limit: Option<Json>)
    requires limit.Some? ==> limit.value.JString? || limit.value.JNull?
    ensures InStoredOrder(PatchPayload(scope, limit)) <==> !(scope.Some? && limit.Some?)
  {
    if scope.Some? && limit.Some? {
      PlainKeyOrder("projectScope", "valueLimit");
      DisorderedPair("projectScope", JString(scope.value), "valueLimit", limit.value, EndMembers);
    } else if scope.Some? {
      SingleField("projectScope", JString(scope.value));
    } else if limit.Some? {
      SingleField("valueLimit", limit.value);
    }
  }

  lemma SweptKeysArePlain()
    ensures Plain("action") && Plain("roleId") && Plain("resource") && Plain("sweptReason") && Plain("projectScope")
  {
  }

  lemma ShorterFirst()
    ensures KeyBefore("action", "roleId") && KeyBefore("roleId", "resource")
  {
    SweptKeysArePlain();
    PlainKeyOrder("action", "roleId");
    PlainKeyOrder("roleId", "resource");
  }

  lemma LongerLast()
    ensures KeyBefore("resource", "sweptReason") && KeyBefore("sweptReason", "projectScope")
  {
    SweptKeysArePlain();
    PlainKeyOrder("resource", "sweptReason");
    PlainKeyOrder("sweptReason", "projectScope");
  }

  lemma FiveFields(k1: string, v1: string, k2: string, v2: string, k3: string, v3: string, k4: string, v4: string,
          k5: string, v5: string)
    requires KeyBefore(k1, k2) && KeyBefore(k2, k3) && KeyBefore(k3, k4) && KeyBefore(k4, k5)
    ensures InStoredOrder(JObject(Field(k1, v1,
                                        Field(k2, v2, Field(k3, v3, Field(k4, v4, Field(k5, v5, EndMembers)))))))
  {
    SingleField(k5, JString(v5));
    OrderedPair(k4, JString(v4), k5, JString(v5), EndMembers);
    OrderedPair(k3, JString(v3), k4, JString(v4), Field(k5, v5, EndMembers));
    OrderedPair(k2, JString(v2), k3, JString(v3), Field(k4, v4, Field(k5, v5, EndMembers)));
    OrderedPair(k1, JString(v1), k2, JString(v2), Field(k3, v3, Field(k4, v4, Field(k5, v5, EndMembers))));
  }

  /** The sweep lists its keys the way they come back. */
  lemma SweptPayloadReadsBack(action: string, roleId: string, resource: string, scope: string)
    ensures InStoredOrder(SweptPayload(action, roleId, resource, scope))
  {
    ShorterFirst();
    LongerLast();
    FiveFields("action", action, "roleId", roleId, "resource", resource, "sweptReason", "RESOURCE_NOT_IN_CATALOGUE",
               "projectScope", scope);
  }

  // ---- fit to be sealed, and out of redaction's reach -------------------------------------------------------------

  /** Distinct keys, none of them sensitive. */
  predicate Clear(ms: Members) { WellFormedMembers(ms) && RedactedMembers(ms, SENSITIVE_FIELDS) == ms }

  lemma ClearField(k: string, v: Json, rest: Members)
    requires Clear(rest) && !HasKey(rest, k) && k !in SENSITIVE_FIELDS && WellFormed(v)
    ensures Clear(Member(k, v, rest))
    ensures forall l :: HasKey(Member(k, v, rest), l) <==> l == k || HasKey(rest, l)
  {
  }

  lemma LastField(k: string, v: Json)
    requires k !in SENSITIVE_FIELDS && WellFormed(v)
    ensures Clear(Member(k, v, EndMembers))
    ensures forall l :: HasKey(Member(k, v, EndMembers), l) <==> l == k
  {
    ClearField(k, v, EndMembers);
  }

  lemma GrantIsPlain(resource: string, action: string, scope: string)
    ensures IsPayload(GrantPayload(resource, action, scope))
    ensures Redacted(GrantPayload(resource, action, scope)) == GrantPayload(resource, action, scope)
  {
    var last := Field("projectScope", scope, EndMembers);
    LastField("projectScope", JString(scope));
    ClearField("action", JString(action), last);
    ClearField("resource", JString(resource), Field("action", action, last));
  }

  lemma SweptIsPlain(action: string, roleId: string, resource: string, scope: string)
    ensures IsPayload(SweptPayload(action, roleId, resource, scope))
    ensures Redacted(SweptPayload(action, roleId, resource, scope)) == SweptPayload(action, roleId, resource, scope)
  {
    var m1 := Field("projectScope", scope, EndMembers);
    var m2 := Field("sweptReason", "RESOURCE_NOT_IN_CATALOGUE", m1);
    var m3 := Field("resource", resource, m2);
    LastField("projectScope", JString(scope));
    ClearField("sweptReason", JString("RESOURCE_NOT_IN_CATALOGUE"), m1);
    ClearField("resource", JString(resource), m2);
    ClearField("roleId", JString(roleId), m3);
    ClearField("action", JString(action), Field("roleId", roleId, m3));
  }

  // ---- roles and users -------------------------------------------------------------------------------------------

  /** Text, or null for a value that is not set. */
  predicate TextOrNull(v: Json) { v.JNull? || v.JString? }

  /** Fit to be sealed, and the same after redaction. */
  predicate Untouched(v: Json) { IsPayload(v) && Redacted(v) == v }

  predicate Scalar(v: Json) { v.JNull? || v.JBool? || v.JString? }

  predicate PlainField(k: string, v: Json) { k !in SENSITIVE_FIELDS && Scalar(v) }

  /** Fit to be sealed, out of redaction's reach, and back in the order it was sealed exactly when ordered. */
  predicate ReadsBackIff(v: Json, ordered: bool) { Untouched(v) && (InStoredOrder(v) <==> ordered) }

  lemma OneField(k: string, v: Json)
    requires PlainField(k, v)
    ensures ReadsBackIff(JObject(Member(k, v, EndMembers)), true)
  {
    SingleField(k, v);
    LastField(k, v);
  }

  lemma TwoFields(k: string, v: Json, l: string, w: Json)
    requires PlainField(k, v) && PlainField(l, w) && k != l
    ensures ReadsBackIff(JObject(Member(k, v, Member(l, w, EndMembers))), KeyBefore(k, l))
  {
    SingleField(l, w);
    OrderedPair(k, v, l, w, EndMembers);
    LastField(l, w);
    ClearField(k, v, Member(l, w, EndMembers));
  }

  lemma ThreeFields(k: string, v: Json, l: string, w: Json, j: string, u: Json)
    requires PlainField(k, v) && PlainField(l, w) && PlainField(j, u) && k != l && l != j && k != j
    ensures ReadsBackIff(JObject(Member(k, v, Member(l, w, Member(j, u, EndMembers)))),
                         KeyBefore(k, l) && KeyBefore(l, j))
  {
    var last := Member(j, u, EndMembers);
    TwoFields(l, w, j, u);
    if KeyBefore(l, j) { OrderedPair(k, v, l, w, last); }
    LastField(j, u);
    ClearField(l, w, last);
    ClearField(k, v, Member(l, w, last));
  }

  /** Among plain keys the shorter comes first. */
  predicate Shorter(k: string, l: string) { Plain(k) && Plain(l) && |k| < |l| }

  lemma ShorterComesFirst(k: string, l: string)
    requires Shorter(k, l)
    ensures KeyBefore(k, l) && !KeyBefore(l, k)
  {
    PlainKeyOrder(k, l);
    PlainKeyOrder(l, k);
  }

  predicate PlainOption(k: string, v: Option<Json>) { v.Some? ==> PlainField(k, v.value) }

  /** Three optional fields, the last key shorter than the middle one: out of order exactly when both are there. */
  lemma UpToThreeReadsBackIff(k: string, v: Option<Json>, l: string, w: Option<Json>, j: string, u: Option<Json>)
    requires PlainOption(k, v) && PlainOption(l, w) && PlainOption(j, u) && Shorter(k, j) && Shorter(j, l)
    ensures ReadsBackIff(UpToThree(k, v, l, w, j, u), !(w.Some? && u.Some?))
  {
    ShorterComesFirst(k, j);
    ShorterComesFirst(k, l);
    ShorterComesFirst(j, l);
    match (v, w, u)
    case (None, None, None) =>
    case (Some(a), None, None) => OneField(k, a);
    case (None, Some(b), None) => OneField(l, b);
    case (None, None, Some(c)) => OneField(j, c);
    case (Some(a), Some(b), None) => TwoFields(k, a, l, b);
    case (Some(a), None, Some(c)) => TwoFields(k, a, j, c);
    case (None, Some(b), Some(c)) => TwoFields(l, b, j, c);
    case (Some(a), Some(b), Some(c)) => ThreeFields(k, a, l, b, j, c);
  }

  lemma RoleKeys()
    ensures Shorter("name", "isUnscoped") && Shorter("isUnscoped", "approvalLimit")
    ensures "name" !in SENSITIVE_FIELDS && "isUnscoped" !in SENSITIVE_FIELDS && "approvalLimit" !in SENSITIVE_FIELDS
  {
  }

  lemma UserKeyOrder()
    ensures !KeyBefore("email", "name") && KeyBefore("name", "role") && KeyBefore("role", "phone")
  {
    PlainKeyOrder("email", "name");
    PlainKeyOrder("name", "role");
    PlainKeyOrder("role", "phone");
  }

  lemma ShortThenLong(k: string, v: Json, l: string, w: Json)
    requires PlainField(k, v) && PlainField(l, w) && Shorter(k, l)
    ensures ReadsBackIff(JObject(Member(k, v, Member(l, w, EndMembers))), true)
  {
    ShorterComesFirst(k, l);
    TwoFields(k, v, l, w);
  }

  lemma RoleCreationReadsBack(name: string, isUnscoped: bool)
    ensures ReadsBackIff(RoleCreationPayload(name, isUnscoped), true)
  {
    RoleKeys();
    ShortThenLong("name", JString(name), "isUnscoped", JBool(isUnscoped));
  }

  lemma RoleNameReadsBack(name: string)
    ensures ReadsBackIff(RoleNamePayload(name), true)
  {
    OneField("name", JString(name));
  }

  /** A role patch reads back as written exactly when it does not supply both the limit and the flag. */
  lemma RolePatchReadsBackIff(name: Option<string>, limit: Option<Json>, unscoped: Option<bool>)
    requires limit.Some? ==> TextOrNull(limit.value)
    ensures ReadsBackIff(RolePatchPayload(name, limit, unscoped), !(limit.Some? && unscoped.Some?))
  {
    RoleKeys();
    UpToThreeReadsBackIff("name", if name.Some? then Some(JString(name.value)) else None, "approvalLimit", limit,
                          "isUnscoped", if unscoped.Some? then Some(JBool(unscoped.value)) else None);
  }

  /** User creations list "email" before the shorter "name". */
  lemma UserCreationIsReordered(email: string, name: string, role: string)
    ensures ReadsBackIff(UserCreationPayload(email, name, role), false)
  {
    UserKeyOrder();
    ThreeFields("email", JString(email), "name", JString(name), "role", JString(role));
  }

  lemma UserPayloadReadsBack(name: string, role: string, phone: Json)
    requires TextOrNull(phone)
    ensures ReadsBackIff(UserPayload(name, role, phone), true)
  {
    UserKeyOrder();
    ThreeFields("name", JString(name), "role", JString(role), "phone", phone);
  }

  // ---- what the payloads do to a chain ------------------------------------------------------------------------------

  ghost predicate RecordsGrant(c: Content) {
    exists resource, action, scope ::
        c.before == GrantPayload(resource, action, scope) || c.after == GrantPayload(resource, action, scope)
  }

  ghost predicate RecordsSweep(c: Content) {
    c.after == JNull && exists action, roleId, resource, scope ::
        c.before == SweptPayload(action, roleId, resource, scope)
  }

  lemma WhatReadsBack(c: Content)
    ensures RecordsGrant(c) ==> !KeysInStoredOrder(c)
    ensures RecordsSweep(c) ==> KeysInStoredOrder(c)
  {
    if RecordsGrant(c) {
      var r, a, s :| c.before == GrantPayload(r, a, s) || c.after == GrantPayload(r, a, s);
      GrantPayloadIsReordered(r, a, s);
    }
    if RecordsSweep(c) {
      var a, o, r, s :| c.before == SweptPayload(a, o, r, s);
      SweptPayloadReadsBack(a, o, r, s);
    }
  }

  /** Sweeps alone verify; a recorded grant does not, unless its two texts collide. */
  ghost predicate GrantsBreakIt(z: Sealing<Content>, h: seq<AuditRow>, own: seq<Content>) {
    && |h| == |own|
    && ((forall i :: 0 <= i < |own| ==> RecordsSweep(own[i])) ==> Verified(z, h))
    && (forall i | 0 <= i < |own| && RecordsGrant(own[i]) :: Verified(z, h) ==> RereadCollides(z, h, own, i))
  }

  lemma PayloadsDecide(z: Sealing<Content>, h: seq<AuditRow>, own: seq<Content>)
    requires VerifiesIffReadBack(z, h, own)
    ensures GrantsBreakIt(z, h, own)
  {
    forall i | 0 <= i < |own|
      ensures RecordsSweep(own[i]) ==> ReadsBackAt(z, h, own, i)
      ensures RecordsGrant(own[i]) && ReadsBackAt(z, h, own, i) ==> RereadCollides(z, h, own, i)
    {
      WhatReadsBack(own[i]);
    }
  }

  /**
   A company whose trail holds a permission created or deleted through the use cases never verifies (short of a digest
   collision at that very row); one whose trail holds only sweeps always does.
   */
  lemma PermissionEditsBreakTheChain(hash: string -> string, z: Sealing<Content>, ids: seq<string>, cs: seq<Content>,
                                     companyId: string)
    requires HexLike(hash) && z == AuditSealing(hash)
    requires |ids| == |cs| && ClockMovesOn([], cs) && forall c <- cs :: Sealable(c)
    ensures GrantsBreakIt(z, History(z, ids, cs, companyId), ContentsOf(cs, companyId))
  {
    RecordedRunVerifiesIff(hash, z, ids, cs, companyId);
    PayloadsDecide(z, History(z, ids, cs, companyId), ContentsOf(cs, companyId));
  }

  lemma OneRecordedGrant(hash: string -> string, z: Sealing<Content>, id: string, c: Content)
    requires HexLike(hash) && z == AuditSealing(hash) && Sealable(c) && RecordsGrant(c)
    ensures (var h := History(z, [id], [c], c.companyId); |h| == 1 && (Verified(z, h) ==> RereadCollides(z, h, [c], 0)))
  {
    assert ContentsOf([c], c.companyId) == [c] by { assert [c][1..] == []; }
    PermissionEditsBreakTheChain(hash, z, [id], [c], c.companyId);
    assert RecordsGrant([c][0]);
  }

  /** A permission to read reports, granted in company "c1". */
  const GRANTED := Content("c1", "CREATE", "Permission", "p1", "u1", JNull, GrantPayload("reports", "READ", "ALL"),
                           Instant(2024, 1, 1, 9, 0, 0, 0))

  lemma GrantedIsSealable()
    ensures Sealable(GRANTED) && RecordsGrant(GRANTED) && GRANTED.companyId == "c1"
  {
    GrantIsPlain("reports", "READ", "ALL");
    assert RecordsGrant(GRANTED) by { assert GRANTED.after == GrantPayload("reports", "READ", "ALL"); }
  }

  /** One permission created on an empty table, and the chain no longer verifies (or the row's two texts collide). */
  lemma OneGrantBreaksTheChain(hash: string -> string, z: Sealing<Content>)
    requires HexLike(hash) && z == AuditSealing(hash)
    ensures (var h := History(z, ["a1"], [GRANTED], "c1");
             |h| == 1 && (!Verified(z, h) || RereadCollides(z, h, [GRANTED], 0)))
  {
    GrantedIsSealable();
    OneRecordedGrant(hash, z, "a1", GRANTED);
  }
}
