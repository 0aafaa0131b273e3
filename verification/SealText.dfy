/**
 The text an audit seal is computed over: nine fields joined by '|'. Although the two payloads may hold any character,
 the joined text determines every field.
 */
module SealText {
  import opened Json
  import C = Calendar
  import opened SealChain

  // ---- timestamps ---------------------------------------------------------------------------------------------

  /** A UTC instant with millisecond precision; day-of-month and time-of-day are already normalised. */
  datatype Instant = Instant(y: nat, mo: nat, d: nat, h: nat, mi: nat, s: nat, ms: nat)

  predicate ValidInstant(t: Instant) {
    t.y < 10000 && 1 <= t.mo <= 12 && 1 <= t.d <= 31 && t.h < 24 && t.mi < 60 && t.s < 60 && t.ms < 1000
  }

  /** Date.prototype.toISOString, which verifyChain's to_char reproduces. */
  function IsoText(t: Instant): string {
    C.Pad(t.y, 4) + ("-" + (C.Pad(t.mo, 2) + ("-" + (C.Pad(t.d, 2) + ("T" + ClockText(t))))))
  }

  function ClockText(t: Instant): string {
    C.Pad(t.h, 2) + (":" + (C.Pad(t.mi, 2) + (":" + (C.Pad(t.s, 2) + ("." + (C.Pad(t.ms, 3) + "Z"))))))
  }

  /** Chronological position (calendar order; not a count of milliseconds). */
  function Position(t: Instant): nat {
    (((((t.y * 13 + t.mo) * 32 + t.d) * 24 + t.h) * 60 + t.mi) * 60 + t.s) * 1000 + t.ms
  }

  lemma PaddedDecodes(n: nat, m: nat, w: nat, sep: string, r: string, s: string)
    requires n < C.Pow10(w) && m < C.Pow10(w) && C.Pad(n, w) + (sep + r) == C.Pad(m, w) + (sep + s)
    ensures n == m && r == s
  {
    assert C.Pad(n, w) == (C.Pad(n, w) + (sep + r))[..w] && C.Pad(m, w) == (C.Pad(m, w) + (sep + s))[..w];
    C.ParsePad(n, w);
    C.ParsePad(m, w);
    StripPrefix(C.Pad(n, w), sep + r, sep + s);
    StripPrefix(sep, r, s);
  }

  lemma ClockTextDecodes(a: Instant, b: Instant)
    requires ValidInstant(a) && ValidInstant(b) && ClockText(a) == ClockText(b)
    ensures a.h == b.h && a.mi == b.mi && a.s == b.s && a.ms == b.ms
  {
    assert C.Pow10(2) == 100 && C.Pow10(3) == 1000;
    var a1, b1 := C.Pad(a.ms, 3) + "Z", C.Pad(b.ms, 3) + "Z";
    var a2, b2 := C.Pad(a.s, 2) + ("." + a1), C.Pad(b.s, 2) + ("." + b1);
    var a3, b3 := C.Pad(a.mi, 2) + (":" + a2), C.Pad(b.mi, 2) + (":" + b2);
    PaddedDecodes(a.h, b.h, 2, ":", a3, b3);
    PaddedDecodes(a.mi, b.mi, 2, ":", a2, b2);
    PaddedDecodes(a.s, b.s, 2, ".", a1, b1);
    assert "Z" == "Z" + "";
    PaddedDecodes(a.ms, b.ms, 3, "Z", "", "");
  }

  lemma IsoTextDecodes(a: Instant, b: Instant)
    requires ValidInstant(a) && ValidInstant(b) && IsoText(a) == IsoText(b)
    ensures a == b
  {
    assert C.Pow10(2) == 100 && C.Pow10(4) == 10000;
    var a1, b1 := C.Pad(a.d, 2) + ("T" + ClockText(a)), C.Pad(b.d, 2) + ("T" + ClockText(b));
    var a2, b2 := C.Pad(a.mo, 2) + ("-" + a1), C.Pad(b.mo, 2) + ("-" + b1);
    PaddedDecodes(a.y, b.y, 4, "-", a2, b2);
    PaddedDecodes(a.mo, b.mo, 2, "-", a1, b1);
    PaddedDecodes(a.d, b.d, 2, "T", ClockText(a), ClockText(b));
    ClockTextDecodes(a, b);
  }

  // ---- content and text -----------------------------------------------------------------------------------------

  /** What a seal covers, besides the previous seal. */
  datatype Content = Content(companyId: string, action: string, entityType: string, entityId: string, userId: string,
                             before: Json, after: Json, createdAt: Instant)

  /** A payload is an object or null. */
  predicate IsPayload(v: Json) { WellFormed(v) && (v.JNull? || v.JObject?) }

  /** Ids are uuids or fixed codes, so free of '|'; payloads are unrestricted. */
  predicate Sealable(c: Content) {
    && NoPipe(c.companyId) && NoPipe(c.action) && NoPipe(c.entityType) && NoPipe(c.entityId) && NoPipe(c.userId)
    && IsPayload(c.before) && IsPayload(c.after) && ValidInstant(c.createdAt)
  }

  /** parts.join('|'). */
  function JoinPipe(parts: seq<string>): string {
    if parts == [] then "" else if |parts| == 1 then parts[0] else parts[0] + ("|" + JoinPipe(parts[1..]))
  }

  function Preimage(prevSeal: string, c: Content): string {
    JoinPipe([prevSeal, c.companyId, c.action, c.entityType, c.entityId, c.userId, Text(c.before), Text(c.after),
              IsoText(c.createdAt)])
  }

  // ---- the preimage is uniquely decodable ------------------------------------------------------------------

  lemma {:induction false} FieldDecodes(a: string, b: string, r: string, s: string)
    requires NoPipe(a) && NoPipe(b) && a + ("|" + r) == b + ("|" + s)
    ensures a == b && r == s
  {
    At(a, "|" + r, |a|);
    At(b, "|" + s, |a|);
    At(a, "|" + r, |b|);
    At(b, "|" + s, |b|);
    assert |a| == |b|;
    assert a == (a + ("|" + r))[..|a|] && b == (b + ("|" + s))[..|b|];
    StripPrefix(a, "|" + r, "|" + s);
    StripPrefix("|", r, s);
  }

  /** The five identifier fields and the previous seal, in front of the payloads. */
  function Front(p: string, c: Content, rest: string): string {
    p + ("|" + (c.companyId
                + ("|" + (c.action
                          + ("|" + (c.entityType + ("|" + (c.entityId + ("|" + (c.userId + ("|" + rest)))))))))))
  }

  function Back(c: Content): string {
    Text(c.before) + ("|" + (Text(c.after) + ("|" + IsoText(c.createdAt))))
  }

  lemma JoinStep(part: string, parts: seq<string>)
    requires parts != []
    ensures JoinPipe([part] + parts) == part + ("|" + JoinPipe(parts))
  {
    assert ([part] + parts)[1..] == parts;
  }

  lemma PreimageParts(p: string, c: Content)
    ensures Preimage(p, c) == Front(p, c, Back(c))
  {
    var l2 := [Text(c.after), IsoText(c.createdAt)];
    var l3 := [Text(c.before)] + l2;
    var l4 := [c.userId] + l3;
    var l5 := [c.entityId] + l4;
    var l6 := [c.entityType] + l5;
    var l7 := [c.action] + l6;
    var l8 := [c.companyId] + l7;
    assert [p] + l8
        == [p, c.companyId, c.action, c.entityType, c.entityId, c.userId, Text(c.before), Text(c.after),
            IsoText(c.createdAt)];
    assert l2 == [Text(c.after)] + [IsoText(c.createdAt)];
    JoinStep(Text(c.after), [IsoText(c.createdAt)]);
    JoinStep(Text(c.before), l2);
    JoinStep(c.userId, l3);
    JoinStep(c.entityId, l4);
    JoinStep(c.entityType, l5);
    JoinStep(c.action, l6);
    JoinStep(c.companyId, l7);
    JoinStep(p, l8);
  }

  lemma FrontDecodes(p: string, c: Content, r: string, q: string, d: Content, s: string)
    requires Sealable(c) && Sealable(d) && NoPipe(p) && NoPipe(q) && Front(p, c, r) == Front(q, d, s)
    ensures p == q && c.companyId == d.companyId && c.action == d.action && c.entityType == d.entityType
    ensures c.entityId == d.entityId && c.userId == d.userId && r == s
  {
    var c5, d5 := c.userId + ("|" + r), d.userId + ("|" + s);
    var c4, d4 := c.entityId + ("|" + c5), d.entityId + ("|" + d5);
    var c3, d3 := c.entityType + ("|" + c4), d.entityType + ("|" + d4);
    var c2, d2 := c.action + ("|" + c3), d.action + ("|" + d3);
    var c1, d1 := c.companyId + ("|" + c2), d.companyId + ("|" + d2);
    FieldDecodes(p, q, c1, d1);
    FieldDecodes(c.companyId, d.companyId, c2, d2);
    FieldDecodes(c.action, d.action, c3, d3);
    FieldDecodes(c.entityType, d.entityType, c4, d4);
    FieldDecodes(c.entityId, d.entityId, c5, d5);
    FieldDecodes(c.userId, d.userId, r, s);
  }

  lemma BackDecodes(c: Content, d: Content)
    requires Sealable(c) && Sealable(d) && Back(c) == Back(d)
    ensures c.before == d.before && c.after == d.after && c.createdAt == d.createdAt
  {
    var c1, d1 := Text(c.after) + ("|" + IsoText(c.createdAt)), Text(d.after) + ("|" + IsoText(d.createdAt));
    TextDecodes(c.before, d.before, "|" + c1, "|" + d1);
    StripPrefix("|", c1, d1);
    TextDecodes(c.after, d.after, "|" + IsoText(c.createdAt), "|" + IsoText(d.createdAt));
    StripPrefix("|", IsoText(c.createdAt), IsoText(d.createdAt));
    IsoTextDecodes(c.createdAt, d.createdAt);
  }

  /**
   The joined text determines every field, although the payloads may themselves contain '|': identifiers are free of
   it, and no JSON text is a proper prefix of another.
   */
  lemma PreimageDecodes(p: string, c: Content, q: string, d: Content)
    requires Sealable(c) && Sealable(d) && NoPipe(p) && NoPipe(q)
    requires Preimage(p, c) == Preimage(q, d)
    ensures p == q && c == d
  {
    PreimageParts(p, c);
    PreimageParts(q, d);
    FrontDecodes(p, c, Back(c), q, d, Back(d));
    BackDecodes(c, d);
  }
}
