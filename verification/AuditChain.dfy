/**
 The hash-chained audit trail: how RealAuditService and the deploy-time sweep seal and append rows, and what
 verifyChain decides about them. The digest (SHA-256, hex) is a parameter.
 */
module AuditChain {
  import opened Prelude
  import opened Sums
  import opened Sorting
  import opened Json
  import opened Jsonb
  import opened SealText
  import opened SealChain

  type AuditRow = Row<Content>

  /** The row as it comes back from the table: jsonb has reordered the payload keys. */
  function StoredContent(c: Content): Content {
    c.(before := Stored(c.before), after := Stored(c.after))
  }

  /** computeSeal: the digest of the joined text. */
  function AuditSealing(hash: string -> string): Sealing<Content> {
    Sealing(hash, Preimage, Sealable, StoredContent)
  }

  /** Both payloads list their keys in the order jsonb returns them. */
  predicate KeysInStoredOrder(c: Content) {
    InStoredOrder(c.before) && InStoredOrder(c.after)
  }

  lemma StoredContentFacts(c: Content)
    requires Sealable(c)
    ensures Sealable(StoredContent(c))
    ensures StoredContent(c) == c <==> KeysInStoredOrder(c)
  {
    StoredIsInOrder(c.before);
    StoredIsInOrder(c.after);
    if KeysInStoredOrder(c) {
      OrderedIsFixed(c.before);
      OrderedIsFixed(c.after);
    }
  }

  /** The audit trail meets what the general theorems ask of a sealing, for any digest that looks like hex. */
  lemma AuditSealingIsSound(hash: string -> string)
    requires HexLike(hash)
    ensures Sound(AuditSealing(hash)) && KeepsOwnerAndTime(AuditSealing(hash)) && ReordersKeys(AuditSealing(hash))
  {
    var z := AuditSealing(hash);
    forall p, c, q, d | Sealable(c) && Sealable(d) && NoPipe(p) && NoPipe(q) && z.text(p, c) == z.text(q, d)
      ensures p == q && c == d
    {
      PreimageDecodes(p, c, q, d);
    }
    forall c | Sealable(c) ensures Sealable(StoredContent(c)) && (StoredContent(c) == c <==> KeysInStoredOrder(c)) {
      StoredContentFacts(c);
    }
  }

  // ---- the table ------------------------------------------------------------------------------------------------

  predicate Earlier(a: AuditRow, b: AuditRow) { Position(a.content.createdAt) < Position(b.content.createdAt) }

  function CompanyRows(rows: seq<AuditRow>, companyId: string): seq<AuditRow> {
    Filter(rows, (r: AuditRow) => r.content.companyId == companyId)
  }

  /** SELECT ... WHERE company_id = $1 ORDER BY created_at ASC. */
  function Chronological(rows: seq<AuditRow>, companyId: string): seq<AuditRow> {
    Sort(CompanyRows(rows, companyId), Earlier)
  }

  function LastSealOf(rows: seq<AuditRow>, companyId: string): Option<string> {
    var own := Chronological(rows, companyId);
    if own == [] then None else Some(own[|own| - 1].seal)
  }

  function Seal(z: Sealing<Content>, c: Content, prevSeal: Option<string>): string {
    z.hash(z.text(if prevSeal.Some? then prevSeal.value else "", c))
  }

  /** One more row: sealed over the content as given, stored as jsonb keeps it. */
  function Appended(z: Sealing<Content>, rows: seq<AuditRow>, id: string, c: Content): seq<AuditRow> {
    rows + [Row(id, None, z.reread(c), Seal(z, c, LastSealOf(rows, c.companyId)))]
  }

  function AppendedAll(z: Sealing<Content>, rows: seq<AuditRow>, ids: seq<string>, cs: seq<Content>): seq<AuditRow>
    requires |ids| == |cs|
    decreases cs
  {
    if cs == [] then rows else AppendedAll(z, Appended(z, rows, ids[0], cs[0]), ids[1..], cs[1..])
  }

  // ---- redaction ------------------------------------------------------------------------------------------

  const SENSITIVE_FIELDS := ["passwordHash", "password_hash", "bankAccount", "pfDetails"]

  const REDACTED := JString("[REDACTED]")

  /** obj[field] = '[REDACTED]', when the field is present. */
  function Overwrite(ms: Members, field: string): Members {
    match ms
    case EndMembers => EndMembers
    case Member(k, v, rest) => Member(k, if k == field then REDACTED else v, Overwrite(rest, field))
  }

  function RedactedMembers(ms: Members, fields: seq<string>): Members {
    match ms
    case EndMembers => EndMembers
    case Member(k, v, rest) => Member(k, if k in fields then REDACTED else v, RedactedMembers(rest, fields))
  }

  function Redacted(v: Json): Json {
    if v.JObject? then JObject(RedactedMembers(v.members, SENSITIVE_FIELDS)) else v
  }

  function Sanitised(c: Content): Content {
    c.(before := Redacted(c.before), after := Redacted(c.after))
  }

  lemma {:induction false} OverwriteExtends(ms: Members, fields: seq<string>, f: string)
    ensures Overwrite(RedactedMembers(ms, fields), f) == RedactedMembers(ms, fields + [f])
  {
    if ms.Member? { OverwriteExtends(ms.rest, fields, f); }
  }

  lemma {:induction false} RedactNothing(ms: Members)
    ensures RedactedMembers(ms, []) == ms
  {
    if ms.Member? { RedactNothing(ms.rest); }
  }

  /** sanitize: each sensitive top-level field is overwritten, every other field and the key order stay. */
  method Sanitise(data: Json) returns (clean: Json)
    requires IsPayload(data)
    ensures clean == Redacted(data)
  {
    if data.JNull? {
      return JNull;
    }
    var obj := data.members;
    RedactNothing(data.members);
    var i := 0;
    while i < |SENSITIVE_FIELDS|
      invariant 0 <= i <= |SENSITIVE_FIELDS|
      invariant obj == RedactedMembers(data.members, SENSITIVE_FIELDS[..i])
    {
      obj := Overwrite(obj, SENSITIVE_FIELDS[i]);
      OverwriteExtends(data.members, SENSITIVE_FIELDS[..i], SENSITIVE_FIELDS[i]);
      assert SENSITIVE_FIELDS[..i + 1] == SENSITIVE_FIELDS[..i] + [SENSITIVE_FIELDS[i]];
      i := i + 1;
    }
    assert SENSITIVE_FIELDS[..i] == SENSITIVE_FIELDS;
    return JObject(obj);
  }

  // ---- the repository and the service -------------------------------------------------------------------------------

  datatype Verdict = Intact | BrokenAt(id: string)

  class AuditLog {
    const sealing: Sealing<Content>
    var rows: seq<AuditRow>

    constructor (hash: string -> string)
      ensures rows == [] && sealing == AuditSealing(hash)
    {
      sealing := AuditSealing(hash);
      rows := [];
    }

    method Append(row: AuditRow)
      modifies this
      ensures rows == old(rows) + [row]
    {
      rows := rows + [row];
    }

    /** The seal of a row of the company that no other of its rows is later than; none when it has no row. */
    method LastSeal(companyId: string) returns (seal: Option<string>)
      ensures seal.None? <==> forall r <- rows :: r.content.companyId != companyId
      ensures seal.Some? ==> exists r <- rows :: IsLatest(rows, companyId, r) && seal == Some(r.seal)
      ensures seal == LastSealOf(rows, companyId)
    {
      LastSealIsLatest(rows, companyId);
      seal := LastSealOf(rows, companyId);
    }

    /** RealAuditService.record: redact, chain to the company's last seal, append; jsonb stores the payloads. */
    method Record(id: string, entry: Content)
      requires IsPayload(entry.before) && IsPayload(entry.after)
      modifies this
      ensures rows == Appended(sealing, old(rows), id, Sanitised(entry))
    {
      var prevSeal := LastSeal(entry.companyId);
      var before := Sanitise(entry.before);
      var after := Sanitise(entry.after);
      var clean := entry.(before := before, after := after);
      Append(Row(id, None, sealing.reread(clean), Seal(sealing, clean, prevSeal)));
    }

    /**
     The sweep's half of the trail: one DELETE row per orphan, chained by a local variable instead of re-reading the
     last seal. With a clock that moves forward this is the same as recording them one by one.
     */
    method ChainDeletes(companyId: string, ids: seq<string>, deletes: seq<Content>)
      requires |ids| == |deletes| && forall c <- deletes :: c.companyId == companyId
      requires sealing.reread == StoredContent && ClockMovesOn(rows, deletes)
      modifies this
      ensures rows == AppendedAll(sealing, old(rows), ids, deletes)
    {
      var prevSeal := LastSeal(companyId);
      var i := 0;
      ghost var start := rows;
      while i < |deletes|
        invariant 0 <= i <= |deletes|
        invariant ClockMovesOn(rows, deletes[i..])
        invariant prevSeal == LastSealOf(rows, companyId)
        invariant AppendedAll(sealing, rows, ids[i..], deletes[i..]) == AppendedAll(sealing, start, ids, deletes)
      {
        assert deletes[i] in deletes;
        var seal := Seal(sealing, deletes[i], prevSeal);
        ghost var before := rows;
        Append(Row(ids[i], None, sealing.reread(deletes[i]), seal));
        prevSeal := Some(seal);
        assert rows == Appended(sealing, before, ids[i], deletes[i]);
        AppendedHead(sealing, before, ids, deletes, i);
        NewestRowIsLast(sealing, before, ids[i], deletes[i..]);
        i := i + 1;
      }
    }

    /** verifyChain: the company's rows between the optional bounds, starting from an empty previous seal. */
    method VerifyChain(companyId: string, from: Option<Instant>, to: Option<Instant>) returns (verdict: Verdict)
      ensures Answers(verdict, sealing, RowsBetween(rows, companyId, from, to))
    {
      verdict := CheckRows(sealing, RowsBetween(rows, companyId, from, to));
    }
  }

  /** The loop of verifyChain: recompute every seal over the one in front of it, and stop at the first that differs. */
  method CheckRows(z: Sealing<Content>, own: seq<AuditRow>) returns (verdict: Verdict)
    ensures Answers(verdict, z, own)
  {
    var prevSeal: Option<string> := None;
    var i := 0;
    while i < |own|
      invariant 0 <= i <= |own|
      invariant prevSeal == if i == 0 then None else Some(own[i - 1].seal)
      invariant forall j :: 0 <= j < i ==> SealedAt(z, own, j)
    {
      var expected := Seal(z, own[i].content, prevSeal);
      if expected != own[i].seal {
        assert BrokenFirstAt(z, own, i);
        return BrokenAt(own[i].id);
      }
      prevSeal := Some(own[i].seal);
      i := i + 1;
    }
    return Intact;
  }

  /** Intact for a chain that verifies, and otherwise the first row that breaks it. */
  ghost predicate Answers(verdict: Verdict, z: Sealing<Content>, h: seq<AuditRow>) {
    match verdict
    case Intact => Verified(z, h)
    case BrokenAt(id) => exists k: nat :: BrokenFirstAt(z, h, k) && id == h[k].id
  }

  predicate IsLatest(rows: seq<AuditRow>, companyId: string, r: AuditRow) {
    r.content.companyId == companyId && forall x <- rows :: x.content.companyId == companyId ==> !Earlier(r, x)
  }

  lemma ChronologicalNoneAhead(rows: seq<AuditRow>, companyId: string)
    ensures NoneAhead(Chronological(rows, companyId), Earlier)
  {
    SortNoneAhead(CompanyRows(rows, companyId), Earlier);
  }

  lemma LastSealIsLatest(rows: seq<AuditRow>, companyId: string)
    ensures LastSealOf(rows, companyId).None? <==> forall r <- rows :: r.content.companyId != companyId
    ensures LastSealOf(rows, companyId).Some? ==>
              exists r <- rows :: IsLatest(rows, companyId, r) && LastSealOf(rows, companyId) == Some(r.seal)
  {
    var own := Chronological(rows, companyId);
    ChronologicalNoneAhead(rows, companyId);
    if own == [] {
      forall r | r in rows ensures r.content.companyId != companyId {
        assert r.content.companyId == companyId ==> r in own;
      }
    } else {
      var r := own[|own| - 1];
      assert r in own && r in rows;
      forall x | x in rows && x.content.companyId == companyId ensures !Earlier(r, x) {
        assert x in own;
        var i :| 0 <= i < |own| && own[i] == x;
      }
      assert IsLatest(rows, companyId, r);
    }
  }

  lemma AppendedHead(z: Sealing<Content>, rows: seq<AuditRow>, ids: seq<string>, cs: seq<Content>, i: nat)
    requires |ids| == |cs| && i < |cs|
    ensures cs[i..][0] == cs[i] && cs[i..][1..] == cs[i + 1..]
    ensures AppendedAll(z, rows, ids[i..], cs[i..])
            == AppendedAll(z, Appended(z, rows, ids[i], cs[i]), ids[i + 1..], cs[i + 1..])
  {
    assert cs[i..][1..] == cs[i + 1..] && ids[i..][1..] == ids[i + 1..];
  }

  // ---- bounded checks ---------------------------------------------------------------------------------------------

  predicate NotBefore(r: AuditRow, from: Option<Instant>) {
    from.Some? ==> Position(r.content.createdAt) >= Position(from.value)
  }

  predicate NotAfter(r: AuditRow, to: Option<Instant>) {
    to.Some? ==> Position(r.content.createdAt) <= Position(to.value)
  }

  /** The rows verifyChain reads: WHERE company_id = $1, with created_at within the bounds that are given. */
  function RowsBetween(rows: seq<AuditRow>, companyId: string, from: Option<Instant>,
                       to: Option<Instant>): seq<AuditRow> {
    Filter(Chronological(rows, companyId), (r: AuditRow) => NotBefore(r, from) && NotAfter(r, to))
  }

  /** Without bounds the check reads the company's whole trail. */
  lemma UnboundedReadsAll(rows: seq<AuditRow>, companyId: string)
    ensures RowsBetween(rows, companyId, None, None) == Chronological(rows, companyId)
  {
    FilterAll(Chronological(rows, companyId), (r: AuditRow) => NotBefore(r, None) && NotAfter(r, None));
  }

  /** In time order, the rows a bound keeps out come first or last, in one block. */
  lemma {:induction false} CutAt(h: seq<AuditRow>, low: AuditRow -> bool) returns (n: nat)
    requires NoneAhead(h, Earlier)
    requires forall a, b :: low(b) && !Earlier(b, a) ==> low(a)
    ensures n <= |h| && (forall i :: 0 <= i < n ==> low(h[i])) && (forall i :: n <= i < |h| ==> !low(h[i]))
    decreases |h|
  {
    if h == [] || !low(h[0]) {
      n := 0;
      forall i | 0 <= i < |h| ensures !low(h[i]) { assert i > 0 ==> !Earlier(h[i], h[0]); }
    } else {
      n := CutAt(h[1..], low);
      n := n + 1;
      assert forall i :: 0 < i < |h| ==> h[i] == h[1..][i - 1];
    }
  }

  /** Filtering keeps exactly the middle of three stretches. */
  lemma FilterMiddle(a: seq<AuditRow>, b: seq<AuditRow>, c: seq<AuditRow>, p: AuditRow -> bool)
    requires (forall x <- a :: !p(x)) && (forall x <- b :: p(x)) && (forall x <- c :: !p(x))
    ensures Filter(a + b + c, p) == b
  {
    FilterConcat(a + b, c, p);
    FilterConcat(a, b, p);
    FilterNone(a, p);
    FilterAll(b, p);
    FilterNone(c, p);
  }

  lemma FilterIsSlice(h: seq<AuditRow>, p: AuditRow -> bool, m: nat, n: nat)
    requires m <= n <= |h| && forall i :: 0 <= i < |h| ==> (p(h[i]) <==> m <= i < n)
    ensures Filter(h, p) == h[m..n]
  {
    assert h == h[..m] + h[m..n] + h[n..];
    FilterMiddle(h[..m], h[m..n], h[n..], p);
  }

  /** A bounded check reads one stretch of the company's trail. */
  lemma RowsBetweenIsSlice(rows: seq<AuditRow>, companyId: string, from: Option<Instant>, to: Option<Instant>)
    returns (m: nat, n: nat)
    ensures (var h := Chronological(rows, companyId);
             && m <= n <= |h| && RowsBetween(rows, companyId, from, to) == h[m..n]
             && (from.None? ==> m == 0) && (to.None? ==> n == |h|)
             && (forall i :: 0 <= i < m ==> !NotBefore(h[i], from)))
  {
    var h := Chronological(rows, companyId);
    ChronologicalNoneAhead(rows, companyId);
    m := CutAt(h, (r: AuditRow) => !NotBefore(r, from));
    n := CutAt(h, (r: AuditRow) => NotAfter(r, to));
    assert n < |h| ==> !NotAfter(h[n], to);
    var p := (r: AuditRow) => NotBefore(r, from) && NotAfter(r, to);
    if m <= n {
      FilterIsSlice(h, p, m, n);
    } else {
      FilterNone(h, p);
      n := m;
    }
  }

  /**
   What a bounded check says about a trail that is sound as a whole: with an upper bound only, or none, it is intact;
   with a lower bound that leaves rows out, it names the first row it reads - the check restarts from an empty
   previous seal - unless nothing is left to read or two texts collide.
   */
  lemma BoundedCheck(z: Sealing<Content>, rows: seq<AuditRow>, companyId: string, from: Option<Instant>,
                     to: Option<Instant>)
    requires Sound(z) && Verified(z, Chronological(rows, companyId)) && AllSealable(z, Chronological(rows, companyId))
    ensures (var h, kept := Chronological(rows, companyId), RowsBetween(rows, companyId, from, to);
             var cut := h != [] && !NotBefore(h[0], from);
             if cut && kept != [] then BrokenFirstAt(z, kept, 0) || Collision(z, h, kept) else Verified(z, kept))
  {
    var h, kept := Chronological(rows, companyId), RowsBetween(rows, companyId, from, to);
    var m, n := RowsBetweenIsSlice(rows, companyId, from, to);
    VerifiedPrefix(z, h, n);
    if m > 0 && kept != [] {
      assert h[..n] == h[..m] + h[m..n] && [] + kept == kept;
      RewrittenPastIsReported(z, h[..m], kept, []);
      CollisionOfPrefixes(z, h, kept, n, |kept|);
      assert kept[..|kept|] == kept;
    } else if m == 0 {
      assert h[0..n] == h[..n];
      if h != [] && kept != [] { assert kept[0] == h[0] && kept[0] in kept; }
    }
  }

  // ---- appending keeps chronological order ---------------------------------------------------------------------

  /** Each new row is later than every row its company already has, and than the new rows before it. */
  ghost predicate ClockMovesOn(rows: seq<AuditRow>, cs: seq<Content>) {
    && Ordered(rows)
    && (forall r <- rows, c <- cs :: r.content.companyId == c.companyId ==>
        Position(r.content.createdAt) < Position(c.createdAt))
    && (forall i, j :: 0 <= i < j < |cs| && cs[i].companyId == cs[j].companyId ==>
          Position(cs[i].createdAt) < Position(cs[j].createdAt))
  }

  /** Within a company, rows were inserted in the order of their timestamps. */
  ghost predicate Ordered(rows: seq<AuditRow>) {
    forall i, j :: 0 <= i < j < |rows| && rows[i].content.companyId == rows[j].content.companyId ==>
        Earlier(rows[i], rows[j])
  }

  lemma {:induction false} CompanyRowsAscend(rows: seq<AuditRow>, companyId: string)
    requires Ordered(rows)
    ensures Ascending(CompanyRows(rows, companyId), Earlier)
  {
    if rows != [] {
      CompanyRowsAscend(rows[1..], companyId);
      var rest := CompanyRows(rows[1..], companyId);
      if rows[0].content.companyId == companyId {
        assert CompanyRows(rows, companyId) == [rows[0]] + rest;
        forall j | 0 <= j < |rest| ensures Earlier(rows[0], rest[j]) {
          assert rest[j] in rest;
          var k :| 0 <= k < |rows[1..]| && rows[1..][k] == rest[j];
          assert rows[k + 1] == rest[j];
        }
      }
    }
  }

  /** For rows inserted in timestamp order, sorting changes nothing. */
  lemma ChronologicalIsInsertionOrder(rows: seq<AuditRow>, companyId: string)
    requires Ordered(rows)
    ensures Chronological(rows, companyId) == CompanyRows(rows, companyId)
  {
    var own := CompanyRows(rows, companyId);
    CompanyRowsAscend(rows, companyId);
    SortAscending(own, Earlier);
    AscendingIsUnique(Sort(own, Earlier), own, Earlier);
  }

  lemma CompanyRowsAppend(rows: seq<AuditRow>, row: AuditRow, companyId: string)
    ensures CompanyRows(rows + [row], companyId)
         == CompanyRows(rows, companyId) + if row.content.companyId == companyId then [row] else []
  {
    var p := (r: AuditRow) => r.content.companyId == companyId;
    FilterConcat(rows, [row], p);
    assert [row][1..] == [];
  }

  /** Re-reading changes payload keys only. */
  ghost predicate KeepsOwnerAndTime(z: Sealing<Content>) {
    forall c :: z.reread(c).companyId == c.companyId && z.reread(c).createdAt == c.createdAt
  }

  lemma NewestRowIsLast(z: Sealing<Content>, rows: seq<AuditRow>, id: string, cs: seq<Content>)
    requires KeepsOwnerAndTime(z) && cs != [] && ClockMovesOn(rows, cs)
    ensures (var rows' := Appended(z, rows, id, cs[0]);
             && ClockMovesOn(rows', cs[1..])
             && LastSealOf(rows', cs[0].companyId) == Some(rows'[|rows|].seal))
  {
    var rows' := Appended(z, rows, id, cs[0]);
    var row := rows'[|rows|];
    forall i, j | 0 <= i < j < |rows'| && rows'[i].content.companyId == rows'[j].content.companyId
      ensures Earlier(rows'[i], rows'[j])
    {
      if j == |rows| { assert rows'[i] in rows && cs[0] in cs; }
    }
    forall r, c | r in rows' && c in cs[1..] && r.content.companyId == c.companyId
      ensures Position(r.content.createdAt) < Position(c.createdAt)
    {
      var j :| 0 <= j < |cs[1..]| && cs[1..][j] == c;
      assert c == cs[j + 1] && c in cs;
      if r !in rows { assert r == row; }
    }
    ChronologicalIsInsertionOrder(rows', cs[0].companyId);
    CompanyRowsAppend(rows, row, cs[0].companyId);
  }

  // ---- what a run of record and sweep leaves behind ---------------------------------------------------------------

  function ContentsOf(cs: seq<Content>, companyId: string): seq<Content> {
    Filter(cs, (c: Content) => c.companyId == companyId)
  }

  lemma AppendedIsWritten(z: Sealing<Content>, rows: seq<AuditRow>, done: seq<Content>, id: string, c: Content)
    requires KeepsOwnerAndTime(z) && Ordered(rows) && WrittenAs(z, CompanyRows(rows, c.companyId), done)
    ensures WrittenAs(z, CompanyRows(Appended(z, rows, id, c), c.companyId), done + [c])
  {
    var h := CompanyRows(rows, c.companyId);
    ChronologicalIsInsertionOrder(rows, c.companyId);
    var row := Appended(z, rows, id, c)[|rows|];
    CompanyRowsAppend(rows, row, c.companyId);
    WrittenOneMore(z, h, done, row, c);
  }

  /** The content a company gains when c is recorded. */
  function Gained(c: Content, companyId: string): seq<Content> {
    if c.companyId == companyId then [c] else []
  }

  lemma StepIsWritten(z: Sealing<Content>, rows: seq<AuditRow>, done: seq<Content>, id: string, c: Content,
          companyId: string)
    requires KeepsOwnerAndTime(z) && Ordered(rows) && WrittenAs(z, CompanyRows(rows, companyId), done)
    ensures WrittenAs(z, CompanyRows(Appended(z, rows, id, c), companyId), done + Gained(c, companyId))
  {
    if c.companyId == companyId {
      AppendedIsWritten(z, rows, done, id, c);
    } else {
      CompanyRowsAppend(rows, Appended(z, rows, id, c)[|rows|], companyId);
      assert done + [] == done && CompanyRows(rows, companyId) + [] == CompanyRows(rows, companyId);
    }
  }

  lemma GainedFirst(done: seq<Content>, cs: seq<Content>, companyId: string)
    requires cs != []
    ensures (done + Gained(cs[0], companyId)) + ContentsOf(cs[1..], companyId) == done + ContentsOf(cs, companyId)
  {
  }

  lemma {:induction false} RunIsWritten(z: Sealing<Content>, rows: seq<AuditRow>, ids: seq<string>, cs: seq<Content>,
                                        companyId: string, done: seq<Content>)
    requires KeepsOwnerAndTime(z) && |ids| == |cs| && ClockMovesOn(rows, cs)
    requires WrittenAs(z, CompanyRows(rows, companyId), done)
    ensures Ordered(AppendedAll(z, rows, ids, cs))
    ensures WrittenAs(z, CompanyRows(AppendedAll(z, rows, ids, cs), companyId), done + ContentsOf(cs, companyId))
    decreases cs
  {
    if cs == [] {
      assert done + [] == done;
    } else {
      var rows' := Appended(z, rows, ids[0], cs[0]);
      NewestRowIsLast(z, rows, ids[0], cs);
      StepIsWritten(z, rows, done, ids[0], cs[0], companyId);
      RunIsWritten(z, rows', ids[1..], cs[1..], companyId, done + Gained(cs[0], companyId));
      GainedFirst(done, cs, companyId);
    }
  }

  /** Re-reading returns content as it was exactly when its keys were in stored order. */
  ghost predicate ReordersKeys(z: Sealing<Content>) {
    forall c :: z.sealable(c) ==> (z.reread(c) == c <==> KeysInStoredOrder(c))
  }

  /** Row i's text when it was sealed and the different text it yields now share a digest. */
  ghost predicate RereadCollides(z: Sealing<Content>, h: seq<AuditRow>, own: seq<Content>, i: nat)
    requires i < |h| && i < |own|
  {
    Collide(z.hash, z.text(SealBefore(h, i), own[i]), z.text(SealBefore(h, i), z.reread(own[i])))
  }

  /** Row i's payloads were recorded with their keys in stored order, or its two texts share a digest. */
  ghost predicate ReadsBackAt(z: Sealing<Content>, h: seq<AuditRow>, own: seq<Content>, i: nat)
    requires i < |h| && i < |own|
  {
    KeysInStoredOrder(own[i]) || RereadCollides(z, h, own, i)
  }

  /** The company's chain after recording cs from an empty table. */
  function History(z: Sealing<Content>, ids: seq<string>, cs: seq<Content>, companyId: string): seq<AuditRow>
    requires |ids| == |cs|
  {
    Chronological(AppendedAll(z, [], ids, cs), companyId)
  }

  lemma HistoryOfRun(z: Sealing<Content>, ids: seq<string>, cs: seq<Content>, companyId: string)
    requires Sound(z) && KeepsOwnerAndTime(z) && ReordersKeys(z) && |ids| == |cs| && ClockMovesOn([], cs)
    requires forall c <- cs :: z.sealable(c)
    ensures (var h, own := History(z, ids, cs, companyId), ContentsOf(cs, companyId);
             |h| == |own| && forall i :: 0 <= i < |h| ==> (SealedAt(z, h, i) <==> ReadsBackAt(z, h, own, i)))
  {
    RunIsWritten(z, [], ids, cs, companyId, []);
    ChronologicalIsInsertionOrder(AppendedAll(z, [], ids, cs), companyId);
    var h, own := History(z, ids, cs, companyId), ContentsOf(cs, companyId);
    assert [] + own == own;
    forall i | 0 <= i < |h| ensures SealedAt(z, h, i) <==> ReadsBackAt(z, h, own, i) {
      assert own[i] in own;
      RowVerifiesIff(z, h, own, i);
    }
  }

  /** The chain verifies iff every row reads back, and otherwise breaks first at the first row that does not. */
  ghost predicate VerifiesIffReadBack(z: Sealing<Content>, h: seq<AuditRow>, own: seq<Content>) {
    && |h| == |own|
    && (Verified(z, h) <==> forall i :: 0 <= i < |h| ==> ReadsBackAt(z, h, own, i))
    && forall k: nat | k < |h| && !ReadsBackAt(z, h, own, k)
       && (forall i :: 0 <= i < k ==> ReadsBackAt(z, h, own, i)) ::
         BrokenFirstAt(z, h, k)
  }

  lemma RowsDecideTheChain(z: Sealing<Content>, h: seq<AuditRow>, own: seq<Content>)
    requires |h| == |own| && forall i :: 0 <= i < |h| ==> (SealedAt(z, h, i) <==> ReadsBackAt(z, h, own, i))
    ensures VerifiesIffReadBack(z, h, own)
  {
  }

  lemma HistoryVerifiesIff(z: Sealing<Content>, ids: seq<string>, cs: seq<Content>, companyId: string)
    requires Sound(z) && KeepsOwnerAndTime(z) && ReordersKeys(z) && |ids| == |cs| && ClockMovesOn([], cs)
    requires forall c <- cs :: z.sealable(c)
    ensures VerifiesIffReadBack(z, History(z, ids, cs, companyId), ContentsOf(cs, companyId))
  {
    HistoryOfRun(z, ids, cs, companyId);
    RowsDecideTheChain(z, History(z, ids, cs, companyId), ContentsOf(cs, companyId));
  }

  /**
   Any run of record and sweep over any companies, with a clock that moves forward within each company, from an empty
   table. A company's chain verifies exactly when every payload it recorded already listed its keys in the order
   jsonb returns them; otherwise the check stops at the first row whose payload did not (unless that row's two texts
   happen to share a digest).
   */
  lemma RecordedRunVerifiesIff(hash: string -> string, z: Sealing<Content>, ids: seq<string>, cs: seq<Content>,
                               companyId: string)
    requires HexLike(hash) && z == AuditSealing(hash)
    requires |ids| == |cs| && ClockMovesOn([], cs) && forall c <- cs :: Sealable(c)
    ensures VerifiesIffReadBack(z, History(z, ids, cs, companyId), ContentsOf(cs, companyId))
  {
    AuditSealingIsSound(hash);
    assert forall c <- cs :: z.sealable(c);
    HistoryVerifiesIff(z, ids, cs, companyId);
  }

  /**
   A company's last seal vouches for its whole trail: two tables that verify and agree on it hold the same trail.
   (By AuditSealingIsSound the sealing of the audit log is sound for any digest that looks like hex.)
   */
  lemma SameLastSealSameTrail(z: Sealing<Content>, rows: seq<AuditRow>, rows': seq<AuditRow>, companyId: string)
    requires Sound(z) && Verified(z, Chronological(rows, companyId)) && Verified(z, Chronological(rows', companyId))
    requires AllSealable(z, Chronological(rows, companyId)) && AllSealable(z, Chronological(rows', companyId))
    requires LastSealOf(rows, companyId).Some? && LastSealOf(rows, companyId) == LastSealOf(rows', companyId)
    ensures SameHistory(Chronological(rows, companyId), Chronological(rows', companyId))
         || Collision(z, Chronological(rows, companyId), Chronological(rows', companyId))
  {
    LastSealFixesHistory(z, Chronological(rows, companyId), Chronological(rows', companyId));
  }
}
