/**
 Hash-chained histories in general: every row is sealed over the previous row's seal and its own content. The digest
 and the text it is applied to are parameters; the digest is only known to yield non-empty text without '|', and the
 text to be uniquely decodable. Where two different texts would have to share a digest, the theorems name the two.
 */
module SealChain {
  import opened Prelude

  /** A row of audit_log. Its id and ip_address are not sealed. */
  datatype Row<+C> = Row(id: string, ipAddress: Option<string>, content: C, seal: string)

  /** How content is turned into text and digested, which content the text decodes, and how content is re-read. */
  datatype Sealing<!C> = Sealing(hash: string -> string, text: (string, C) -> string, sealable: C -> bool,
                                 reread: C -> C)

  predicate NoPipe(s: string) { '|' !in s }

  /** A hex digest is never empty and holds no '|'. */
  ghost predicate HexLike(hash: string -> string) {
    forall t :: hash(t) != "" && NoPipe(hash(t))
  }

  ghost predicate UniquelyDecodable<C(!new)>(z: Sealing<C>) {
    forall p, c, q, d :: z.sealable(c) && z.sealable(d) && NoPipe(p) && NoPipe(q) && z.text(p, c) == z.text(q, d) ==>
      p == q && c == d
  }

  ghost predicate Sound<C(!new)>(z: Sealing<C>) {
    HexLike(z.hash) && UniquelyDecodable(z) && forall c :: z.sealable(c) ==> z.sealable(z.reread(c))
  }

  /** The seal in front of row i, as text: nothing in front of the first row. */
  function SealBefore<C>(rows: seq<Row<C>>, i: nat): string
    requires i <= |rows|
  {
    if i == 0 then "" else rows[i - 1].seal
  }

  function TextAt<C>(z: Sealing<C>, rows: seq<Row<C>>, i: nat): string
    requires i < |rows|
  {
    z.text(SealBefore(rows, i), rows[i].content)
  }

  predicate SealedAt<C>(z: Sealing<C>, rows: seq<Row<C>>, i: nat)
    requires i < |rows|
  {
    rows[i].seal == z.hash(TextAt(z, rows, i))
  }

  ghost predicate Verified<C>(z: Sealing<C>, rows: seq<Row<C>>) {
    forall i :: 0 <= i < |rows| ==> SealedAt(z, rows, i)
  }

  /** The first row whose stored seal is not the one recomputed from its neighbours, if there is one. */
  ghost predicate BrokenFirstAt<C>(z: Sealing<C>, rows: seq<Row<C>>, k: nat) {
    k < |rows| && !SealedAt(z, rows, k) && forall i :: 0 <= i < k ==> SealedAt(z, rows, i)
  }

  lemma VerifiedPrefix<C>(z: Sealing<C>, rows: seq<Row<C>>, k: nat)
    requires k <= |rows|
    ensures Verified(z, rows[..k]) <==> forall i :: 0 <= i < k ==> SealedAt(z, rows, i)
  {
    assert forall i :: 0 <= i < k ==> TextAt(z, rows[..k], i) == TextAt(z, rows, i) && rows[..k][i] == rows[i];
    assert forall i :: 0 <= i < k ==> SealedAt(z, rows[..k], i) == SealedAt(z, rows, i);
  }

  lemma {:induction false} FirstBroken<C>(z: Sealing<C>, rows: seq<Row<C>>, n: nat) returns (k: nat)
    requires n <= |rows| && exists i :: 0 <= i < n && !SealedAt(z, rows, i)
    ensures k < n && BrokenFirstAt(z, rows, k)
    decreases n
  {
    if i :| 0 <= i < n - 1 && !SealedAt(z, rows, i) {
      k := FirstBroken(z, rows, n - 1);
    } else {
      k := n - 1;
    }
  }

  // ---- the last seal fixes the history --------------------------------------------------------------------------

  /** Two different texts with one digest. */
  ghost predicate Collide(hash: string -> string, s: string, t: string) {
    s != t && hash(s) == hash(t)
  }

  /** Some row of g and some row of h are sealed over different texts that share a digest. */
  ghost predicate Collision<C>(z: Sealing<C>, g: seq<Row<C>>, h: seq<Row<C>>) {
    exists i, j :: 0 <= i < |g| && 0 <= j < |h| && Collide(z.hash, TextAt(z, g, i), TextAt(z, h, j))
  }

  predicate SameSealedRow<C(==)>(a: Row<C>, b: Row<C>) { a.content == b.content && a.seal == b.seal }

  predicate SameHistory<C(==)>(g: seq<Row<C>>, h: seq<Row<C>>) {
    |g| == |h| && forall i :: 0 <= i < |g| ==> SameSealedRow(g[i], h[i])
  }

  predicate AllSealable<C>(z: Sealing<C>, rows: seq<Row<C>>) {
    forall i :: 0 <= i < |rows| ==> z.sealable(rows[i].content)
  }

  /** Only the first row has nothing in front of it. */
  lemma SealsInFront<C(!new)>(z: Sealing<C>, h: seq<Row<C>>, i: nat)
    requires Sound(z) && i < |h| && forall j :: 0 <= j < i ==> SealedAt(z, h, j)
    ensures NoPipe(SealBefore(h, i)) && (SealBefore(h, i) == "" <==> i == 0)
  {
    if i > 0 { assert SealedAt(z, h, i - 1); }
  }

  /** The last rows agree, and so do the seals in front of them, unless their texts collide. */
  lemma LastRowsAgree<C(!new)>(z: Sealing<C>, g: seq<Row<C>>, h: seq<Row<C>>)
    requires Sound(z) && Verified(z, g) && Verified(z, h) && AllSealable(z, g) && AllSealable(z, h)
    requires g != [] && h != [] && g[|g| - 1].seal == h[|h| - 1].seal
    ensures Collision(z, g, h)
         || (SameSealedRow(g[|g| - 1], h[|h| - 1]) && SealBefore(g, |g| - 1) == SealBefore(h, |h| - 1))
  {
    var i, j := |g| - 1, |h| - 1;
    assert SealedAt(z, g, i) && SealedAt(z, h, j);
    SealsInFront(z, g, i);
    SealsInFront(z, h, j);
    if TextAt(z, g, i) != TextAt(z, h, j) {
      assert Collide(z.hash, TextAt(z, g, i), TextAt(z, h, j));
    }
  }

  lemma CollisionOfPrefixes<C>(z: Sealing<C>, g: seq<Row<C>>, h: seq<Row<C>>, m: nat, n: nat)
    requires m <= |g| && n <= |h|
    ensures Collision(z, g[..m], h[..n]) ==> Collision(z, g, h)
  {
    if Collision(z, g[..m], h[..n]) {
      var i, j :| 0 <= i < |g[..m]| && 0 <= j < |h[..n]| && Collide(z.hash, TextAt(z, g[..m], i), TextAt(z, h[..n], j));
      assert TextAt(z, g[..m], i) == TextAt(z, g, i) && TextAt(z, h[..n], j) == TextAt(z, h, j);
    }
  }

  /**
   Two histories that both pass the full check and end in the same seal hold the same rows, one for one (ids and
   addresses, which no seal covers, aside) - or else exhibit two different texts with the same digest.
   */
  lemma {:induction false} LastSealFixesHistory<C(!new)>(z: Sealing<C>, g: seq<Row<C>>, h: seq<Row<C>>)
    requires Sound(z) && Verified(z, g) && Verified(z, h) && AllSealable(z, g) && AllSealable(z, h)
    requires g != [] && h != [] && g[|g| - 1].seal == h[|h| - 1].seal
    ensures SameHistory(g, h) || Collision(z, g, h)
    decreases |g|
  {
    LastRowsAgree(z, g, h);
    var i, j := |g| - 1, |h| - 1;
    SealsInFront(z, g, i);
    SealsInFront(z, h, j);
    if !Collision(z, g, h) && i > 0 {
      VerifiedPrefix(z, g, i);
      VerifiedPrefix(z, h, j);
      LastSealFixesHistory(z, g[..i], h[..j]);
      CollisionOfPrefixes(z, g, h, i, j);
      assert forall k :: 0 <= k < i ==> g[..i][k] == g[k];
      assert forall k :: 0 <= k < j ==> h[..j][k] == h[k];
    }
  }

  // ---- tampering is reported ------------------------------------------------------------------------------------

  lemma SamePrefixes<C>(p: seq<Row<C>>, s: seq<Row<C>>, p': seq<Row<C>>)
    requires s != []
    ensures SameHistory((p + s)[..|p| + 1], (p' + s)[..|p'| + 1]) ==> SameHistory(p, p')
  {
    var g, h := (p + s)[..|p| + 1], (p' + s)[..|p'| + 1];
    assert forall i :: 0 <= i < |p| ==> g[i] == p[i];
    assert forall i :: 0 <= i < |p'| ==> h[i] == p'[i];
    assert SameHistory(g, h) ==> forall i :: 0 <= i < |p| ==> SameSealedRow(g[i], h[i]);
  }

  /**
   Replace everything before the rows s of a verified history by other rows: the check stops at a replaced row or at
   the first row kept, unless the replacement is the same sealed content or two texts collide.
   */
  lemma RewrittenPastIsReported<C(!new)>(z: Sealing<C>, p: seq<Row<C>>, s: seq<Row<C>>, p': seq<Row<C>>)
    requires Sound(z) && Verified(z, p + s) && AllSealable(z, p + s) && AllSealable(z, p')
    requires s != [] && !SameHistory(p, p')
    ensures Collision(z, p + s, p' + s) || exists k: nat :: k <= |p'| && BrokenFirstAt(z, p' + s, k)
  {
    var g, h := p + s, p' + s;
    var m, n := |p| + 1, |p'| + 1;
    VerifiedPrefix(z, g, m);
    VerifiedPrefix(z, h, n);
    SamePrefixes(p, s, p');
    CollisionOfPrefixes(z, g, h, m, n);
    if Verified(z, h[..n]) {
      assert g[m - 1] == s[0] && h[n - 1] == s[0];
      LastSealFixesHistory(z, g[..m], h[..n]);
    } else {
      var k := FirstBroken(z, h, n);
    }
  }

  lemma PrefixUntouched<C>(z: Sealing<C>, h: seq<Row<C>>, h': seq<Row<C>>, k: nat)
    requires Verified(z, h) && k <= |h| && k <= |h'| && h[..k] == h'[..k]
    ensures forall i :: 0 <= i < k ==> SealedAt(z, h', i)
    ensures SealBefore(h, k) == SealBefore(h', k)
  {
    VerifiedPrefix(z, h, k);
    VerifiedPrefix(z, h', k);
    if k > 0 { assert h[..k][k - 1] == h'[..k][k - 1]; }
  }

  /**
   One altered row: reported at that row when its seal does not fit its new content, at the next row when it does -
   and not at all exactly when it is the newest row and was sealed anew (unless two texts collide).
   */
  lemma AlteredRowIsReported<C(!new)>(z: Sealing<C>, h: seq<Row<C>>, k: nat, r: Row<C>)
    requires Sound(z) && Verified(z, h) && AllSealable(z, h) && k < |h|
    requires z.sealable(r.content) && !SameSealedRow(h[k], r)
    ensures (var fits := r.seal == z.hash(z.text(SealBefore(h, k), r.content));
             && (!fits ==> BrokenFirstAt(z, h[k := r], k))
             && (fits && k + 1 < |h| ==> BrokenFirstAt(z, h[k := r], k + 1) || Collision(z, h, h[k := r]))
             && (fits && k + 1 == |h| ==> Verified(z, h[k := r])))
  {
    var h' := h[k := r];
    PrefixUntouched(z, h, h', k);
    if SealedAt(z, h', k) && k + 1 < |h| && SealedAt(z, h', k + 1) {
      assert SealedAt(z, h, k) && SealedAt(z, h, k + 1);
      SealsInFront(z, h, k + 1);
      SealsInFront(z, h', k + 1);
      if TextAt(z, h, k + 1) == TextAt(z, h', k + 1) {
        SealsInFront(z, h, k);
        assert h[k].seal == r.seal && h[k].content != r.content;
        assert Collide(z.hash, TextAt(z, h, k), TextAt(z, h', k));
      } else {
        assert Collide(z.hash, TextAt(z, h, k + 1), TextAt(z, h', k + 1));
      }
    }
  }

  /** One dropped row: reported at the row that followed it, unless two texts collide. */
  lemma DroppedRowIsReported<C(!new)>(z: Sealing<C>, h: seq<Row<C>>, k: nat)
    requires Sound(z) && Verified(z, h) && AllSealable(z, h) && k + 1 < |h|
    ensures BrokenFirstAt(z, h[..k] + h[k + 1..], k) || Collision(z, h, h[..k] + h[k + 1..])
  {
    var p, s, p' := h[..k + 1], h[k + 1..], h[..k];
    assert p + s == h;
    PrefixUntouched(z, h, p' + s, k);
    RewrittenPastIsReported(z, p, s, p');
  }

  // ---- histories as they were written ------------------------------------------------------------------------------

  /** Row i stores content i as it is re-read, sealed over the text content i had when it was written. */
  ghost predicate WrittenAt<C>(z: Sealing<C>, h: seq<Row<C>>, cs: seq<C>, i: nat)
    requires i < |h| && i < |cs|
  {
    h[i].content == z.reread(cs[i]) && h[i].seal == z.hash(z.text(SealBefore(h, i), cs[i]))
  }

  ghost predicate WrittenAs<C>(z: Sealing<C>, h: seq<Row<C>>, cs: seq<C>) {
    |h| == |cs| && forall i :: 0 <= i < |h| ==> WrittenAt(z, h, cs, i)
  }

  lemma WrittenOneMore<C>(z: Sealing<C>, h: seq<Row<C>>, cs: seq<C>, row: Row<C>, c: C)
    requires WrittenAs(z, h, cs)
    requires row.content == z.reread(c) && row.seal == z.hash(z.text(SealBefore(h, |h|), c))
    ensures WrittenAs(z, h + [row], cs + [c])
  {
    var h', cs' := h + [row], cs + [c];
    forall i | 0 <= i < |h'| ensures WrittenAt(z, h', cs', i) {
      assert SealBefore(h', i) == SealBefore(h, i);
      if i < |h| {
        assert h'[i] == h[i] && cs'[i] == cs[i] && WrittenAt(z, h, cs, i);
      }
    }
  }

  /** Content i reads back as it was written, or the text it now yields shares its digest with the text it had. */
  ghost predicate RereadsAt<C>(z: Sealing<C>, h: seq<Row<C>>, cs: seq<C>, i: nat)
    requires i < |h| && i < |cs|
  {
    || z.reread(cs[i]) == cs[i]
    || Collide(z.hash, z.text(SealBefore(h, i), cs[i]), z.text(SealBefore(h, i), z.reread(cs[i])))
  }

  /** A row verifies exactly when its content reads back as it was written (collisions aside). */
  lemma RowVerifiesIff<C(!new)>(z: Sealing<C>, h: seq<Row<C>>, cs: seq<C>, i: nat)
    requires Sound(z) && WrittenAs(z, h, cs) && i < |h| && z.sealable(cs[i])
    ensures SealedAt(z, h, i) <==> RereadsAt(z, h, cs, i)
  {
    var c, prev := cs[i], SealBefore(h, i);
    assert WrittenAt(z, h, cs, i);
    if i > 0 { assert WrittenAt(z, h, cs, i - 1); }
    if z.text(prev, c) == z.text(prev, z.reread(c)) {
      assert z.sealable(z.reread(c));
    }
  }
}
