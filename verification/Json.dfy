/**
 JSON values as the audit trail meets them: their JSON.stringify text, and the order of object keys after a value has
 been stored in a jsonb column and parsed again. Strings are sequences of Unicode scalar values.
 */
module Json {

  datatype Json =
    | JNull
    | JBool(b: bool)
    | JNumber(digits: string)
    | JString(s: string)
    | JArray(items: Items)
    | JObject(members: Members)

  datatype Items = EndItems | Item(head: Json, tail: Items)

  /** Members in the object's own-key order. */
  datatype Members = EndMembers | Member(key: string, value: Json, rest: Members)

  // ---- JSON.stringify -------------------------------------------------------------------------------

  function HexDigit(n: nat): char
    requires n < 16
  {
    "0123456789abcdef"[n]
  }

  function EscapeChar(c: char): (t: string)
    ensures t != ""
  {
    if c == '"' then "\\\""
    else if c == '\\' then "\\\\"
    else if c as int == 8 then "\\b"
    else if c as int == 12 then "\\f"
    else if c == '\n' then "\\n"
    else if c == '\r' then "\\r"
    else if c == '\t' then "\\t"
    else if c as int < 32 then "\\u00" + [HexDigit(c as int / 16 % 16), HexDigit(c as int % 16)]
    else [c]
  }

  /** The characters of s, escaped, then the closing quote. */
  function QuotedTail(s: string): string {
    if s == "" then "\"" else EscapeChar(s[0]) + QuotedTail(s[1..])
  }

  function Quote(s: string): string { "\"" + QuotedTail(s) }

  /** One key-value pair, then what follows it. */
  function Pair(k: string, valueText: string, after: string): string {
    Quote(k) + (":" + (valueText + after))
  }

  function Text(v: Json): (t: string)
    decreases v, 0
  {
    match v
    case JNull => "null"
    case JBool(b) => if b then "true" else "false"
    case JNumber(digits) => digits
    case JString(s) => Quote(s)
    case JArray(EndItems) => "[]"
    case JArray(Item(h, t)) => "[" + (Text(h) + ItemsTail(t))
    case JObject(EndMembers) => "{}"
    case JObject(Member(k, x, r)) => "{" + Pair(k, Text(x), MembersTail(r))
  }

  function ItemsTail(items: Items): string {
    match items
    case EndItems => "]"
    case Item(h, t) => "," + (Text(h) + ItemsTail(t))
  }

  function MembersTail(ms: Members): string {
    match ms
    case EndMembers => "}"
    case Member(k, x, r) => "," + Pair(k, Text(x), MembersTail(r))
  }

  // ---- well-formed values -----------------------------------------------------------------------------

  predicate NumberChar(c: char) {
    '0' <= c <= '9' || c == '-' || c == '+' || c == '.' || c == 'e'
  }

  predicate NumberText(t: string) {
    t != "" && ('0' <= t[0] <= '9' || t[0] == '-') && forall i :: 0 <= i < |t| ==> NumberChar(t[i])
  }

  predicate HasKey(ms: Members, k: string) {
    match ms
    case EndMembers => false
    case Member(key, _, rest) => key == k || HasKey(rest, k)
  }

  /** Numbers are spelled as numbers and an object has each key once. */
  predicate WellFormed(v: Json)
    decreases v, 0
  {
    match v
    case JNumber(t) => NumberText(t)
    case JArray(items) => WellFormedItems(items)
    case JObject(ms) => WellFormedMembers(ms)
    case _ => true
  }

  predicate WellFormedItems(items: Items) {
    match items
    case EndItems => true
    case Item(h, t) => WellFormed(h) && WellFormedItems(t)
  }

  predicate WellFormedMembers(ms: Members) {
    match ms
    case EndMembers => true
    case Member(k, x, r) => !HasKey(r, k) && WellFormed(x) && WellFormedMembers(r)
  }

  // ---- unique decoding --------------------------------------------------------------------------------

  /** Position i of a concatenation, when it falls in the first part or right behind it. */
  lemma At(a: string, r: string, i: nat)
    ensures i < |a| ==> (a + r)[i] == a[i]
    ensures i == |a| < |a + r| ==> r != "" && (a + r)[i] == r[0]
  {
  }

  lemma StripPrefix(p: string, x: string, y: string)
    requires p + x == p + y
    ensures x == y
  {
    assert x == (p + x)[|p|..] && y == (p + y)[|p|..];
  }

  lemma Reassociate(a: string, b: string, c: string)
    ensures (a + b) + c == a + (b + c)
  {
  }

  lemma HexPairDecodes(c: char, d: char)
    requires HexDigit(c as int / 16 % 16) == HexDigit(d as int / 16 % 16)
    requires HexDigit(c as int % 16) == HexDigit(d as int % 16)
    requires c as int < 32 && d as int < 32
    ensures c == d
  {
    HexDigitInjective(c as int / 16 % 16, d as int / 16 % 16);
    HexDigitInjective(c as int % 16, d as int % 16);
    assert c as int == d as int;
  }

  lemma HexDigitInjective(m: nat, n: nat)
    requires m < 16 && n < 16
    ensures HexDigit(m) == HexDigit(n) ==> m == n
  {
  }

  /** What the first two characters of an escape say about the character. */
  lemma EscapeShape(c: char)
    ensures (var t := EscapeChar(c);
             && (t[0] == '\\' ==> |t| >= 2)
             && (t[0] != '\\' ==> t == [c])
             && (|t| >= 2 ==> t[0] == '\\')
             && (|t| >= 2 && t[1] != 'u' ==> |t| == 2)
             && (|t| >= 2 && t[1] == 'u' ==> |t| == 6 && c as int < 32)
             && (|t| == 6 ==> t[4] == HexDigit(c as int / 16 % 16) && t[5] == HexDigit(c as int % 16)))
  {
  }

  lemma ShortEscapeDecodes(c: char, d: char)
    requires |EscapeChar(c)| == 2 && |EscapeChar(d)| == 2 && EscapeChar(c)[1] == EscapeChar(d)[1]
    ensures c == d
  {
    if c as int == 8 || c as int == 12 { assert c as int == d as int; }
  }

  /** An escaped character can be read off the front of a longer text in only one way. */
  lemma EscapeCharDecodes(c: char, d: char, r: string, s: string)
    requires EscapeChar(c) + r == EscapeChar(d) + s
    ensures c == d && r == s
  {
    var x, y := EscapeChar(c), EscapeChar(d);
    EscapeShape(c);
    EscapeShape(d);
    At(x, r, 0);
    At(y, s, 0);
    At(x, r, 1);
    At(y, s, 1);
    if x[0] == '\\' {
      assert x[1] == y[1];
      if x[1] == 'u' {
        At(x, r, 4);
        At(y, s, 4);
        At(x, r, 5);
        At(y, s, 5);
        HexPairDecodes(c, d);
      } else {
        ShortEscapeDecodes(c, d);
      }
    }
    StripPrefix(x, r, s);
  }

  lemma QuotedTailStart(a: string)
    ensures QuotedTail(a) != "" && (QuotedTail(a)[0] == '"' <==> a == "")
  {
  }

  lemma {:induction false} QuotedTailDecodes(a: string, b: string, r: string, s: string)
    requires QuotedTail(a) + r == QuotedTail(b) + s
    ensures a == b && r == s
    decreases a
  {
    QuotedTailStart(a);
    QuotedTailStart(b);
    At(QuotedTail(a), r, 0);
    At(QuotedTail(b), s, 0);
    if a == "" {
      StripPrefix("\"", r, s);
    } else {
      Reassociate(EscapeChar(a[0]), QuotedTail(a[1..]), r);
      Reassociate(EscapeChar(b[0]), QuotedTail(b[1..]), s);
      EscapeCharDecodes(a[0], b[0], QuotedTail(a[1..]) + r, QuotedTail(b[1..]) + s);
      QuotedTailDecodes(a[1..], b[1..], r, s);
      assert a == [a[0]] + a[1..] && b == [b[0]] + b[1..];
    }
  }

  lemma QuoteDecodes(a: string, b: string, r: string, s: string)
    requires Quote(a) + r == Quote(b) + s
    ensures a == b && r == s
  {
    Reassociate("\"", QuotedTail(a), r);
    Reassociate("\"", QuotedTail(b), s);
    StripPrefix("\"", QuotedTail(a) + r, QuotedTail(b) + s);
    QuotedTailDecodes(a, b, r, s);
  }

  /** The text that follows a value in a larger text never continues a number. */
  predicate Delimited(r: string) {
    r == "" || !NumberChar(r[0])
  }

  predicate AllNumberChars(a: string) {
    forall i :: 0 <= i < |a| ==> NumberChar(a[i])
  }

  lemma NumberDecodes(a: string, b: string, r: string, s: string)
    requires AllNumberChars(a) && AllNumberChars(b)
    requires Delimited(r) && Delimited(s) && a + r == b + s
    ensures a == b && r == s
  {
    At(a, r, |a|);
    At(b, s, |a|);
    At(a, r, |b|);
    At(b, s, |b|);
    assert |a| == |b|;
    assert a == (a + r)[..|a|] && b == (b + s)[..|b|];
    StripPrefix(a, r, s);
  }

  /** The first character of a value's text tells its kind. */
  function Kind(v: Json): nat {
    match v
    case JNull => 0
    case JBool(b) => if b then 1 else 2
    case JNumber(_) => 3
    case JString(_) => 4
    case JArray(_) => 5
    case JObject(_) => 6
  }

  lemma FirstCharTellsKind(v: Json, w: Json)
    requires WellFormed(v) && WellFormed(w)
    ensures Text(v) != "" && Text(w) != "" && Text(v)[0] != ']'
    ensures Text(v)[0] == Text(w)[0] ==> Kind(v) == Kind(w)
  {
  }

  /**
   A value's text can be read off the front of any longer text in only one way: no JSON text is a proper prefix of
   another, even though payload strings may hold any character.
   */
  lemma {:induction false} TextDecodes(v: Json, w: Json, r: string, s: string)
    requires WellFormed(v) && WellFormed(w) && Delimited(r) && Delimited(s)
    requires Text(v) + r == Text(w) + s
    ensures v == w && r == s
    decreases v, 0
  {
    FirstCharTellsKind(v, w);
    At(Text(v), r, 0);
    At(Text(w), s, 0);
    match v
    case JNumber(a) => NumberDecodes(a, w.digits, r, s);
    case JString(a) => QuoteDecodes(a, w.s, r, s);
    case JArray(a) => ArrayDecodes(a, w.items, r, s);
    case JObject(a) => ObjectDecodes(a, w.members, r, s);
    case _ => StripPrefix(Text(v), r, s);
  }

  lemma ArrayStart(a: Items)
    requires WellFormedItems(a)
    ensures |Text(JArray(a))| >= 2 && (Text(JArray(a))[1] == ']' <==> a.EndItems?)
  {
    if a.Item? {
      FirstCharTellsKind(a.head, a.head);
      At(Text(a.head), ItemsTail(a.tail), 0);
    }
  }

  lemma {:induction false} ArrayDecodes(a: Items, b: Items, r: string, s: string)
    requires WellFormedItems(a) && WellFormedItems(b) && Delimited(r) && Delimited(s)
    requires Text(JArray(a)) + r == Text(JArray(b)) + s
    ensures a == b && r == s
    decreases a, 2
  {
    ArrayStart(a);
    ArrayStart(b);
    At(Text(JArray(a)), r, 1);
    At(Text(JArray(b)), s, 1);
    if a.EndItems? {
      StripPrefix("[]", r, s);
    } else {
      ItemAppend("[", Text(a.head), ItemsTail(a.tail), r);
      ItemAppend("[", Text(b.head), ItemsTail(b.tail), s);
      StripPrefix("[", Text(a.head) + (ItemsTail(a.tail) + r), Text(b.head) + (ItemsTail(b.tail) + s));
      TextDecodes(a.head, b.head, ItemsTail(a.tail) + r, ItemsTail(b.tail) + s);
      ItemsTailDecodes(a.tail, b.tail, r, s);
    }
  }

  lemma ItemAppend(lead: string, t: string, after: string, r: string)
    ensures (lead + (t + after)) + r == lead + (t + (after + r))
  {
    Reassociate(t, after, r);
    Reassociate(lead, t + after, r);
  }

  lemma {:induction false} ItemsTailDecodes(a: Items, b: Items, r: string, s: string)
    requires WellFormedItems(a) && WellFormedItems(b) && Delimited(r) && Delimited(s)
    requires ItemsTail(a) + r == ItemsTail(b) + s
    ensures a == b && r == s
    decreases a, 1
  {
    At(ItemsTail(a), r, 0);
    At(ItemsTail(b), s, 0);
    if a.EndItems? {
      StripPrefix("]", r, s);
    } else {
      ItemAppend(",", Text(a.head), ItemsTail(a.tail), r);
      ItemAppend(",", Text(b.head), ItemsTail(b.tail), s);
      StripPrefix(",", Text(a.head) + (ItemsTail(a.tail) + r), Text(b.head) + (ItemsTail(b.tail) + s));
      TextDecodes(a.head, b.head, ItemsTail(a.tail) + r, ItemsTail(b.tail) + s);
      ItemsTailDecodes(a.tail, b.tail, r, s);
    }
  }

  /** A pair behind a one-character lead, with more text behind it. */
  lemma PairAppend(lead: string, k: string, t: string, after: string, r: string)
    ensures (lead + Pair(k, t, after)) + r == lead + Pair(k, t, after + r)
  {
    Reassociate(t, after, r);
    Reassociate(":", t + after, r);
    Reassociate(Quote(k), ":" + (t + after), r);
    Reassociate(lead, Pair(k, t, after), r);
  }

  lemma {:induction false} PairDecodes(k: string, x: Json, after: string, k': string, x': Json, after': string)
    requires WellFormed(x) && WellFormed(x') && Delimited(after) && Delimited(after')
    requires Pair(k, Text(x), after) == Pair(k', Text(x'), after')
    ensures k == k' && x == x' && after == after'
    decreases x, 1
  {
    QuoteDecodes(k, k', ":" + (Text(x) + after), ":" + (Text(x') + after'));
    StripPrefix(":", Text(x) + after, Text(x') + after');
    TextDecodes(x, x', after, after');
  }

  lemma MembersTailDelimited(ms: Members, r: string)
    ensures Delimited(MembersTail(ms) + r)
  {
    At(MembersTail(ms), r, 0);
  }

  lemma ObjectStart(a: Members)
    ensures |Text(JObject(a))| >= 2 && (Text(JObject(a))[1] == '}' <==> a.EndMembers?)
  {
  }

  lemma {:induction false} ObjectDecodes(a: Members, b: Members, r: string, s: string)
    requires WellFormedMembers(a) && WellFormedMembers(b) && Delimited(r) && Delimited(s)
    requires Text(JObject(a)) + r == Text(JObject(b)) + s
    ensures a == b && r == s
    decreases a, 2
  {
    ObjectStart(a);
    ObjectStart(b);
    At(Text(JObject(a)), r, 1);
    At(Text(JObject(b)), s, 1);
    if a.EndMembers? {
      StripPrefix("{}", r, s);
    } else {
      MembersDecode("{", a, b, r, s);
    }
  }

  /** Two non-empty member lists behind the same opening. */
  lemma {:induction false} MembersDecode(lead: string, a: Members, b: Members, r: string, s: string)
    requires a.Member? && b.Member? && WellFormedMembers(a) && WellFormedMembers(b) && Delimited(r) && Delimited(s)
    requires (lead + Pair(a.key, Text(a.value), MembersTail(a.rest))) + r
             == (lead + Pair(b.key, Text(b.value), MembersTail(b.rest))) + s
    ensures a == b && r == s
    decreases a, 0
  {
    PairAppend(lead, a.key, Text(a.value), MembersTail(a.rest), r);
    PairAppend(lead, b.key, Text(b.value), MembersTail(b.rest), s);
    StripPrefix(lead, Pair(a.key, Text(a.value), MembersTail(a.rest) + r),
                Pair(b.key, Text(b.value), MembersTail(b.rest) + s));
    MembersTailDelimited(a.rest, r);
    MembersTailDelimited(b.rest, s);
    PairDecodes(a.key, a.value, MembersTail(a.rest) + r, b.key, b.value, MembersTail(b.rest) + s);
    MembersTailDecodes(a.rest, b.rest, r, s);
  }

  lemma {:induction false} MembersTailDecodes(a: Members, b: Members, r: string, s: string)
    requires WellFormedMembers(a) && WellFormedMembers(b) && Delimited(r) && Delimited(s)
    requires MembersTail(a) + r == MembersTail(b) + s
    ensures a == b && r == s
    decreases a, 1
  {
    At(MembersTail(a), r, 0);
    At(MembersTail(b), s, 0);
    if a.EndMembers? {
      StripPrefix("}", r, s);
    } else {
      MembersDecode(",", a, b, r, s);
    }
  }
}
