/**
 What a jsonb column does to an object: its keys come back shorter-first, then bytewise, and JSON.parse moves keys
 that are array indices to the front. Everything else about a payload survives the round trip.
 */
module Jsonb {
  import opened Json

  function Utf8Length(c: char): nat {
    var n := c as int;
    if n < 0x80 then 1 else if n < 0x800 then 2 else if n < 0x10000 then 3 else 4
  }

  function ByteLength(k: string): nat {
    if k == "" then 0 else Utf8Length(k[0]) + ByteLength(k[1..])
  }

  /** Code-point order, which is the byte order of UTF-8. */
  predicate LexLess(a: string, b: string) {
    b != "" && (a == "" || a[0] < b[0] || (a[0] == b[0] && LexLess(a[1..], b[1..])))
  }

  predicate JsonbLess(a: string, b: string) {
    ByteLength(a) < ByteLength(b) || (ByteLength(a) == ByteLength(b) && LexLess(a, b))
  }

  predicate AllDigits(k: string) {
    forall i :: 0 <= i < |k| ==> '0' <= k[i] <= '9'
  }

  function Decimal(k: string): nat
    requires AllDigits(k)
  {
    if k == "" then 0 else 10 * Decimal(k[..|k| - 1]) + (k[|k| - 1] as int - '0' as int)
  }

  /** A canonical array index: JavaScript orders such keys first. */
  predicate IsIndexKey(k: string) {
    k != "" && AllDigits(k) && (k == "0" || k[0] != '0') && Decimal(k) < 4294967295
  }

  /** The order in which an object parsed back from jsonb lists its keys. */
  predicate KeyBefore(a: string, b: string) {
    if IsIndexKey(a) != IsIndexKey(b) then IsIndexKey(a) else JsonbLess(a, b)
  }

  lemma {:induction false} LexLessFacts(a: string, b: string, c: string)
    ensures !LexLess(a, a)
    ensures LexLess(a, b) && LexLess(b, c) ==> LexLess(a, c)
    ensures a == b || LexLess(a, b) || LexLess(b, a)
    decreases a
  {
    if a != "" {
      LexLessFacts(a[1..], if b != "" then b[1..] else "", if c != "" then c[1..] else "");
      if b != "" && a[0] == b[0] {
        assert a == [a[0]] + a[1..] && b == [b[0]] + b[1..];
      }
    }
  }

  lemma KeyBeforeFacts(a: string, b: string, c: string)
    ensures !KeyBefore(a, a)
    ensures KeyBefore(a, b) && KeyBefore(b, c) ==> KeyBefore(a, c)
    ensures a == b || KeyBefore(a, b) || KeyBefore(b, a)
  {
    LexLessFacts(a, b, c);
  }

  function InsertMember(k: string, v: Json, ms: Members): Members {
    match ms
    case EndMembers => Member(k, v, EndMembers)
    case Member(key, value, rest) =>
      if KeyBefore(key, k) then Member(key, value, InsertMember(k, v, rest)) else Member(k, v, ms)
  }

  /** The value as JSON.parse returns it after storage in a jsonb column. */
  function Stored(v: Json): Json
    decreases v, 0
  {
    match v
    case JArray(items) => JArray(StoredItems(items))
    case JObject(ms) => JObject(StoredMembers(ms))
    case _ => v
  }

  function StoredItems(items: Items): Items {
    match items
    case EndItems => EndItems
    case Item(h, t) => Item(Stored(h), StoredItems(t))
  }

  function StoredMembers(ms: Members): Members {
    match ms
    case EndMembers => EndMembers
    case Member(k, v, rest) => InsertMember(k, Stored(v), StoredMembers(rest))
  }

  /** Every key of ms comes after k. */
  predicate AllAfter(k: string, ms: Members) {
    match ms
    case EndMembers => true
    case Member(key, _, rest) => KeyBefore(k, key) && AllAfter(k, rest)
  }

  /** The value lists its keys, at every depth, in the order jsonb gives them back. */
  predicate InStoredOrder(v: Json)
    decreases v, 0
  {
    match v
    case JArray(items) => ItemsInStoredOrder(items)
    case JObject(ms) => MembersInStoredOrder(ms)
    case _ => true
  }

  predicate ItemsInStoredOrder(items: Items) {
    match items
    case EndItems => true
    case Item(h, t) => InStoredOrder(h) && ItemsInStoredOrder(t)
  }

  predicate MembersInStoredOrder(ms: Members) {
    match ms
    case EndMembers => true
    case Member(k, v, rest) => AllAfter(k, rest) && InStoredOrder(v) && MembersInStoredOrder(rest)
  }

  lemma {:induction false} AllAfterMonotone(k: string, l: string, ms: Members)
    requires KeyBefore(k, l) && AllAfter(l, ms)
    ensures AllAfter(k, ms)
  {
    if ms.Member? {
      KeyBeforeFacts(k, l, ms.key);
      AllAfterMonotone(k, l, ms.rest);
    }
  }

  lemma {:induction false} InsertKeeps(k: string, v: Json, ms: Members, l: string)
    ensures HasKey(InsertMember(k, v, ms), l) <==> l == k || HasKey(ms, l)
    ensures AllAfter(l, ms) && KeyBefore(l, k) ==> AllAfter(l, InsertMember(k, v, ms))
  {
    if ms.Member? { InsertKeeps(k, v, ms.rest, l); }
  }

  lemma {:induction false} InsertInOrder(k: string, v: Json, ms: Members)
    requires MembersInStoredOrder(ms) && !HasKey(ms, k) && InStoredOrder(v)
    ensures MembersInStoredOrder(InsertMember(k, v, ms))
    ensures WellFormedMembers(ms) && WellFormed(v) ==> WellFormedMembers(InsertMember(k, v, ms))
  {
    if ms.Member? {
      KeyBeforeFacts(k, ms.key, k);
      if KeyBefore(ms.key, k) {
        InsertInOrder(k, v, ms.rest);
        InsertKeeps(k, v, ms.rest, ms.key);
      } else {
        AllAfterMonotone(k, ms.key, ms.rest);
      }
    }
  }

  /** What comes back from jsonb is well-formed and in stored order. */
  lemma {:induction false} StoredIsInOrder(v: Json)
    requires WellFormed(v)
    ensures WellFormed(Stored(v)) && InStoredOrder(Stored(v))
    decreases v, 0
  {
    match v
    case JArray(items) => StoredItemsInOrder(items);
    case JObject(ms) => StoredMembersInOrder(ms);
    case _ =>
  }

  lemma {:induction false} StoredItemsInOrder(items: Items)
    requires WellFormedItems(items)
    ensures WellFormedItems(StoredItems(items)) && ItemsInStoredOrder(StoredItems(items))
  {
    if items.Item? {
      StoredIsInOrder(items.head);
      StoredItemsInOrder(items.tail);
    }
  }

  lemma {:induction false} StoredMembersInOrder(ms: Members)
    requires WellFormedMembers(ms)
    ensures WellFormedMembers(StoredMembers(ms)) && MembersInStoredOrder(StoredMembers(ms))
    ensures forall l :: HasKey(StoredMembers(ms), l) <==> HasKey(ms, l)
  {
    if ms.Member? {
      StoredIsInOrder(ms.value);
      StoredMembersInOrder(ms.rest);
      InsertInOrder(ms.key, Stored(ms.value), StoredMembers(ms.rest));
      forall l ensures HasKey(StoredMembers(ms), l) <==> HasKey(ms, l) {
        InsertKeeps(ms.key, Stored(ms.value), StoredMembers(ms.rest), l);
      }
    }
  }

  lemma {:induction false} InsertFirst(k: string, v: Json, ms: Members)
    requires AllAfter(k, ms)
    ensures InsertMember(k, v, ms) == Member(k, v, ms)
  {
    if ms.Member? { KeyBeforeFacts(k, ms.key, k); }
  }

  lemma {:induction false} OrderedIsFixed(v: Json)
    requires InStoredOrder(v)
    ensures Stored(v) == v
    decreases v, 0
  {
    match v
    case JArray(items) => OrderedItemsAreFixed(items);
    case JObject(ms) => OrderedMembersAreFixed(ms);
    case _ =>
  }

  lemma {:induction false} OrderedItemsAreFixed(items: Items)
    requires ItemsInStoredOrder(items)
    ensures StoredItems(items) == items
  {
    if items.Item? {
      OrderedIsFixed(items.head);
      OrderedItemsAreFixed(items.tail);
    }
  }

  lemma {:induction false} OrderedMembersAreFixed(ms: Members)
    requires MembersInStoredOrder(ms)
    ensures StoredMembers(ms) == ms
  {
    if ms.Member? {
      OrderedIsFixed(ms.value);
      OrderedMembersAreFixed(ms.rest);
      InsertFirst(ms.key, ms.value, ms.rest);
    }
  }

  /**
   A payload's text survives storage and re-reading exactly when it already lists its keys in stored order; and
   storing is idempotent, so a payload that was read back once never changes again.
   */
  lemma TextSurvivesIffInStoredOrder(v: Json)
    requires WellFormed(v)
    ensures Text(Stored(v)) == Text(v) <==> InStoredOrder(v)
    ensures Stored(Stored(v)) == Stored(v)
  {
    StoredIsInOrder(v);
    OrderedIsFixed(Stored(v));
    if InStoredOrder(v) {
      OrderedIsFixed(v);
    }
    if Text(Stored(v)) == Text(v) {
      TextDecodes(Stored(v), v, "", "");
    }
  }
}
