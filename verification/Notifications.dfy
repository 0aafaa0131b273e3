/**
 The notification feed: idempotent fan-out on (recipient, event key), the two daily scans, read marks and the unread
 count. Pushes to sockets are best effort and leave no state. Row ids are fresh counters; times are parameters.
 */
module Notifications {
  import opened Prelude
  import opened Sums
  import C = Calendar
  import Json

  type Id = nat

  datatype Row = Row(id: Id, companyId: Id, recipient: Id, kind: string, title: string, eventKey: string, isRead: bool,
                     readAt: Option<int>)

  datatype Command = Command(companyId: Id, kind: string, title: string, eventKey: string)

  datatype EmitError = UnknownType | BlankTitle | BlankEventKey

  predicate Holds(rows: seq<Row>, recipient: Id, eventKey: string) {
    exists i :: 0 <= i < |rows| && rows[i].recipient == recipient && rows[i].eventKey == eventKey
  }

  function NewRow(id: Id, recipient: Id, c: Command): Row {
    Row(id, c.companyId, recipient, c.kind, c.title, c.eventKey, false, None)
  }

  /** INSERT ... ON CONFLICT (recipient_user_id, event_key) DO NOTHING. */
  function Inserted(rows: seq<Row>, r: Row): seq<Row> {
    if Holds(rows, r.recipient, r.eventKey) then rows else rows + [r]
  }

  // ---- recipients ---------------------------------------------------------------------------------------------------

  /** Adds ids to a Set kept in insertion order. */
  function AddAll(known: seq<Id>, ids: seq<Id>): (out: seq<Id>)
    ensures forall u :: u in out <==> u in known || u in ids
    decreases ids
  {
    if ids == [] then known
    else AddAll(if ids[0] in known then known else known + [ids[0]], ids[1..])
  }

  /** The union of what each of the type's rules resolves to. */
  function Recipients(known: seq<Id>, resolved: seq<seq<Id>>): seq<Id>
    decreases resolved
  {
    if resolved == [] then known else Recipients(AddAll(known, resolved[0]), resolved[1..])
  }

  lemma {:induction false} AddAllDistinct(known: seq<Id>, ids: seq<Id>)
    requires Distinct(known)
    ensures Distinct(AddAll(known, ids))
    decreases ids
  {
    if ids != [] { AddAllDistinct(if ids[0] in known then known else known + [ids[0]], ids[1..]); }
  }

  /** Nobody is listed twice, and everybody some rule resolves to is listed. */
  lemma {:induction false} RecipientsAreTheUnion(known: seq<Id>, resolved: seq<seq<Id>>)
    requires Distinct(known)
    ensures Distinct(Recipients(known, resolved))
    ensures forall u :: u in Recipients(known, resolved)
              <==> u in known || exists i :: 0 <= i < |resolved| && u in resolved[i]
    decreases resolved
  {
    if resolved != [] {
      AddAllDistinct(known, resolved[0]);
      RecipientsAreTheUnion(AddAll(known, resolved[0]), resolved[1..]);
      forall u ensures (exists i :: 0 <= i < |resolved| && u in resolved[i])
                  <==> u in resolved[0] || exists i :: 0 <= i < |resolved[1..]| && u in resolved[1..][i]
      {
        if i :| 0 <= i < |resolved| && u in resolved[i] { if i > 0 { assert u in resolved[1..][i - 1]; } }
        if i :| 0 <= i < |resolved[1..]| && u in resolved[1..][i] { assert u in resolved[i + 1]; }
      }
    }
  }

  // ---- what an emit does ------------------------------------------------------------------------------------------

  function FanOut(rows: seq<Row>, nextId: Id, users: seq<Id>, c: Command): seq<Row>
    decreases users
  {
    if users == [] then rows else FanOut(Inserted(rows, NewRow(nextId, users[0], c)), nextId + 1, users[1..], c)
  }

  /** How many of the users have no row with the key yet. */
  function Lacking(rows: seq<Row>, users: seq<Id>, eventKey: string): nat {
    if users == [] then 0 else (if Holds(rows, users[0], eventKey) then 0 else 1) + Lacking(rows, users[1..], eventKey)
  }

  function RecordError(c: Command): Option<EmitError> {
    if C.Trim(c.title) == "" then Some(BlankTitle) else if C.Trim(c.eventKey) == "" then Some(BlankEventKey) else None
  }

  /** What stops the fan-out; nothing does when nobody is to be told. */
  function EmitErrorOf(catalogue: set<string>, users: seq<Id>, c: Command): Option<EmitError> {
    if c.kind !in catalogue then Some(UnknownType)
    else if users == [] then None
    else RecordError(c)
  }

  // ---- read marks -------------------------------------------------------------------------------------------------

  predicate IsOwn(r: Row, user: Id, companyId: Id) { r.recipient == user && r.companyId == companyId }

  function MarkedOne(rows: seq<Row>, id: Id, user: Id, companyId: Id, now: int): seq<Row> {
    if rows == [] then []
    else [if rows[0].id == id && IsOwn(rows[0], user, companyId)
          then rows[0].(isRead := true, readAt := Some(if rows[0].readAt.Some? then rows[0].readAt.value else now))
          else rows[0]] + MarkedOne(rows[1..], id, user, companyId, now)
  }

  predicate IsUnread(r: Row, user: Id, companyId: Id) { IsOwn(r, user, companyId) && !r.isRead }

  predicate ToMark(r: Row, user: Id, companyId: Id, kind: Option<string>) {
    IsUnread(r, user, companyId) && (kind.Some? ==> r.kind == kind.value)
  }

  function MarkedAll(rows: seq<Row>, user: Id, companyId: Id, kind: Option<string>, now: int): seq<Row> {
    if rows == [] then []
    else [if ToMark(rows[0], user, companyId, kind) then rows[0].(isRead := true, readAt := Some(now)) else rows[0]]
         + MarkedAll(rows[1..], user, companyId, kind, now)
  }

  function UnreadCount(rows: seq<Row>, user: Id, companyId: Id): nat {
    if rows == [] then 0
    else (if IsUnread(rows[0], user, companyId) then 1 else 0) + UnreadCount(rows[1..], user, companyId)
  }

  function CountToMark(rows: seq<Row>, user: Id, companyId: Id, kind: Option<string>): nat {
    if rows == [] then 0
    else (if ToMark(rows[0], user, companyId, kind) then 1 else 0) + CountToMark(rows[1..], user, companyId, kind)
  }

  // ---- the invariant ----------------------------------------------------------------------------------------------

  ghost predicate OnePerKey(rows: seq<Row>) {
    forall i, j :: 0 <= i < j < |rows| ==>
        rows[i].recipient != rows[j].recipient || rows[i].eventKey != rows[j].eventKey
  }

  ghost predicate UniqueIds(rows: seq<Row>, nextId: Id) {
    && (forall i :: 0 <= i < |rows| ==> rows[i].id < nextId)
    && (forall i, j :: 0 <= i < j < |rows| ==> rows[i].id != rows[j].id)
  }

  /** A read row knows when it was read. */
  ghost predicate ReadTimesKnown(rows: seq<Row>) {
    forall i :: 0 <= i < |rows| ==> (rows[i].isRead <==> rows[i].readAt.Some?)
  }

  ghost predicate FeedOk(rows: seq<Row>, nextId: Id) {
    OnePerKey(rows) && UniqueIds(rows, nextId) && ReadTimesKnown(rows)
  }

  /** The same notification, at most read since. */
  predicate SameRow(r: Row, r': Row) {
    r' == r.(isRead := r'.isRead, readAt := r'.readAt) && (r.isRead ==> r' == r)
  }

  /** Rows are only added, and a row changes at most once, when it is first read. */
  ghost predicate Later(rows: seq<Row>, rows': seq<Row>) {
    |rows| <= |rows'| && forall i :: 0 <= i < |rows| ==> SameRow(rows[i], rows'[i])
  }

  lemma LaterTrans(a: seq<Row>, b: seq<Row>, c: seq<Row>)
    requires Later(a, b) && Later(b, c)
    ensures Later(a, c)
  {
    forall i | 0 <= i < |a| ensures SameRow(a[i], c[i]) { assert SameRow(a[i], b[i]) && SameRow(b[i], c[i]); }
  }

  lemma InsertKeepsFeed(rows: seq<Row>, nextId: Id, user: Id, c: Command)
    requires FeedOk(rows, nextId)
    ensures FeedOk(Inserted(rows, NewRow(nextId, user, c)), nextId + 1)
            && Later(rows, Inserted(rows, NewRow(nextId, user, c)))
  {
    assert forall i :: 0 <= i < |rows| && rows[i].recipient == user && rows[i].eventKey == c.eventKey ==>
        Holds(rows, user, c.eventKey);
  }

  lemma {:induction false} FanOutKeepsFeed(rows: seq<Row>, nextId: Id, users: seq<Id>, c: Command)
    requires FeedOk(rows, nextId)
    ensures FeedOk(FanOut(rows, nextId, users, c), nextId + |users|) && Later(rows, FanOut(rows, nextId, users, c))
    decreases users
  {
    if users != [] {
      var rows1 := Inserted(rows, NewRow(nextId, users[0], c));
      InsertKeepsFeed(rows, nextId, users[0], c);
      FanOutKeepsFeed(rows1, nextId + 1, users[1..], c);
      LaterTrans(rows, rows1, FanOut(rows1, nextId + 1, users[1..], c));
    }
  }

  /** Which keys are held after a fan-out: those held before, and every recipient's. */
  lemma {:induction false} FanOutHolds(rows: seq<Row>, nextId: Id, users: seq<Id>, c: Command, user: Id, key: string)
    ensures Holds(FanOut(rows, nextId, users, c), user, key)
            <==> Holds(rows, user, key) || (user in users && key == c.eventKey)
    decreases users
  {
    if users != [] {
      InsertedHolds(rows, NewRow(nextId, users[0], c), user, key);
      FanOutHolds(Inserted(rows, NewRow(nextId, users[0], c)), nextId + 1, users[1..], c, user, key);
    }
  }

  lemma InsertedHolds(rows: seq<Row>, r: Row, user: Id, key: string)
    ensures Holds(Inserted(rows, r), user, key)
            <==> Holds(rows, user, key) || (r.recipient == user && r.eventKey == key)
  {
    var rows' := Inserted(rows, r);
    if i :| 0 <= i < |rows| && rows[i].recipient == user && rows[i].eventKey == key { assert rows'[i] == rows[i]; }
    if |rows'| > |rows| { assert rows'[|rows|] == r; }
  }

  lemma {:induction false} LackingElsewhere(rows: seq<Row>, r: Row, users: seq<Id>, key: string)
    requires r.recipient !in users
    ensures Lacking(Inserted(rows, r), users, key) == Lacking(rows, users, key)
  {
    if users != [] {
      InsertedHolds(rows, r, users[0], key);
      LackingElsewhere(rows, r, users[1..], key);
    }
  }

  lemma {:induction false} FanOutOneMore(rows: seq<Row>, nextId: Id, users: seq<Id>, c: Command, user: Id)
    ensures FanOut(rows, nextId, users + [user], c)
            == Inserted(FanOut(rows, nextId, users, c), NewRow(nextId + |users|, user, c))
    decreases users
  {
    if users == [] {
      assert users + [user] == [user] && [user][1..] == [];
    } else {
      assert (users + [user])[0] == users[0] && (users + [user])[1..] == users[1..] + [user];
      FanOutOneMore(Inserted(rows, NewRow(nextId, users[0], c)), nextId + 1, users[1..], c, user);
    }
  }

  /** A fan-out adds exactly one row for each recipient that had none with the key. */
  lemma {:induction false} FanOutCounts(rows: seq<Row>, nextId: Id, users: seq<Id>, c: Command)
    requires Distinct(users)
    ensures |FanOut(rows, nextId, users, c)| == |rows| + Lacking(rows, users, c.eventKey)
    decreases users
  {
    if users != [] {
      var r := NewRow(nextId, users[0], c);
      assert forall i :: 0 < i < |users| ==> users[0] != users[i];
      LackingElsewhere(rows, r, users[1..], c.eventKey);
      FanOutCounts(Inserted(rows, r), nextId + 1, users[1..], c);
    }
  }

  lemma {:induction false} MarkedOneIsLater(rows: seq<Row>, id: Id, user: Id, companyId: Id, now: int)
    requires ReadTimesKnown(rows)
    ensures |MarkedOne(rows, id, user, companyId, now)| == |rows|
            && Later(rows, MarkedOne(rows, id, user, companyId, now))
    ensures ReadTimesKnown(MarkedOne(rows, id, user, companyId, now))
  {
    if rows != [] { MarkedOneIsLater(rows[1..], id, user, companyId, now); }
  }

  lemma {:induction false} MarkedAllIsLater(rows: seq<Row>, user: Id, companyId: Id, kind: Option<string>, now: int)
    requires ReadTimesKnown(rows)
    ensures |MarkedAll(rows, user, companyId, kind, now)| == |rows|
            && Later(rows, MarkedAll(rows, user, companyId, kind, now))
    ensures ReadTimesKnown(MarkedAll(rows, user, companyId, kind, now))
  {
    if rows != [] { MarkedAllIsLater(rows[1..], user, companyId, kind, now); }
  }

  lemma SameLengthKeepsFeed(rows: seq<Row>, rows': seq<Row>, nextId: Id)
    requires FeedOk(rows, nextId) && |rows'| == |rows| && Later(rows, rows') && ReadTimesKnown(rows')
    ensures FeedOk(rows', nextId)
  {
    assert forall i :: 0 <= i < |rows| ==> SameRow(rows[i], rows'[i]);
  }

  // ---- runs -------------------------------------------------------------------------------------------------------

  datatype Feed = Feed(rows: seq<Row>, nextId: Id)

  datatype Op =
    | Emit(catalogue: set<string>, resolved: seq<seq<Id>>, command: Command)
    | MarkOne(id: Id, user: Id, companyId: Id, now: int)
    | MarkAll(user: Id, companyId: Id, kind: Option<string>, now: int)

  function Step(f: Feed, op: Op): Feed {
    match op
    case Emit(catalogue, resolved, c) =>
      var users := Recipients([], resolved);
      if c.kind !in catalogue || users == [] then f
      else if RecordError(c).Some? then f.(nextId := f.nextId + 1)
      else Feed(FanOut(f.rows, f.nextId, users, c), f.nextId + |users|)
    case MarkOne(id, user, co, now) => f.(rows := MarkedOne(f.rows, id, user, co, now))
    case MarkAll(user, co, kind, now) => f.(rows := MarkedAll(f.rows, user, co, kind, now))
  }

  function Run(f: Feed, ops: seq<Op>): Feed
    decreases ops
  {
    if ops == [] then f else Run(Step(f, ops[0]), ops[1..])
  }

  lemma StepKeepsFeed(f: Feed, op: Op)
    requires FeedOk(f.rows, f.nextId)
    ensures FeedOk(Step(f, op).rows, Step(f, op).nextId) && Later(f.rows, Step(f, op).rows)
  {
    match op
    case Emit(catalogue, resolved, c) => FanOutKeepsFeed(f.rows, f.nextId, Recipients([], resolved), c);
    case MarkOne(id, user, co, now) =>
      MarkedOneIsLater(f.rows, id, user, co, now);
      SameLengthKeepsFeed(f.rows, Step(f, op).rows, f.nextId);
    case MarkAll(user, co, kind, now) =>
      MarkedAllIsLater(f.rows, user, co, kind, now);
      SameLengthKeepsFeed(f.rows, Step(f, op).rows, f.nextId);
  }

  /**
   Over any run of emits, scans and read marks: at most one row per (recipient, event key), no row ever disappears or
   changes but for being marked read once, and a read time, once set, never changes.
   */
  lemma {:induction false} FeedOverRuns(f: Feed, ops: seq<Op>)
    requires FeedOk(f.rows, f.nextId)
    ensures FeedOk(Run(f, ops).rows, Run(f, ops).nextId) && Later(f.rows, Run(f, ops).rows)
    decreases ops
  {
    if ops != [] {
      StepKeepsFeed(f, ops[0]);
      FeedOverRuns(Step(f, ops[0]), ops[1..]);
      LaterTrans(f.rows, Step(f, ops[0]).rows, Run(f, ops).rows);
    }
  }

  lemma HeldStaysHeld(rows: seq<Row>, rows': seq<Row>, user: Id, key: string)
    requires Later(rows, rows') && Holds(rows, user, key)
    ensures Holds(rows', user, key)
  {
    var i :| 0 <= i < |rows| && rows[i].recipient == user && rows[i].eventKey == key;
    assert SameRow(rows[i], rows'[i]);
  }

  lemma {:induction false} FanOutToHolders(rows: seq<Row>, nextId: Id, users: seq<Id>, c: Command)
    requires forall u <- users :: Holds(rows, u, c.eventKey)
    ensures FanOut(rows, nextId, users, c) == rows
    decreases users
  {
    if users != [] {
      assert users[0] in users;
      FanOutToHolders(rows, nextId + 1, users[1..], c);
    }
  }

  /**
   Emitting an event key again - on whatever day, after whatever else has happened - adds no row for anyone who was a
   recipient the first time.
   */
  lemma EmittingAgainAddsNothing(f: Feed, first: Op, between: seq<Op>, again: Op)
    requires FeedOk(f.rows, f.nextId) && first.Emit? && again.Emit? && again.command.eventKey == first.command.eventKey
    requires EmitErrorOf(first.catalogue, Recipients([], first.resolved), first.command).None?
    requires forall u <- Recipients([], again.resolved) :: u in Recipients([], first.resolved)
    ensures Step(Run(Step(f, first), between), again).rows == Run(Step(f, first), between).rows
  {
    var f1 := Step(f, first);
    var f2 := Run(f1, between);
    var users := Recipients([], again.resolved);
    StepKeepsFeed(f, first);
    FeedOverRuns(f1, between);
    forall u | u in users ensures Holds(f2.rows, u, again.command.eventKey) {
      FanOutHolds(f.rows, f.nextId, Recipients([], first.resolved), first.command, u, first.command.eventKey);
      HeldStaysHeld(f1.rows, f2.rows, u, first.command.eventKey);
    }
    FanOutToHolders(f2.rows, f2.nextId, users, again.command);
  }

  // ---- the unread count is conserved ------------------------------------------------------------------------------

  /** Rows an operation adds to the user's feed: none or one. */
  function Gained(f: Feed, op: Op, user: Id, co: Id): nat {
    match op
    case Emit(catalogue, resolved, c) =>
      var users := Recipients([], resolved);
      if EmitErrorOf(catalogue, users, c).None? && user in users && c.companyId == co
          && !Holds(f.rows, user, c.eventKey) then 1 else 0
    case _ => 0
  }

  function UnreadWithId(rows: seq<Row>, id: Id, user: Id, co: Id): nat {
    if rows == [] then 0
    else (if rows[0].id == id && IsUnread(rows[0], user, co) then 1 else 0) + UnreadWithId(rows[1..], id, user, co)
  }

  /** Unread rows of the user that an operation marks read. */
  function Cleared(f: Feed, op: Op, user: Id, co: Id): nat {
    match op
    case MarkOne(id, u, c, _) => if u == user && c == co then UnreadWithId(f.rows, id, user, co) else 0
    case MarkAll(u, c, kind, _) => if u == user && c == co then CountToMark(f.rows, user, co, kind) else 0
    case _ => 0
  }

  lemma {:induction false} UnreadAppend(rows: seq<Row>, r: Row, user: Id, co: Id)
    ensures UnreadCount(rows + [r], user, co) == UnreadCount(rows, user, co) + if IsUnread(r, user, co) then 1 else 0
  {
    if rows == [] {
      assert rows + [r] == [r];
    } else {
      assert (rows + [r])[0] == rows[0] && (rows + [r])[1..] == rows[1..] + [r];
      UnreadAppend(rows[1..], r, user, co);
    }
  }

  lemma {:induction false} UnreadAfterFanOut(rows: seq<Row>, nextId: Id, users: seq<Id>, c: Command, user: Id, co: Id)
    requires Distinct(users)
    ensures UnreadCount(FanOut(rows, nextId, users, c), user, co)
         == UnreadCount(rows, user, co)
            + if user in users && c.companyId == co && !Holds(rows, user, c.eventKey) then 1 else 0
    decreases users
  {
    if users != [] {
      var r := NewRow(nextId, users[0], c);
      assert forall i :: 0 < i < |users| ==> users[0] != users[i];
      assert user in users <==> user == users[0] || user in users[1..];
      UnreadAppend(rows, r, user, co);
      InsertedHolds(rows, r, user, c.eventKey);
      UnreadAfterFanOut(Inserted(rows, r), nextId + 1, users[1..], c, user, co);
    }
  }

  lemma {:induction false} UnreadAfterMarkOne(rows: seq<Row>, id: Id, u: Id, c: Id, now: int, user: Id, co: Id)
    ensures UnreadCount(MarkedOne(rows, id, u, c, now), user, co)
            + (if u == user && c == co then UnreadWithId(rows, id, user, co) else 0)
         == UnreadCount(rows, user, co)
  {
    if rows != [] { UnreadAfterMarkOne(rows[1..], id, u, c, now, user, co); }
  }

  lemma {:induction false} UnreadAfterMarkAll(rows: seq<Row>, u: Id, c: Id, kind: Option<string>, now: int,
          user: Id, co: Id)
    ensures UnreadCount(MarkedAll(rows, u, c, kind, now), user, co)
            + (if u == user && c == co then CountToMark(rows, user, co, kind) else 0)
         == UnreadCount(rows, user, co)
  {
    if rows != [] { UnreadAfterMarkAll(rows[1..], u, c, kind, now, user, co); }
  }

  lemma StepConservesUnread(f: Feed, op: Op, user: Id, co: Id)
    ensures UnreadCount(Step(f, op).rows, user, co) + Cleared(f, op, user, co)
            == UnreadCount(f.rows, user, co) + Gained(f, op, user, co)
  {
    match op
    case Emit(catalogue, resolved, c) =>
      RecipientsAreTheUnion([], resolved);
      UnreadAfterFanOut(f.rows, f.nextId, Recipients([], resolved), c, user, co);
    case MarkOne(id, u, c, now) => UnreadAfterMarkOne(f.rows, id, u, c, now, user, co);
    case MarkAll(u, c, kind, now) => UnreadAfterMarkAll(f.rows, u, c, kind, now, user, co);
  }

  function AllGained(f: Feed, ops: seq<Op>, user: Id, co: Id): nat
    decreases ops
  {
    if ops == [] then 0 else Gained(f, ops[0], user, co) + AllGained(Step(f, ops[0]), ops[1..], user, co)
  }

  function AllCleared(f: Feed, ops: seq<Op>, user: Id, co: Id): nat
    decreases ops
  {
    if ops == [] then 0 else Cleared(f, ops[0], user, co) + AllCleared(Step(f, ops[0]), ops[1..], user, co)
  }

  /**
   Conservation: over any run, a user's unread count changes by exactly what was created for them less what they newly
   read.
   */
  lemma {:induction false} UnreadIsConserved(f: Feed, ops: seq<Op>, user: Id, co: Id)
    ensures UnreadCount(Run(f, ops).rows, user, co) + AllCleared(f, ops, user, co)
            == UnreadCount(f.rows, user, co) + AllGained(f, ops, user, co)
    decreases ops
  {
    if ops != [] {
      StepConservesUnread(f, ops[0], user, co);
      UnreadIsConserved(Step(f, ops[0]), ops[1..], user, co);
    }
  }

  // ---- the daily scans --------------------------------------------------------------------------------------------

  /** A period about to close, or an overdue certificate, with the people its type's rules resolve to that day. */
  datatype Due = Due(companyId: Id, id: string, date: string, caption: string, resolved: seq<seq<Id>>)

  datatype Scan = PeriodClosingSoon | IpcOverdue

  function EventKey(scan: Scan, due: Due): string {
    (if scan.PeriodClosingSoon? then "period-closing" else "ipc-overdue") + (":" + (due.id + (":" + due.date)))
  }

  function Reminder(scan: Scan, due: Due): Command {
    if scan.PeriodClosingSoon?
    then Command(due.companyId, "PERIOD_CLOSING_SOON",
                 "Accounting period \"" + due.caption + "\" closes on " + due.date, EventKey(scan, due))
    else Command(due.companyId, "IPC_OVERDUE", due.caption + " is overdue (due " + due.date + ")", EventKey(scan, due))
  }

  predicate NoColon(s: string) { ':' !in s }

  lemma ColonDecodes(a: string, b: string, r: string, s: string)
    requires NoColon(a) && NoColon(b) && a + (":" + r) == b + (":" + s)
    ensures a == b && r == s
  {
    Json.At(a, ":" + r, |a|);
    Json.At(b, ":" + s, |a|);
    Json.At(a, ":" + r, |b|);
    Json.At(b, ":" + s, |b|);
    assert |a| == |b|;
    assert a == (a + (":" + r))[..|a|] && b == (b + (":" + s))[..|b|];
    Json.StripPrefix(a, ":" + r, ":" + s);
    Json.StripPrefix(":", r, s);
  }

  /** Different reminders never share a key: neither swallows the other. */
  lemma EventKeysTellDuesApart(scan: Scan, due: Due, scan': Scan, due': Due)
    requires NoColon(due.id) && NoColon(due'.id)
    ensures EventKey(scan, due) == EventKey(scan', due') ==> scan == scan' && due.id == due'.id && due.date == due'.date
  {
    if EventKey(scan, due) == EventKey(scan', due') {
      var p := if scan.PeriodClosingSoon? then "period-closing" else "ipc-overdue";
      var p' := if scan'.PeriodClosingSoon? then "period-closing" else "ipc-overdue";
      ColonDecodes(p, p', due.id + (":" + due.date), due'.id + (":" + due'.date));
      assert |"period-closing"| != |"ipc-overdue"|;
      ColonDecodes(due.id, due'.id, due.date, due'.date);
    }
  }

  function ScanOps(catalogue: set<string>, scan: Scan, dues: seq<Due>): seq<Op> {
    if dues == [] then []
    else [Emit(catalogue, dues[0].resolved, Reminder(scan, dues[0]))] + ScanOps(catalogue, scan, dues[1..])
  }

  /** The dues for which at least one recipient was told for the first time. */
  function Raised(f: Feed, catalogue: set<string>, scan: Scan, dues: seq<Due>): nat
    decreases dues
  {
    if dues == [] then 0
    else
      var op := Emit(catalogue, dues[0].resolved, Reminder(scan, dues[0]));
      (if Lacking(f.rows, Recipients([], dues[0].resolved), EventKey(scan, dues[0])) > 0 then 1 else 0)
      + Raised(Step(f, op), catalogue, scan, dues[1..])
  }

  /** Scanning what is left ends in the feed, and brings what is raised to the total. */
  ghost predicate ScanEnds(f: Feed, catalogue: set<string>, scan: Scan, left: seq<Due>, raised: nat, end: Feed,
          total: nat)
  {
    Run(f, ScanOps(catalogue, scan, left)) == end && raised + Raised(f, catalogue, scan, left) == total
  }

  /** Whether a reminder tells somebody for the first time. */
  function FirstTold(f: Feed, scan: Scan, due: Due): nat {
    if Lacking(f.rows, Recipients([], due.resolved), Reminder(scan, due).eventKey) > 0 then 1 else 0
  }

  lemma ScanHead(f: Feed, catalogue: set<string>, scan: Scan, dues: seq<Due>, i: nat, raised: nat, end: Feed,
          total: nat)
    requires i < |dues| && ScanEnds(f, catalogue, scan, dues[i..], raised, end, total)
    ensures ScanEnds(Step(f, Emit(catalogue, dues[i].resolved, Reminder(scan, dues[i]))), catalogue, scan,
                     dues[i + 1..], raised + FirstTold(f, scan, dues[i]), end, total)
  {
    assert dues[i..][0] == dues[i] && dues[i..][1..] == dues[i + 1..];
    var ops := ScanOps(catalogue, scan, dues[i..]);
    assert ops[1..] == ScanOps(catalogue, scan, dues[i + 1..]);
  }

  /** The scans name their type and write non-blank titles and keys, so their emits cannot fail. */
  lemma RemindersAreValid(catalogue: set<string>, scan: Scan, due: Due, users: seq<Id>)
    requires "PERIOD_CLOSING_SOON" in catalogue && "IPC_OVERDUE" in catalogue
    ensures EmitErrorOf(catalogue, users, Reminder(scan, due)).None?
  {
    var c := Reminder(scan, due);
    var tail := due.id + (":" + due.date);
    if scan.PeriodClosingSoon? {
      NotBlank(c.title, 0);
      NotBlank(c.eventKey, 0);
    } else {
      assert c.title == due.caption + (" is overdue (due " + (due.date + ")"));
      assert c.title[|due.caption| + 1] == 'i';
      NotBlank(c.title, |due.caption| + 1);
      NotBlank(c.eventKey, 0);
    }
  }

  lemma {:induction false} NotBlank(s: string, i: nat)
    requires i < |s| && !C.IsWhite(s[i])
    ensures C.Trim(s) != ""
    decreases |s|
  {
    if C.IsWhite(s[0]) {
      NotBlank(s[1..], i - 1);
    } else if C.IsWhite(s[|s| - 1]) {
      NotBlank(s[..|s| - 1], i);
    }
  }

  // ---- the service and its table ----------------------------------------------------------------------------------

  /** The first own row with the id, as it reads now. */
  function ReadAtOf(rows: seq<Row>, id: Id, user: Id, companyId: Id): Option<int> {
    if rows == [] then None
    else if rows[0].id == id && IsOwn(rows[0], user, companyId) then rows[0].readAt
    else ReadAtOf(rows[1..], id, user, companyId)
  }

  predicate HasOwn(rows: seq<Row>, id: Id, user: Id, companyId: Id) {
    exists i :: 0 <= i < |rows| && rows[i].id == id && IsOwn(rows[i], user, companyId)
  }

  function FirstRead(readAt: Option<int>, now: int): int { if readAt.Some? then readAt.value else now }

  /** Another user's row, or no row at all: nothing is marked. */
  lemma {:induction false} MarkOthersNothing(rows: seq<Row>, id: Id, user: Id, companyId: Id, now: int)
    ensures !HasOwn(rows, id, user, companyId) ==> MarkedOne(rows, id, user, companyId, now) == rows
  {
    if rows != [] && !HasOwn(rows, id, user, companyId) {
      assert forall i :: 0 <= i < |rows[1..]| ==> rows[1..][i] == rows[i + 1];
      MarkOthersNothing(rows[1..], id, user, companyId, now);
    }
  }

  /** Marking answers with a time exactly when the row is the caller's: the first read time, or now. */
  lemma {:induction false} MarkOneAnswers(rows: seq<Row>, id: Id, user: Id, companyId: Id, now: int)
    ensures (var t := ReadAtOf(MarkedOne(rows, id, user, companyId, now), id, user, companyId);
             if HasOwn(rows, id, user, companyId)
             then t == Some(FirstRead(ReadAtOf(rows, id, user, companyId), now))
             else t.None?)
  {
    if rows != [] {
      MarkOneAnswers(rows[1..], id, user, companyId, now);
      assert HasOwn(rows, id, user, companyId)
          <==> (rows[0].id == id && IsOwn(rows[0], user, companyId)) || HasOwn(rows[1..], id, user, companyId) by {
        assert forall i :: 0 < i < |rows| ==> rows[1..][i - 1] == rows[i];
        assert forall i :: 0 <= i < |rows[1..]| ==> rows[1..][i] == rows[i + 1];
      }
    }
  }

  class NotificationService {
    var rows: seq<Row>
    var nextId: Id

    constructor ()
      ensures State() == Feed([], 0)
    {
      rows, nextId := [], 0;
    }

    function State(): Feed
      reads this
    {
      Feed(rows, nextId)
    }

    method InsertIfAbsent(r: Row) returns (inserted: bool)
      modifies this`rows
      ensures rows == Inserted(old(rows), r) && (inserted <==> !Holds(old(rows), r.recipient, r.eventKey))
    {
      inserted := !Holds(rows, r.recipient, r.eventKey);
      if inserted { rows := rows + [r]; }
    }

    method ResolveRecipients(resolved: seq<seq<Id>>) returns (users: seq<Id>)
      ensures users == Recipients([], resolved)
    {
      users := [];
      var i := 0;
      while i < |resolved|
        invariant 0 <= i <= |resolved| && Recipients(users, resolved[i..]) == Recipients([], resolved)
      {
        assert resolved[i..][0] == resolved[i] && resolved[i..][1..] == resolved[i + 1..];
        users := AddAll(users, resolved[i]);
        i := i + 1;
      }
    }

    /** buildNotificationRecord: a title and a key are required. */
    method BuildRecord(user: Id, c: Command) returns (error: Option<EmitError>, record: Row)
      modifies this`nextId
      ensures error == RecordError(c) && record == NewRow(old(nextId), user, c) && nextId == old(nextId) + 1
    {
      record := NewRow(nextId, user, c);
      nextId := nextId + 1;
      error := None;
      if C.Trim(c.title) == "" { error := Some(BlankTitle); }
      else if C.Trim(c.eventKey) == "" { error := Some(BlankEventKey); }
    }

    method DeliverOne(user: Id, c: Command, ghost problem: Option<EmitError>) returns (error: Option<EmitError>,
            inserted: bool)
      requires problem == RecordError(c)
      modifies this
      ensures error == problem && nextId == old(nextId) + 1
      ensures rows == if problem.Some? then old(rows) else Inserted(old(rows), NewRow(old(nextId), user, c))
      ensures problem.None? ==> (inserted <==> !Holds(old(rows), user, c.eventKey))
    {
      var record;
      error, record := BuildRecord(user, c);
      inserted := false;
      if error.None? { inserted := InsertIfAbsent(record); }
    }

    /** One row per recipient who lacks the key; a blank title or key stops before the first row. */
    method Deliver(users: seq<Id>, c: Command, ghost problem: Option<EmitError>) returns (error: Option<EmitError>,
            created: nat)
      requires Distinct(users) && problem == RecordError(c)
      modifies this
      ensures error == if users == [] then None else problem
      ensures error.Some? ==> rows == old(rows) && nextId == old(nextId) + 1
      ensures error.None? ==> rows == FanOut(old(rows), old(nextId), users, c) && nextId == old(nextId) + |users|
      ensures error.None? ==> created == Lacking(old(rows), users, c.eventKey)
    {
      ghost var rows0, next0 := rows, nextId;
      created := 0;
      var i := 0;
      while i < |users|
        invariant 0 <= i <= |users| && nextId == next0 + i
        invariant if i == 0 then rows == rows0 else problem.None?
        invariant rows == FanOut(rows0, next0, users[..i], c)
        invariant |rows| == |rows0| + created
      {
        FanOutOneMore(rows0, next0, users[..i], c, users[i]);
        assert users[..i + 1] == users[..i] + [users[i]];
        var inserted;
        error, inserted := DeliverOne(users[i], c, problem);
        if error.Some? { return error, 0; }
        if inserted { created := created + 1; }
        i := i + 1;
      }
      assert users[..i] == users;
      FanOutCounts(rows0, next0, users, c);
      return None, created;
    }

    /** Tells everyone the type's rules resolve to; created counts exactly those who had not been told. */
    method EmitCommand(catalogue: set<string>, resolved: seq<seq<Id>>,
            c: Command) returns (error: Option<EmitError>, created: nat)
      modifies this
      ensures State() == Step(old(State()), Emit(catalogue, resolved, c))
      ensures error == EmitErrorOf(catalogue, Recipients([], resolved), c)
      ensures error.None? ==> created == Lacking(old(rows), Recipients([], resolved), c.eventKey)
    {
      if c.kind !in catalogue { return Some(UnknownType), 0; }
      var users := ResolveRecipients(resolved);
      RecipientsAreTheUnion([], resolved);
      error, created := Deliver(users, c, RecordError(c));
    }

    method MarkOneRead(user: Id, companyId: Id, id: Id, now: int) returns (readAt: Option<int>)
      modifies this`rows
      ensures State() == Step(old(State()), MarkOne(id, user, companyId, now))
      ensures readAt == ReadAtOf(rows, id, user, companyId)
      ensures readAt == (if !HasOwn(old(rows), id, user, companyId) then None
                         else Some(FirstRead(ReadAtOf(old(rows), id, user, companyId), now)))
      ensures !HasOwn(old(rows), id, user, companyId) ==> rows == old(rows)
    {
      MarkOneAnswers(rows, id, user, companyId, now);
      MarkOthersNothing(rows, id, user, companyId, now);
      rows := MarkedOne(rows, id, user, companyId, now);
      readAt := ReadAtOf(rows, id, user, companyId);
    }

    method MarkAllRead(user: Id, companyId: Id, kind: Option<string>, now: int) returns (updated: nat)
      modifies this`rows
      ensures State() == Step(old(State()), MarkAll(user, companyId, kind, now))
      ensures updated == Cleared(old(State()), MarkAll(user, companyId, kind, now), user, companyId)
    {
      updated := CountToMark(rows, user, companyId, kind);
      rows := MarkedAll(rows, user, companyId, kind, now);
    }

    /** One emit of a scan; told is 1 when somebody hears of it for the first time. */
    method Remind(catalogue: set<string>, scan: Scan, due: Due) returns (told: nat)
      requires "PERIOD_CLOSING_SOON" in catalogue && "IPC_OVERDUE" in catalogue
      modifies this
      ensures State() == Step(old(State()), Emit(catalogue, due.resolved, Reminder(scan, due)))
      ensures told == FirstTold(old(State()), scan, due)
    {
      RemindersAreValid(catalogue, scan, due, Recipients([], due.resolved));
      var error, created := EmitCommand(catalogue, due.resolved, Reminder(scan, due));
      told := if created > 0 then 1 else 0;
    }

    /** One daily scan over what is due that day. */
    method RunScan(catalogue: set<string>, scan: Scan, dues: seq<Due>) returns (raised: nat)
      requires "PERIOD_CLOSING_SOON" in catalogue && "IPC_OVERDUE" in catalogue
      modifies this
      ensures State() == Run(old(State()), ScanOps(catalogue, scan, dues))
      ensures raised == Raised(old(State()), catalogue, scan, dues)
    {
      raised := 0;
      ghost var end, total := Run(State(), ScanOps(catalogue, scan, dues)), Raised(State(), catalogue, scan, dues);
      var i := 0;
      while i < |dues|
        invariant 0 <= i <= |dues| && ScanEnds(State(), catalogue, scan, dues[i..], raised, end, total)
      {
        ScanHead(State(), catalogue, scan, dues, i, raised, end, total);
        var told := Remind(catalogue, scan, dues[i]);
        raised := raised + told;
        i := i + 1;
      }
    }
  }
}
