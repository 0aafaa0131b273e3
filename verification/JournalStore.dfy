/**
 The journal tables as a transactional store: rows may only be inserted, each inserted line queues one deferred
 balance check, and the queue is worked off at COMMIT, every check in its own snapshot. Several transactions run
 interleaved. Money is in ten-thousandths, so a numeric(18,4) column holds the integers below 10^18 in magnitude.
 */
module JournalStore {
  import opened Prelude
  import opened Sums

  type Id = nat

  /** numeric(18,4), counted in ten-thousandths. */
  const NUMERIC_LIMIT: int := 1_000_000_000_000_000_000

  predicate FitsNumeric(x: int) {
    -NUMERIC_LIMIT < x < NUMERIC_LIMIT
  }

  datatype Entry = Entry(id: Id, companyId: Id, financialYearId: Id, entryNo: nat, voucherType: string,
                         voucherDate: int, reversalOf: Option<Id>)

  datatype Line = Line(id: Id, entryId: Id, lineNo: int, accountId: Id, projectId: Option<Id>,
                       costCentreId: Option<Id>, purposeId: Option<Id>, godownId: Option<Id>, partyId: Option<Id>,
                       debit: int, credit: int)

  /** The three CHECK constraints of journal_line, and the column type. */
  predicate LineChecks(l: Line) {
    && l.debit >= 0 && l.credit >= 0
    && (l.debit == 0) != (l.credit == 0)
    && FitsNumeric(l.debit) && FitsNumeric(l.credit)
  }

  /** The contents of both tables, in insertion order. */
  datatype Rows = Rows(entries: seq<Entry>, lines: seq<Line>)

  const NoRows := Rows([], [])

  function Union(a: Rows, b: Rows): Rows {
    Rows(a.entries + b.entries, a.lines + b.lines)
  }

  predicate HasEntry(r: Rows, id: Id) {
    exists e <- r.entries :: e.id == id
  }

  predicate HasLine(r: Rows, id: Id) {
    exists l <- r.lines :: l.id == id
  }

  function EntryOf(l: Line): Id { l.entryId }
  function Debit(l: Line): int { l.debit }
  function Credit(l: Line): int { l.credit }

  function DebitOf(lines: seq<Line>, entry: Id): int { GroupSum(lines, EntryOf, entry, Debit) }
  function CreditOf(lines: seq<Line>, entry: Id): int { GroupSum(lines, EntryOf, entry, Credit) }

  predicate Balanced(lines: seq<Line>, entry: Id) {
    DebitOf(lines, entry) == CreditOf(lines, entry)
  }

  /** One open transaction: its own uncommitted inserts and its queue of deferred checks. */
  datatype Tx = Tx(own: Rows, queue: seq<Id>, aborted: bool, committing: bool)

  /** Every committed state so far (the last one is current) and the open transactions. */
  datatype Db = Db(history: seq<Rows>, txs: map<nat, Tx>)

  const EmptyDb := Db([NoRows], map[])

  function Committed(db: Db): Rows
    requires db.history != []
  {
    db.history[|db.history| - 1]
  }

  /** Some other open transaction holds the key, so the insert waits for that transaction to end. */
  predicate EntryHeldElsewhere(db: Db, t: nat, id: Id) {
    exists u <- db.txs :: u != t && HasEntry(db.txs[u].own, id)
  }

  predicate LineHeldElsewhere(db: Db, t: nat, id: Id) {
    exists u <- db.txs :: u != t && HasLine(db.txs[u].own, id)
  }

  datatype Op =
    | Begin(t: nat)
    | InsertEntry(t: nat, entry: Entry)
    | InsertLine(t: nat, line: Line)
    | UpdateOrDelete(t: nat, entries: set<Id>, lines: set<Id>, snapshot: nat)
    | StartCommit(t: nat)
    | RunCheck(t: nat, snapshot: nat)
    | FinishCommit(t: nat)
    | Rollback(t: nat)

  /** An operation that is waiting, or does not apply to the transaction's phase, leaves the store as it is. */
  predicate Enabled(db: Db, op: Op)
    requires db.history != []
  {
    match op
    case Begin(t) => t !in db.txs
    case InsertEntry(t, e) =>
      t in db.txs && !db.txs[t].aborted && !db.txs[t].committing && !EntryHeldElsewhere(db, t, e.id)
    case InsertLine(t, l) =>
      t in db.txs && !db.txs[t].aborted && !db.txs[t].committing && !LineHeldElsewhere(db, t, l.id)
    case UpdateOrDelete(t, _, _, s) =>
      t in db.txs && !db.txs[t].aborted && !db.txs[t].committing && s < |db.history|
    case StartCommit(t) => t in db.txs && !db.txs[t].committing
    case RunCheck(t, s) => t in db.txs && db.txs[t].committing && db.txs[t].queue != [] && s < |db.history|
    case FinishCommit(t) => t in db.txs && db.txs[t].committing && db.txs[t].queue == []
    case Rollback(t) => t in db.txs
  }

  /** Primary key and the reversal_of foreign key, against what is committed and what t itself wrote. */
  predicate EntryAccepted(seen: Rows, e: Entry) {
    !HasEntry(seen, e.id) && (e.reversalOf.Some? ==> HasEntry(seen, e.reversalOf.value) || e.reversalOf.value == e.id)
  }

  predicate LineAccepted(seen: Rows, l: Line) {
    LineChecks(l) && !HasLine(seen, l.id) && HasEntry(seen, l.entryId)
  }

  predicate SumsFit(visible: seq<Line>, entry: Id) {
    FitsNumeric(DebitOf(visible, entry)) && FitsNumeric(CreditOf(visible, entry))
  }

  /** What ze_ledger_balance_check decides for one entry: both sums must fit their variables and agree. */
  predicate CheckPasses(visible: seq<Line>, entry: Id) {
    && SumsFit(visible, entry)
    && DebitOf(visible, entry) == CreditOf(visible, entry)
  }

  /** The append-only triggers fire once per row an UPDATE or DELETE reaches. */
  predicate Touches(visible: Rows, entries: set<Id>, lines: set<Id>) {
    (exists e <- visible.entries :: e.id in entries) || (exists l <- visible.lines :: l.id in lines)
  }

  function Step(db: Db, op: Op): (db': Db)
    requires db.history != []
    ensures db'.history != []
  {
    if !Enabled(db, op) then db else
    match op
    case Begin(t) => db.(txs := db.txs[t := Tx(NoRows, [], false, false)])
    case InsertEntry(t, e) =>
      var tx := db.txs[t];
      if EntryAccepted(Union(Committed(db), tx.own), e)
      then db.(txs := db.txs[t := tx.(own := Rows(tx.own.entries + [e], tx.own.lines))])
      else db.(txs := db.txs[t := tx.(aborted := true)])
    case InsertLine(t, l) =>
      var tx := db.txs[t];
      if LineAccepted(Union(Committed(db), tx.own), l)
      then db.(txs := db.txs[t := tx.(own := Rows(tx.own.entries, tx.own.lines + [l]),
                                      queue := tx.queue + [l.entryId])])
      else db.(txs := db.txs[t := tx.(aborted := true)])
    case UpdateOrDelete(t, es, ls, s) =>
      var tx := db.txs[t];
      if Touches(Union(db.history[s], tx.own), es, ls) then db.(txs := db.txs[t := tx.(aborted := true)]) else db
    case StartCommit(t) =>
      if db.txs[t].aborted then db.(txs := db.txs - {t})
      else db.(txs := db.txs[t := db.txs[t].(committing := true)])
    case RunCheck(t, s) =>
      var tx := db.txs[t];
      if CheckPasses(Union(db.history[s], tx.own).lines, tx.queue[0])
      then db.(txs := db.txs[t := tx.(queue := tx.queue[1..])])
      else db.(txs := db.txs - {t})
    case FinishCommit(t) =>
      Db(db.history + [Union(Committed(db), db.txs[t].own)], db.txs - {t})
    case Rollback(t) => db.(txs := db.txs - {t})
  }

  function Run(db: Db, ops: seq<Op>): (db': Db)
    requires db.history != []
    ensures db'.history != []
    decreases ops
  {
    if ops == [] then db else Run(Step(db, ops[0]), ops[1..])
  }

  // ---- the tables as an object -------------------------------------------------------------------

  /** The database server's side of the two tables. Each method is one operation as a session sees it. */
  class JournalTables {
    var history: seq<Rows>
    var txs: map<nat, Tx>

    predicate Valid()
      reads this
    {
      history != []
    }

    function State(): Db
      reads this
    {
      Db(history, txs)
    }

    constructor ()
      ensures Valid() && State() == EmptyDb
    {
      history := [NoRows];
      txs := map[];
    }

    method BeginTransaction(t: nat)
      requires Valid() && t !in txs
      modifies this
      ensures Valid() && State() == Step(old(State()), Begin(t))
    {
      txs := txs[t := Tx(NoRows, [], false, false)];
    }

    /** INSERT INTO journal_entry; a violated key or reference aborts the transaction. */
    method Insert(t: nat, e: Entry) returns (accepted: bool)
      requires Valid() && Enabled(State(), InsertEntry(t, e))
      modifies this
      ensures Valid() && State() == Step(old(State()), InsertEntry(t, e))
      ensures accepted <==> t in txs && txs[t].own.entries == old(txs[t].own.entries) + [e]
    {
      var tx := txs[t];
      accepted := EntryAccepted(Union(history[|history| - 1], tx.own), e);
      if accepted {
        tx := tx.(own := Rows(tx.own.entries + [e], tx.own.lines));
      } else {
        tx := tx.(aborted := true);
        assert |tx.own.entries + [e]| != |tx.own.entries|;
      }
      txs := txs[t := tx];
    }

    /** INSERT INTO journal_line; the AFTER INSERT constraint trigger is only queued here. */
    method InsertJournalLine(t: nat, l: Line) returns (accepted: bool)
      requires Valid() && Enabled(State(), InsertLine(t, l))
      modifies this
      ensures Valid() && State() == Step(old(State()), InsertLine(t, l))
      ensures accepted <==> txs[t].own.lines == old(txs[t].own.lines) + [l]
    {
      var tx := txs[t];
      accepted := LineAccepted(Union(history[|history| - 1], tx.own), l);
      if accepted {
        tx := tx.(own := Rows(tx.own.entries, tx.own.lines + [l]), queue := tx.queue + [l.entryId]);
      } else {
        tx := tx.(aborted := true);
        assert |tx.own.lines + [l]| != |tx.own.lines|;
      }
      txs := txs[t := tx];
    }

    /** UPDATE or DELETE of the given ids: ze_ledger_append_only raises as soon as one row is reached. */
    method Mutate(t: nat, entries: set<Id>, lines: set<Id>, snapshot: nat) returns (raised: bool)
      requires Valid() && Enabled(State(), UpdateOrDelete(t, entries, lines, snapshot))
      modifies this
      ensures Valid() && State() == Step(old(State()), UpdateOrDelete(t, entries, lines, snapshot))
      ensures history == old(history) && txs[t].own == old(txs[t].own)
      ensures raised <==> txs[t].aborted
    {
      raised := Touches(Union(history[snapshot], txs[t].own), entries, lines);
      if raised {
        txs := txs[t := txs[t].(aborted := true)];
      }
    }

    /** The deferred check at the head of the queue; when it fails, the transaction is rolled back. */
    method CheckNext(t: nat, snapshot: nat) returns (passed: bool)
      requires Valid() && Enabled(State(), RunCheck(t, snapshot))
      modifies this
      ensures Valid() && State() == Step(old(State()), RunCheck(t, snapshot)) && history == old(history)
      ensures passed <==> t in txs
      ensures passed ==> txs[t] == old(txs[t]).(queue := old(txs[t]).queue[1..])
    {
      var tx := txs[t];
      passed := CheckPasses(Union(history[snapshot], tx.own).lines, tx.queue[0]);
      txs := if passed then txs[t := tx.(queue := tx.queue[1..])] else txs - {t};
    }

    method Publish(t: nat)
      requires Valid() && Enabled(State(), FinishCommit(t))
      modifies this
      ensures Valid() && State() == Step(old(State()), FinishCommit(t)) && |history| == |old(history)| + 1
    {
      history := history + [Union(history[|history| - 1], txs[t].own)];
      txs := txs - {t};
    }

    /**
     COMMIT. The queued checks run one after the other; the i-th sees the committed state snapshots[i] (whatever
     the isolation level makes visible to it) plus the transaction's own rows. One failing check rolls back.
     */
    method Commit(t: nat, snapshots: seq<nat>) returns (committed: bool)
      requires Valid() && t in txs && !txs[t].committing
      requires |snapshots| == |txs[t].queue| && SnapshotsExist(snapshots, history)
      modifies this
      ensures Valid() && State() == Run(old(State()), CommitOps(old(txs[t]), t, snapshots))
      ensures committed <==> |history| == |old(history)| + 1
      ensures !committed ==> history == old(history)
    {
      ghost var end := Run(State(), CommitOps(txs[t], t, snapshots));
      RunHead(State(), StartCommit(t), if txs[t].aborted then [] else Checks(t, snapshots, 0));
      if txs[t].aborted {
        txs := txs - {t};
        return false;
      }
      txs := txs[t := txs[t].(committing := true)];
      var i := 0;
      while i < |snapshots|
        invariant 0 <= i <= |snapshots| && Valid() && history == old(history)
        invariant t in txs && txs[t].committing && |txs[t].queue| == |snapshots| - i
        invariant end == Run(State(), Checks(t, snapshots, i))
      {
        RunHead(State(), RunCheck(t, snapshots[i]), Checks(t, snapshots, i + 1));
        var passed := CheckNext(t, snapshots[i]);
        i := i + 1;
        if !passed {
          NothingLeftToCommit(State(), t, snapshots, i);
          return false;
        }
      }
      RunHead(State(), FinishCommit(t), []);
      Publish(t);
      return true;
    }

    method RollbackTransaction(t: nat)
      requires Valid() && t in txs
      modifies this
      ensures Valid() && State() == Step(old(State()), Rollback(t))
      ensures history == old(history)
    {
      txs := txs - {t};
    }
  }

  predicate SnapshotsExist(snapshots: seq<nat>, history: seq<Rows>) {
    forall i :: 0 <= i < |snapshots| ==> snapshots[i] < |history|
  }

  /** The steps one COMMIT consists of: the checks from the i-th on, then publication. */
  function Checks(t: nat, snapshots: seq<nat>, i: nat): seq<Op>
    requires i <= |snapshots|
    decreases |snapshots| - i
  {
    if i == |snapshots| then [FinishCommit(t)] else [RunCheck(t, snapshots[i])] + Checks(t, snapshots, i + 1)
  }

  function CommitOps(tx: Tx, t: nat, snapshots: seq<nat>): seq<Op> {
    [StartCommit(t)] + if tx.aborted then [] else Checks(t, snapshots, 0)
  }

  lemma RunHead(db: Db, op: Op, rest: seq<Op>)
    requires db.history != []
    ensures Run(db, [op] + rest) == Run(Step(db, op), rest)
  {
    assert ([op] + rest)[1..] == rest;
  }

  lemma {:induction false} NothingLeftToCommit(db: Db, t: nat, snapshots: seq<nat>, i: nat)
    requires db.history != [] && t !in db.txs && i <= |snapshots|
    ensures Run(db, Checks(t, snapshots, i)) == db
    decreases |snapshots| - i
  {
    var ops := Checks(t, snapshots, i);
    if i == |snapshots| {
      assert ops[1..] == [];
    } else {
      assert ops[1..] == Checks(t, snapshots, i + 1);
      NothingLeftToCommit(db, t, snapshots, i + 1);
    }
  }

  // ---- what every run keeps ----------------------------------------------------------------------

  ghost predicate RowsOk(r: Rows) {
    && (forall l <- r.lines :: LineChecks(l) && HasEntry(r, l.entryId))
    && (forall e <- r.entries :: e.reversalOf.Some? ==> HasEntry(r, e.reversalOf.value))
    && (forall e :: Balanced(r.lines, e))
    && UniqueKeys(r)
  }

  ghost predicate UniqueKeys(r: Rows) {
    && (forall i, j :: 0 <= i < j < |r.entries| ==> r.entries[i].id != r.entries[j].id)
    && (forall i, j :: 0 <= i < j < |r.lines| ==> r.lines[i].id != r.lines[j].id)
  }

  ghost predicate Extends(later: Rows, earlier: Rows) {
    earlier.entries <= later.entries && earlier.lines <= later.lines
  }

  ghost predicate HistoryOk(history: seq<Rows>) {
    && history != []
    && (forall i :: 0 <= i < |history| ==> RowsOk(history[i]))
    && (forall i, j :: 0 <= i <= j < |history| ==> Extends(history[j], history[i]))
  }

  /** What holds of an open transaction over the current committed rows. */
  ghost predicate TxOk(committed: Rows, tx: Tx) {
    && UniqueKeys(Union(committed, tx.own))
    && (forall l <- tx.own.lines :: LineChecks(l) && HasEntry(Union(committed, tx.own), l.entryId))
    && (forall e <- tx.own.entries :: e.reversalOf.Some? ==> HasEntry(Union(committed, tx.own), e.reversalOf.value))
    && (forall e :: e !in tx.queue ==> Balanced(tx.own.lines, e))
  }

  ghost predicate KeysApart(a: Rows, b: Rows) {
    && (forall e <- a.entries, f <- b.entries :: e.id != f.id)
    && (forall l <- a.lines, m <- b.lines :: l.id != m.id)
  }

  ghost predicate Inv(db: Db) {
    && HistoryOk(db.history)
    && AllTxOk(Committed(db), db.txs)
    && AllApart(db.txs)
  }

  ghost predicate AllTxOk(committed: Rows, txs: map<nat, Tx>) {
    forall t <- txs :: TxOk(committed, txs[t])
  }

  ghost predicate AllApart(txs: map<nat, Tx>) {
    forall t <- txs, u <- txs :: t != u ==> KeysApart(txs[t].own, txs[u].own)
  }

  /** The journal lines a check of transaction t sees in the given snapshot. */
  function Seen(db: Db, t: nat, snapshot: nat): seq<Line>
    requires snapshot < |db.history| && t in db.txs
  {
    Union(db.history[snapshot], db.txs[t].own).lines
  }

  lemma BalanceOfUnion(a: Rows, b: Rows, e: Id)
    ensures DebitOf(Union(a, b).lines, e) == DebitOf(a.lines, e) + DebitOf(b.lines, e)
    ensures CreditOf(Union(a, b).lines, e) == CreditOf(a.lines, e) + CreditOf(b.lines, e)
  {
    GroupSumConcat(a.lines, b.lines, EntryOf, e, Debit);
    GroupSumConcat(a.lines, b.lines, EntryOf, e, Credit);
  }

  lemma LineAddsToItsEntryOnly(lines: seq<Line>, l: Line, e: Id)
    requires e != l.entryId
    ensures Balanced(lines + [l], e) == Balanced(lines, e)
  {
    BalanceOfUnion(Rows([], lines), Rows([], [l]), e);
    GroupSumSingle(l, EntryOf, e, Debit);
    GroupSumSingle(l, EntryOf, e, Credit);
  }

  /**
   The verdict of a deferred check does not depend on which committed state it saw: provided the sums fit, it
   passes exactly when the transaction's own lines of that entry balance.
   */
  lemma CheckDecidesOwnLines(db: Db, t: nat, snapshot: nat, e: Id)
    requires Inv(db) && t in db.txs && snapshot < |db.history|
    ensures CheckPasses(Seen(db, t, snapshot), e)
       <==> Balanced(db.txs[t].own.lines, e) && SumsFit(Seen(db, t, snapshot), e)
  {
    BalanceOfUnion(db.history[snapshot], db.txs[t].own, e);
    assert RowsOk(db.history[snapshot]);
    assert Balanced(db.history[snapshot].lines, e);
  }

  lemma HasEntryUnion(a: Rows, b: Rows, id: Id)
    ensures HasEntry(Union(a, b), id) <==> HasEntry(a, id) || HasEntry(b, id)
    ensures HasLine(Union(a, b), id) <==> HasLine(a, id) || HasLine(b, id)
  {
    if HasEntry(a, id) {
      var e :| e in a.entries && e.id == id;
      assert e in Union(a, b).entries;
    }
    if HasEntry(b, id) {
      var e :| e in b.entries && e.id == id;
      assert e in Union(a, b).entries;
    }
    if HasLine(a, id) {
      var l :| l in a.lines && l.id == id;
      assert l in Union(a, b).lines;
    }
    if HasLine(b, id) {
      var l :| l in b.lines && l.id == id;
      assert l in Union(a, b).lines;
    }
  }

  lemma EmptyTxOk(db: Db)
    requires Inv(db)
    ensures TxOk(Committed(db), Tx(NoRows, [], false, false))
  {
    assert Union(Committed(db), NoRows) == Committed(db);
    assert RowsOk(db.history[|db.history| - 1]);
  }

  /** Replacing one transaction by an acceptable one keeps the invariant. */
  lemma UpdateTxKeepsInv(db: Db, t: nat, tx: Tx)
    requires Inv(db) && TxOk(Committed(db), tx)
    requires forall u <- db.txs :: u != t ==> KeysApart(tx.own, db.txs[u].own) && KeysApart(db.txs[u].own, tx.own)
    ensures Inv(db.(txs := db.txs[t := tx]))
  {
    var c, txs' := Committed(db), db.txs[t := tx];
    assert Committed(db.(txs := txs')) == c;
    forall u | u in txs' ensures TxOk(c, txs'[u]) {
      assert u != t ==> u in db.txs && txs'[u] == db.txs[u];
    }
    assert AllTxOk(c, txs');
    forall u, v | u in txs' && v in txs' && u != v ensures KeysApart(txs'[u].own, txs'[v].own) {
      if u != t && v != t { assert KeysApart(db.txs[u].own, db.txs[v].own); }
    }
    assert AllApart(txs');
  }

  lemma WithoutKey<K, V>(m: map<K, V>, k: K)
    ensures forall x <- m - {k} :: x in m && (m - {k})[x] == m[x]
  {
  }

  lemma SameHistoryFewerTxs(db: Db, fewer: map<nat, Tx>)
    requires Inv(db) && forall t <- fewer :: t in db.txs && fewer[t] == db.txs[t]
    ensures Inv(Db(db.history, fewer))
  {
    var c := Committed(db);
    assert Committed(Db(db.history, fewer)) == c;
    forall t | t in fewer ensures TxOk(c, fewer[t]) {
      assert fewer[t] == db.txs[t] && t in db.txs;
    }
    assert AllTxOk(c, fewer);
  }

  /** Dropping one transaction keeps the invariant. */
  lemma DropTxKeepsInv(db: Db, t: nat)
    requires Inv(db)
    ensures Inv(db.(txs := db.txs - {t}))
  {
    WithoutKey(db.txs, t);
    SameHistoryFewerTxs(db, db.txs - {t});
  }

  lemma InsertedEntryTxOk(c: Rows, tx: Tx, e: Entry)
    requires TxOk(c, tx) && EntryAccepted(Union(c, tx.own), e)
    ensures TxOk(c, tx.(own := Rows(tx.own.entries + [e], tx.own.lines)))
  {
    var r, own' := Union(c, tx.own), Rows(tx.own.entries + [e], tx.own.lines);
    assert Union(c, own') == Union(r, Rows([e], [])) && Union(c, own').entries == r.entries + [e];
    forall id ensures HasEntry(r, id) || id == e.id ==> HasEntry(Union(c, own'), id) {
      HasEntryUnion(r, Rows([e], []), id);
      assert e in Rows([e], []).entries;
    }
    assert forall x <- r.entries :: x.id != e.id;
  }

  lemma KeysApartAfterEntry(db: Db, t: nat, u: nat, e: Entry)
    requires Inv(db) && t in db.txs && u in db.txs && t != u && !HasEntry(db.txs[u].own, e.id)
    ensures KeysApart(Rows(db.txs[t].own.entries + [e], db.txs[t].own.lines), db.txs[u].own)
    ensures KeysApart(db.txs[u].own, Rows(db.txs[t].own.entries + [e], db.txs[t].own.lines))
  {
    assert KeysApart(db.txs[t].own, db.txs[u].own);
    assert forall f <- db.txs[u].own.entries :: f.id != e.id;
  }

  lemma InsertEntryKeepsInv(db: Db, t: nat, e: Entry)
    requires Inv(db) && Enabled(db, InsertEntry(t, e))
    ensures Inv(Step(db, InsertEntry(t, e)))
  {
    var tx, c := db.txs[t], Committed(db);
    if EntryAccepted(Union(c, tx.own), e) {
      var tx' := tx.(own := Rows(tx.own.entries + [e], tx.own.lines));
      InsertedEntryTxOk(c, tx, e);
      forall u | u in db.txs && u != t
        ensures KeysApart(tx'.own, db.txs[u].own) && KeysApart(db.txs[u].own, tx'.own)
      {
        KeysApartAfterEntry(db, t, u, e);
      }
      UpdateTxKeepsInv(db, t, tx');
    } else {
      UpdateTxKeepsInv(db, t, tx.(aborted := true));
    }
  }

  lemma InsertedLineTxOk(c: Rows, tx: Tx, l: Line)
    requires TxOk(c, tx) && LineAccepted(Union(c, tx.own), l)
    ensures TxOk(c, tx.(own := Rows(tx.own.entries, tx.own.lines + [l]), queue := tx.queue + [l.entryId]))
  {
    var own' := Rows(tx.own.entries, tx.own.lines + [l]);
    var queue' := tx.queue + [l.entryId];
    assert Union(c, own').lines == Union(c, tx.own).lines + [l];
    assert Union(c, own').entries == Union(c, tx.own).entries;
    assert forall x <- Union(c, tx.own).lines :: x.id != l.id;
    forall e | e !in queue' ensures Balanced(own'.lines, e) {
      assert l.entryId == queue'[|tx.queue|] && forall x <- tx.queue :: x in queue';
      LineAddsToItsEntryOnly(tx.own.lines, l, e);
    }
  }

  lemma KeysApartAfterInsert(db: Db, t: nat, u: nat, l: Line)
    requires Inv(db) && t in db.txs && u in db.txs && t != u && !HasLine(db.txs[u].own, l.id)
    ensures KeysApart(Rows(db.txs[t].own.entries, db.txs[t].own.lines + [l]), db.txs[u].own)
    ensures KeysApart(db.txs[u].own, Rows(db.txs[t].own.entries, db.txs[t].own.lines + [l]))
  {
    assert KeysApart(db.txs[t].own, db.txs[u].own);
    assert forall m <- db.txs[u].own.lines :: m.id != l.id;
  }

  lemma InsertLineKeepsInv(db: Db, t: nat, l: Line)
    requires Inv(db) && Enabled(db, InsertLine(t, l))
    ensures Inv(Step(db, InsertLine(t, l)))
  {
    var tx, c := db.txs[t], Committed(db);
    if LineAccepted(Union(c, tx.own), l) {
      var tx' := tx.(own := Rows(tx.own.entries, tx.own.lines + [l]), queue := tx.queue + [l.entryId]);
      InsertedLineTxOk(c, tx, l);
      forall u | u in db.txs && u != t
        ensures KeysApart(tx'.own, db.txs[u].own) && KeysApart(db.txs[u].own, tx'.own)
      {
        KeysApartAfterInsert(db, t, u, l);
      }
      UpdateTxKeepsInv(db, t, tx');
    } else {
      UpdateTxKeepsInv(db, t, tx.(aborted := true));
    }
  }

  lemma CheckedTxOk(c: Rows, tx: Tx)
    requires TxOk(c, tx) && tx.queue != [] && Balanced(tx.own.lines, tx.queue[0])
    ensures TxOk(c, tx.(queue := tx.queue[1..]))
  {
    assert forall e :: e in tx.queue ==> e == tx.queue[0] || e in tx.queue[1..];
  }

  lemma RunCheckKeepsInv(db: Db, t: nat, snapshot: nat)
    requires Inv(db) && Enabled(db, RunCheck(t, snapshot))
    ensures Inv(Step(db, RunCheck(t, snapshot)))
  {
    var tx := db.txs[t];
    CheckDecidesOwnLines(db, t, snapshot, tx.queue[0]);
    if CheckPasses(Seen(db, t, snapshot), tx.queue[0]) {
      CheckedTxOk(Committed(db), tx);
      UpdateTxKeepsInv(db, t, tx.(queue := tx.queue[1..]));
    } else {
      DropTxKeepsInv(db, t);
    }
  }

  lemma PublishedRowsOk(db: Db, t: nat)
    requires Inv(db) && t in db.txs && db.txs[t].queue == []
    ensures RowsOk(Union(Committed(db), db.txs[t].own))
  {
    var c, own := Committed(db), db.txs[t].own;
    var r := Union(c, own);
    assert RowsOk(db.history[|db.history| - 1]);
    forall e ensures Balanced(r.lines, e) {
      BalanceOfUnion(c, own, e);
      assert Balanced(c.lines, e) && Balanced(own.lines, e);
    }
    forall id | HasEntry(c, id) ensures HasEntry(r, id) {
      HasEntryUnion(c, own, id);
    }
  }

  /** Publication of one transaction does not disturb another that is still open. */
  lemma OthersSurvivePublication(c: Rows, own: Rows, other: Tx)
    requires TxOk(c, other) && KeysApart(own, other.own) && UniqueKeys(Union(c, own)) && UniqueKeys(Union(c, other.own))
    ensures TxOk(Union(c, own), other)
  {
    var r, r' := Union(c, other.own), Union(Union(c, own), other.own);
    forall id | HasEntry(r, id) ensures HasEntry(r', id) {
      HasEntryUnion(c, other.own, id);
      HasEntryUnion(c, own, id);
      HasEntryUnion(Union(c, own), other.own, id);
    }
    UniqueKeysUnion(c, own, other.own);
  }

  lemma UniqueKeysUnion(c: Rows, a: Rows, b: Rows)
    requires UniqueKeys(Union(c, a)) && UniqueKeys(Union(c, b)) && KeysApart(a, b)
    ensures UniqueKeys(Union(Union(c, a), b))
  {
    var ca, cb, r := Union(c, a), Union(c, b), Union(Union(c, a), b);
    forall i, j | 0 <= i < j < |r.entries| ensures r.entries[i].id != r.entries[j].id {
      if j >= |ca.entries| {
        var j' := j - |a.entries|;
        assert r.entries[j] == cb.entries[j'] && r.entries[j] == b.entries[j - |ca.entries|];
        if i < |c.entries| {
          assert r.entries[i] == cb.entries[i];
        } else if i < |ca.entries| {
          assert r.entries[i] == a.entries[i - |c.entries|];
        } else {
          assert r.entries[i] == cb.entries[i - |a.entries|];
        }
      } else {
        assert r.entries[i] == ca.entries[i] && r.entries[j] == ca.entries[j];
      }
    }
    forall i, j | 0 <= i < j < |r.lines| ensures r.lines[i].id != r.lines[j].id {
      if j >= |ca.lines| {
        var j' := j - |a.lines|;
        assert r.lines[j] == cb.lines[j'] && r.lines[j] == b.lines[j - |ca.lines|];
        if i < |c.lines| {
          assert r.lines[i] == cb.lines[i];
        } else if i < |ca.lines| {
          assert r.lines[i] == a.lines[i - |c.lines|];
        } else {
          assert r.lines[i] == cb.lines[i - |a.lines|];
        }
      } else {
        assert r.lines[i] == ca.lines[i] && r.lines[j] == ca.lines[j];
      }
    }
  }

  lemma PublishedHistoryOk(history: seq<Rows>, next: Rows)
    requires HistoryOk(history) && RowsOk(next) && Extends(next, history[|history| - 1])
    ensures HistoryOk(history + [next])
  {
    forall i | 0 <= i < |history| ensures Extends(next, history[i]) {
      assert Extends(history[|history| - 1], history[i]);
    }
  }

  lemma OthersOk(db: Db, t: nat)
    requires Inv(db) && t in db.txs && db.txs[t].queue == []
    ensures AllTxOk(Union(Committed(db), db.txs[t].own), db.txs - {t}) && AllApart(db.txs - {t})
  {
    var c, own, rest := Committed(db), db.txs[t].own, db.txs - {t};
    WithoutKey(db.txs, t);
    forall u | u in rest ensures TxOk(Union(c, own), rest[u]) {
      assert TxOk(c, db.txs[u]) && KeysApart(own, db.txs[u].own) && UniqueKeys(Union(c, own));
      OthersSurvivePublication(c, own, db.txs[u]);
    }
    forall u, v | u in rest && v in rest && u != v ensures KeysApart(rest[u].own, rest[v].own) {
      assert KeysApart(db.txs[u].own, db.txs[v].own);
    }
  }

  lemma FinishCommitKeepsInv(db: Db, t: nat)
    requires Inv(db) && Enabled(db, FinishCommit(t))
    ensures Inv(Step(db, FinishCommit(t)))
  {
    var next := Union(Committed(db), db.txs[t].own);
    PublishedRowsOk(db, t);
    PublishedHistoryOk(db.history, next);
    OthersOk(db, t);
    assert Committed(Db(db.history + [next], db.txs - {t})) == next;
    assert AllTxOk(next, db.txs - {t});
  }

  lemma PlainStepKeepsInv(db: Db, op: Op)
    requires Inv(db) && Enabled(db, op) && (op.Begin? || op.UpdateOrDelete? || op.StartCommit? || op.Rollback?)
    ensures Inv(Step(db, op))
  {
    match op
    case Begin(t) => EmptyTxOk(db); UpdateTxKeepsInv(db, t, Tx(NoRows, [], false, false));
    case UpdateOrDelete(t, _, _, _) => UpdateTxKeepsInv(db, t, db.txs[t].(aborted := true));
    case StartCommit(t) => UpdateTxKeepsInv(db, t, db.txs[t].(committing := true)); DropTxKeepsInv(db, t);
    case Rollback(t) => DropTxKeepsInv(db, t);
  }

  lemma StepExtendsHistory(db: Db, op: Op)
    requires db.history != []
    ensures db.history <= Step(db, op).history
  {
  }

  lemma StepKeepsInv(db: Db, op: Op)
    requires Inv(db)
    ensures Inv(Step(db, op))
  {
    if Enabled(db, op) {
      match op
      case InsertEntry(t, e) => InsertEntryKeepsInv(db, t, e);
      case InsertLine(t, l) => InsertLineKeepsInv(db, t, l);
      case RunCheck(t, s) => RunCheckKeepsInv(db, t, s);
      case FinishCommit(t) => FinishCommitKeepsInv(db, t);
      case _ => PlainStepKeepsInv(db, op);
    }
  }

  lemma {:induction false} RunKeepsInv(db: Db, ops: seq<Op>)
    requires Inv(db)
    ensures Inv(Run(db, ops))
    ensures db.history <= Run(db, ops).history
    decreases ops
  {
    if ops != [] {
      StepKeepsInv(db, ops[0]);
      StepExtendsHistory(db, ops[0]);
      RunKeepsInv(Step(db, ops[0]), ops[1..]);
    }
  }

  lemma EmptyDbInv()
    ensures Inv(EmptyDb)
  {
  }

  /**
   Whatever the interleaving and whichever snapshots the deferred checks see: in every committed state the lines of
   every entry balance, every line passed its CHECKs and has its entry, reversals point to entries, keys are unique.
   */
  lemma EveryCommittedStateIsSound(ops: seq<Op>, i: nat)
    requires i < |Run(EmptyDb, ops).history|
    ensures RowsOk(Run(EmptyDb, ops).history[i])
  {
    EmptyDbInv();
    RunKeepsInv(EmptyDb, ops);
  }

  lemma {:induction false} RunConcat(db: Db, a: seq<Op>, b: seq<Op>)
    requires db.history != []
    ensures Run(db, a + b) == Run(Run(db, a), b)
    decreases a
  {
    if a == [] {
      assert a + b == b;
    } else {
      assert (a + b)[1..] == a[1..] + b;
      RunConcat(Step(db, a[0]), a[1..], b);
    }
  }

  /** Append-only: a row that was committed after some prefix of a run is still there, at the same place, at its end. */
  lemma CommittedRowsNeverChange(before: seq<Op>, after: seq<Op>)
    ensures Extends(Committed(Run(EmptyDb, before + after)), Committed(Run(EmptyDb, before)))
  {
    EmptyDbInv();
    RunKeepsInv(EmptyDb, before);
    RunConcat(EmptyDb, before, after);
    RunKeepsInv(Run(EmptyDb, before), after);
    var h, h' := Run(EmptyDb, before).history, Run(EmptyDb, before + after).history;
    assert h'[|h| - 1] == h[|h| - 1];
    assert Extends(h'[|h'| - 1], h'[|h| - 1]);
  }

  /**
   Every queued entry balances within the transaction's own lines, and its totals, as the check that looks at it
   sees them, fit numeric(18,4).
   */
  predicate AllBalanceAndFit(history: seq<Rows>, own: Rows, queue: seq<Id>, snapshots: seq<nat>, i: nat)
    requires i + |queue| == |snapshots| && SnapshotsExist(snapshots, history)
    decreases queue
  {
    queue == [] ||
    (&& Balanced(own.lines, queue[0]) && SumsFit(Union(history[snapshots[i]], own).lines, queue[0])
     && AllBalanceAndFit(history, own, queue[1..], snapshots, i + 1))
  }

  /** The history COMMIT is to leave behind when the checks from the i-th on are still to run. */
  function Decided(db: Db, t: nat, snapshots: seq<nat>, i: nat): seq<Rows>
    requires db.history != [] && t in db.txs && SnapshotsExist(snapshots, db.history)
    requires i + |db.txs[t].queue| == |snapshots|
  {
    if AllBalanceAndFit(db.history, db.txs[t].own, db.txs[t].queue, snapshots, i)
    then db.history + [Union(Committed(db), db.txs[t].own)]
    else db.history
  }

  predicate CheckReady(db: Db, t: nat, snapshots: seq<nat>, i: nat) {
    && t in db.txs && db.txs[t].committing && db.history != []
    && SnapshotsExist(snapshots, db.history) && i + |db.txs[t].queue| == |snapshots|
  }

  /** Every check of t decides its own lines, whatever the snapshot (CheckDecidesOwnLines). */
  ghost predicate OwnVerdicts(history: seq<Rows>, own: Rows) {
    forall h: nat, e :: h < |history| ==> OwnVerdict(Union(history[h], own).lines, own.lines, e)
  }

  predicate OwnVerdict(seen: seq<Line>, own: seq<Line>, e: Id) {
    CheckPasses(seen, e) == (Balanced(own, e) && SumsFit(seen, e))
  }

  /** One queued check either strikes off its entry, leaving the decision as it was, or undoes all, as decided. */
  lemma CheckStep(db: Db, t: nat, snapshots: seq<nat>, i: nat)
    requires CheckReady(db, t, snapshots, i) && i < |snapshots| && OwnVerdicts(db.history, db.txs[t].own)
    ensures (var db' := Step(db, RunCheck(t, snapshots[i]));
             && db'.history == db.history
             && if t in db'.txs
                then && db'.txs[t].own == db.txs[t].own && CheckReady(db', t, snapshots, i + 1)
                     && Decided(db', t, snapshots, i + 1) == Decided(db, t, snapshots, i)
                else db.history == Decided(db, t, snapshots, i))
  {
    var seen := Union(db.history[snapshots[i]], db.txs[t].own).lines;
    assert OwnVerdict(seen, db.txs[t].own.lines, db.txs[t].queue[0]);
  }

  lemma {:induction false} CommitDecides(db: Db, t: nat, snapshots: seq<nat>, i: nat)
    requires CheckReady(db, t, snapshots, i) && OwnVerdicts(db.history, db.txs[t].own)
    ensures Run(db, Checks(t, snapshots, i)).history == Decided(db, t, snapshots, i)
    decreases |snapshots| - i
  {
    var ops := Checks(t, snapshots, i);
    if i == |snapshots| {
      assert ops == [FinishCommit(t)] && ops[1..] == [];
    } else {
      var db' := Step(db, RunCheck(t, snapshots[i]));
      assert ops[1..] == Checks(t, snapshots, i + 1);
      CheckStep(db, t, snapshots, i);
      if t in db'.txs {
        CommitDecides(db', t, snapshots, i + 1);
      } else {
        NothingLeftToCommit(db', t, snapshots, i + 1);
      }
    }
  }

  /**
   COMMIT publishes exactly when the transaction's own lines of each touched entry balance (and the totals fit the
   column type); otherwise the committed tables stay as they were. No other session's rows can tip the decision.
   */
  lemma CommitSucceedsIffOwnLinesBalance(db: Db, t: nat, snapshots: seq<nat>)
    requires Inv(db) && CheckReady(db, t, snapshots, 0)
    ensures Run(db, Checks(t, snapshots, 0)).history
         == if AllBalanceAndFit(db.history, db.txs[t].own, db.txs[t].queue, snapshots, 0)
            then db.history + [Union(Committed(db), db.txs[t].own)]
            else db.history
  {
    forall h: nat, e | h < |db.history|
      ensures OwnVerdict(Union(db.history[h], db.txs[t].own).lines, db.txs[t].own.lines, e)
    {
      CheckDecidesOwnLines(db, t, h, e);
    }
    CommitDecides(db, t, snapshots, 0);
  }
}
