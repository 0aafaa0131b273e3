/**
 What customers still owe per interim payment certificate (IPC): the receipt_allocation view over receipts and journal
 entries, the billing rows with their running totals, and the outstanding report rolled up by project.
 */
module Receivables {
  import opened Prelude
  import opened Sums
  import S = Sorting
  import opened JournalStore

  datatype Receipt = Receipt(id: Id, ipcLinked: bool, ipcId: Option<Id>, posted: bool, journalEntryId: Option<Id>,
                             amountSettled: int)

  datatype Ipc = Ipc(id: Id, companyId: Id, projectId: Id, seqNo: nat, posted: bool, deleted: bool, financialYearId: Id,
                     ipcDate: int, certified: int, currentlyDue: int, retention: int, advanceRecovered: int, vat: int)

  /** A retention release. */
  datatype Release = Release(companyId: Id, ipcId: Id, posted: bool, amount: int)

  // ---- the view -----------------------------------------------------------------------------------------------------

  predicate IsReversed(entries: seq<Entry>, entryId: Id) {
    exists e <- entries :: e.reversalOf == Some(entryId)
  }

  /** A posted receipt against an IPC whose journal entry exists and has no reversing entry. */
  predicate InView(entries: seq<Entry>, r: Receipt) {
    && r.ipcLinked && r.posted && r.journalEntryId.Some?
    && (exists e <- entries :: e.id == r.journalEntryId.value)
    && !IsReversed(entries, r.journalEntryId.value)
  }

  function Allocations(receipts: seq<Receipt>, entries: seq<Entry>): seq<Receipt> {
    Filter(receipts, r => InView(entries, r))
  }

  function IpcOf(r: Receipt): Option<Id> { r.ipcId }
  function Applied(r: Receipt): int { r.amountSettled }

  /** SUM(amount_applied) of the IPC's allocations. */
  function Received(receipts: seq<Receipt>, entries: seq<Entry>, ipcId: Id): int {
    GroupSum(Allocations(receipts, entries), IpcOf, Some(ipcId), Applied)
  }

  function ReleasedOf(releases: seq<Release>, companyId: Id, ipcId: Id): int {
    Sum(Filter(releases, (x: Release) => x.companyId == companyId && x.posted && x.ipcId == ipcId),
        (x: Release) => x.amount)
  }

  // ---- billing rows -----------------------------------------------------------------------------------------------

  datatype SalesScope = SalesScope(companyId: Id, projectIds: Option<seq<Id>>, financialYearId: Option<Id>,
                                   dateFrom: Option<int>, dateTo: Option<int>)

  predicate IpcInScope(s: SalesScope, i: Ipc) {
    && i.companyId == s.companyId && i.posted && !i.deleted
    && (s.financialYearId.Some? ==> i.financialYearId == s.financialYearId.value)
    && (s.dateFrom.Some? ==> i.ipcDate >= s.dateFrom.value) && (s.dateTo.Some? ==> i.ipcDate <= s.dateTo.value)
    && (s.projectIds.Some? ==> i.projectId in s.projectIds.value)
  }

  predicate IpcBefore(a: Ipc, b: Ipc) {
    a.projectId < b.projectId || (a.projectId == b.projectId && a.seqNo < b.seqNo)
  }

  function Billed(ipcs: seq<Ipc>, s: SalesScope): seq<Ipc> { S.Sort(Filter(ipcs, i => IpcInScope(s, i)), IpcBefore) }

  datatype BillingRow = BillingRow(ipcId: Id, projectId: Id, certified: int, billed: int, received: int,
                                   outstanding: int, retentionHeld: int)

  datatype Totals = Totals(certified: int, billed: int, received: int, outstanding: int, retentionHeld: int)

  function RowFor(i: Ipc, receipts: seq<Receipt>, releases: seq<Release>, entries: seq<Entry>,
          companyId: Id): BillingRow {
    var received := Received(receipts, entries, i.id);
    BillingRow(i.id, i.projectId, i.certified, i.currentlyDue + i.retention + i.advanceRecovered + i.vat, received,
               Max(0, i.currentlyDue - received), Max(0, i.retention - ReleasedOf(releases, companyId, i.id)))
  }

  function ProjectOf(r: BillingRow): Id { r.projectId }
  function OutstandingOf(r: BillingRow): int { r.outstanding }

  function TotalsOf(rows: seq<BillingRow>): Totals {
    Totals(Sum(rows, (r: BillingRow) => r.certified), Sum(rows, (r: BillingRow) => r.billed),
           Sum(rows, (r: BillingRow) => r.received),
           Sum(rows, OutstandingOf), Sum(rows, (r: BillingRow) => r.retentionHeld))
  }

  lemma TotalsOneMore(rows: seq<BillingRow>, row: BillingRow)
    ensures TotalsOf(rows + [row])
         == Totals(TotalsOf(rows).certified + row.certified, TotalsOf(rows).billed + row.billed,
                   TotalsOf(rows).received + row.received, TotalsOf(rows).outstanding + row.outstanding,
                   TotalsOf(rows).retentionHeld + row.retentionHeld)
  {
    SumConcat(rows, [row], (r: BillingRow) => r.certified);
    SumConcat(rows, [row], (r: BillingRow) => r.billed);
    SumConcat(rows, [row], (r: BillingRow) => r.received);
    SumConcat(rows, [row], OutstandingOf);
    SumConcat(rows, [row], (r: BillingRow) => r.retentionHeld);
    SumSingle(row, (r: BillingRow) => r.certified);
    SumSingle(row, (r: BillingRow) => r.billed);
    SumSingle(row, (r: BillingRow) => r.received);
    SumSingle(row, OutstandingOf);
    SumSingle(row, (r: BillingRow) => r.retentionHeld);
  }

  /** ipcBilling: one row per certificate in scope; the running totals are the sums of the rows. */
  method IpcBilling(ipcs: seq<Ipc>, receipts: seq<Receipt>, releases: seq<Release>, entries: seq<Entry>, s: SalesScope)
    returns (rows: seq<BillingRow>, totals: Totals)
    ensures totals == TotalsOf(rows)
    ensures |rows| == |Billed(ipcs, s)|
    ensures forall k :: 0 <= k < |rows| ==>
            rows[k] == RowFor(Billed(ipcs, s)[k], receipts, releases, entries, s.companyId)
  {
    rows, totals := [], Totals(0, 0, 0, 0, 0);
    var selected := Billed(ipcs, s);
    if s.projectIds.Some? && |s.projectIds.value| == 0 {
      assert forall i <- Filter(ipcs, i => IpcInScope(s, i)) :: IpcInScope(s, i);
      S.NoMembers(Filter(ipcs, i => IpcInScope(s, i)));
      return;
    }
    var i := 0;
    while i < |selected|
      invariant 0 <= i <= |selected| && |rows| == i && totals == TotalsOf(rows)
      invariant forall k :: 0 <= k < i ==> rows[k] == RowFor(selected[k], receipts, releases, entries, s.companyId)
    {
      var row := RowFor(selected[i], receipts, releases, entries, s.companyId);
      TotalsOneMore(rows, row);
      totals := Totals(totals.certified + row.certified, totals.billed + row.billed, totals.received + row.received,
                       totals.outstanding + row.outstanding, totals.retentionHeld + row.retentionHeld);
      rows := rows + [row];
      i := i + 1;
    }
  }

  // ---- roll-up by project -----------------------------------------------------------------------------------------

  predicate HasProject(rows: seq<BillingRow>, p: Id) { exists r <- rows :: r.projectId == p }

  /** The outstanding report: a total per project and a grand total, in one pass over the rows. */
  method Outstanding(rows: seq<BillingRow>) returns (perProject: map<Id, int>, grand: int)
    ensures grand == Sum(rows, OutstandingOf)
    ensures forall p :: p in perProject <==> HasProject(rows, p)
    ensures forall p <- perProject :: perProject[p] == GroupSum(rows, ProjectOf, p, OutstandingOf)
  {
    perProject, grand := map[], 0;
    var i := 0;
    assert rows[..0] == [];
    while i < |rows|
      invariant 0 <= i <= |rows| && grand == Sum(rows[..i], OutstandingOf)
      invariant forall p :: p in perProject <==> HasProject(rows[..i], p)
      invariant forall p ::
                (if p in perProject then perProject[p] else 0) == GroupSum(rows[..i], ProjectOf, p, OutstandingOf)
    {
      var r := rows[i];
      assert rows[..i + 1] == rows[..i] + [r];
      SumConcat(rows[..i], [r], OutstandingOf);
      SumSingle(r, OutstandingOf);
      forall p ensures GroupSum(rows[..i + 1], ProjectOf, p, OutstandingOf)
                    == GroupSum(rows[..i], ProjectOf, p, OutstandingOf) + if r.projectId == p then r.outstanding else 0
      {
        GroupSumConcat(rows[..i], [r], ProjectOf, p, OutstandingOf);
        GroupSumSingle(r, ProjectOf, p, OutstandingOf);
      }
      forall p ensures HasProject(rows[..i + 1], p) <==> HasProject(rows[..i], p) || r.projectId == p {
        assert r in rows[..i + 1];
      }
      var soFar := if r.projectId in perProject then perProject[r.projectId] else 0;
      perProject := perProject[r.projectId := soFar + r.outstanding];
      grand := grand + r.outstanding;
      i := i + 1;
    }
    assert rows[..i] == rows;
  }

  /** The project totals add up to the grand total, over any list of the projects without repetition. */
  lemma ProjectTotalsMakeGrandTotal(rows: seq<BillingRow>, projects: seq<Id>)
    requires Distinct(projects) && forall r <- rows :: r.projectId in projects
    ensures SumOfGroups(projects, rows, ProjectOf, OutstandingOf) == Sum(rows, OutstandingOf)
  {
    GroupsPartition(projects, rows, ProjectOf, OutstandingOf, OutstandingOf);
  }

  // ---- reversals --------------------------------------------------------------------------------------------------

  /** Of the IPC's allocations, those booked by the entry. */
  function BookedBy(receipts: seq<Receipt>, entries: seq<Entry>, ipcId: Id, entryId: Id): int {
    Sum(Filter(Allocations(receipts, entries),
               (r: Receipt) => r.ipcId == Some(ipcId) && r.journalEntryId == Some(entryId)), Applied)
  }

  lemma ReversalRemovesOnlyItsReceipts(entries: seq<Entry>, reversal: Entry, r: Receipt)
    requires reversal.reversalOf.Some? && r.journalEntryId != Some(reversal.id)
    ensures InView(entries + [reversal], r) <==> InView(entries, r) && r.journalEntryId != reversal.reversalOf
  {
    var longer := entries + [reversal];
    assert reversal == longer[|entries|] && forall e <- entries :: e in longer;
    assert forall e <- longer :: e in entries || e == reversal;
    if r.journalEntryId.Some? {
      var je := r.journalEntryId.value;
      assert IsReversed(longer, je) <==> IsReversed(entries, je) || reversal.reversalOf == Some(je) by {
        if e :| e in entries && e.reversalOf == Some(je) { assert e in longer; }
      }
      if e :| e in entries && e.id == je { assert e in longer; }
    }
  }

  lemma {:induction false} ReceivedWithout(receipts: seq<Receipt>, entries: seq<Entry>, reversal: Entry, ipcId: Id)
    requires reversal.reversalOf.Some? && forall r <- receipts :: r.journalEntryId != Some(reversal.id)
    ensures Received(receipts, entries + [reversal], ipcId)
            == Received(receipts, entries, ipcId) - BookedBy(receipts, entries, ipcId, reversal.reversalOf.value)
  {
    if receipts != [] {
      var r, je := receipts[0], reversal.reversalOf.value;
      ReversalRemovesOnlyItsReceipts(entries, reversal, r);
      ReceivedWithout(receipts[1..], entries, reversal, ipcId);
      var rest, rest' := Allocations(receipts[1..], entries), Allocations(receipts[1..], entries + [reversal]);
      assert ([r] + rest)[1..] == rest && ([r] + rest')[1..] == rest';
      var booked := Filter(rest, (r: Receipt) => r.ipcId == Some(ipcId) && r.journalEntryId == Some(je));
      assert ([r] + booked)[1..] == booked;
    }
  }

  /**
   Reversing a receipt's entry takes exactly the amounts that entry booked out of what the IPC has received, so its
   outstanding amount becomes what is due less what remains - never below zero - and no other figure of its row moves.
   */
  lemma ReversalRaisesOutstanding(i: Ipc, receipts: seq<Receipt>, releases: seq<Release>, entries: seq<Entry>,
          reversal: Entry, companyId: Id)
    requires reversal.reversalOf.Some? && forall r <- receipts :: r.journalEntryId != Some(reversal.id)
    ensures (var before := RowFor(i, receipts, releases, entries, companyId);
             var after := RowFor(i, receipts, releases, entries + [reversal], companyId);
             var back := BookedBy(receipts, entries, i.id, reversal.reversalOf.value);
             && after == before.(received := before.received - back,
                                 outstanding := Max(0, i.currentlyDue - before.received + back))
             && (back >= 0 ==> before.outstanding <= after.outstanding <= before.outstanding + back)
             && (before.received <= i.currentlyDue && back >= 0 ==> after.outstanding == before.outstanding + back))
  {
    ReceivedWithout(receipts, entries, reversal, i.id);
  }

  /**
   Once an entry has been reversed in the committed journal, no receipt it booked is ever counted again - not even
   after the reversal is itself reversed - whatever else the journal's sessions do.
   */
  lemma ReversedStaysOut(before: seq<Op>, after: seq<Op>, r: Receipt)
    requires r.journalEntryId.Some? && IsReversed(Committed(Run(EmptyDb, before)).entries, r.journalEntryId.value)
    ensures !InView(Committed(Run(EmptyDb, before + after)).entries, r)
  {
    CommittedRowsNeverChange(before, after);
    var e :| e in Committed(Run(EmptyDb, before)).entries && e.reversalOf == r.journalEntryId;
    assert e in Committed(Run(EmptyDb, before + after)).entries;
  }
}
