/** How the reports tie to the journal store and to each other. */
module StatementTies {
  import opened Prelude
  import opened Sums
  import opened JournalStore
  import opened Statements

  predicate AccountKnown(p: Posting) { p.account.Some? }

  /** The totals a balance sheet of the scope shows (BalanceSheetReport ensures these). */
  function Assets(ps: seq<Posting>, scope: Scope, m: Masters): int {
    Sum(Filter(BsSelected(ps, scope, m), InAssetGroup), Signed)
  }
  function Liabilities(ps: seq<Posting>, scope: Scope, m: Masters): int {
    Sum(Filter(BsSelected(ps, scope, m), InLiabilityGroup), Signed)
  }
  function Equity(ps: seq<Posting>, scope: Scope, m: Masters): int {
    Sum(Filter(BsSelected(ps, scope, m), InOtherGroup), Signed) + Earnings(ps, scope, m)
  }

  predicate SheetBalances(ps: seq<Posting>, scope: Scope, m: Masters) {
    Assets(ps, scope, m) == Liabilities(ps, scope, m) + Equity(ps, scope, m)
  }

  /** Debit total minus credit total of the trial balance of the scope. */
  function TrialGap(ps: seq<Posting>, scope: Scope, m: Masters): int {
    Sum(Selected(ps, scope, true, m), DebitP) - Sum(Selected(ps, scope, true, m), CreditP)
  }

  function AssetPart(p: Posting): int { if IsBalanceSheetPosting(p) && InAssetGroup(p) then Signed(p) else 0 }
  function LiabilityPart(p: Posting): int { if IsBalanceSheetPosting(p) && InLiabilityGroup(p) then Signed(p) else 0 }
  function OtherPart(p: Posting): int { if IsBalanceSheetPosting(p) && InOtherGroup(p) then Signed(p) else 0 }
  function RevenuePart(p: Posting): int { if IsIncomeOrExpense(p) then Revenue(p) else 0 }
  function CostPart(p: Posting): int { if IsIncomeOrExpense(p) then Cost(p) else 0 }
  function SheetPart(p: Posting): int { AssetPart(p) - LiabilityPart(p) }
  function SheetGapPart(p: Posting): int { SheetPart(p) - OtherPart(p) }
  function EarnedPart(p: Posting): int { RevenuePart(p) - CostPart(p) }
  function KnownNet(p: Posting): int { if AccountKnown(p) then Net(p) else 0 }

  /** Every line of a known account counts once, with the same sign, in the sheet's gap or in the earnings. */
  lemma PartsMakeNet(p: Posting, m: Masters)
    requires MastersOk(m) && p == Joined(p.entry, p.line, m)
    ensures KnownNet(p) == SheetGapPart(p) - EarnedPart(p)
  {
  }

  /**
   The balance sheet's gap is the net of the in-scope lines whose account exists: nothing about account types, and
   in particular not that an account has its group's type, is needed for assets = liabilities + equity.
   */
  lemma BalanceSheetGap(ps: seq<Posting>, scope: Scope, m: Masters)
    requires MastersOk(m) && forall p <- ps :: p == Joined(p.entry, p.line, m)
    ensures Assets(ps, scope, m) - Liabilities(ps, scope, m) - Equity(ps, scope, m)
         == Sum(Filter(Selected(ps, scope, true, m), AccountKnown), Net)
  {
    var sel := Selected(ps, scope, true, m);
    SumFilterTwice(sel, IsBalanceSheetPosting, InAssetGroup, Signed, AssetPart);
    SumFilterTwice(sel, IsBalanceSheetPosting, InLiabilityGroup, Signed, LiabilityPart);
    SumFilterTwice(sel, IsBalanceSheetPosting, InOtherGroup, Signed, OtherPart);
    SumFilter(sel, IsIncomeOrExpense, Revenue, RevenuePart);
    SumFilter(sel, IsIncomeOrExpense, Cost, CostPart);
    SumFilter(sel, AccountKnown, Net, KnownNet);
    SumLinear(sel, SheetPart, AssetPart, LiabilityPart, 1, -1);
    SumLinear(sel, SheetGapPart, SheetPart, OtherPart, 1, -1);
    SumLinear(sel, EarnedPart, RevenuePart, CostPart, 1, -1);
    forall p | p in sel ensures KnownNet(p) == SheetGapPart(p) - EarnedPart(p) {
      PartsMakeNet(p, m);
    }
    SumLinear(sel, KnownNet, SheetGapPart, EarnedPart, 1, -1);
  }

  lemma TrialGapIsNet(ps: seq<Posting>, scope: Scope, m: Masters)
    ensures TrialGap(ps, scope, m) == Sum(Selected(ps, scope, true, m), Net)
  {
    SumLinear(Selected(ps, scope, true, m), Net, DebitP, CreditP, 1, -1);
  }

  /**
   With every in-scope account present in the masters, the balance sheet of a scope balances exactly when the trial
   balance of the same scope has debit = credit, and misses by the same amount when it does not.
   */
  lemma SheetBalancesIffTrialBalanceDoes(ps: seq<Posting>, scope: Scope, m: Masters)
    requires MastersOk(m) && forall p <- ps :: p == Joined(p.entry, p.line, m)
    requires forall p <- Selected(ps, scope, true, m) :: AccountKnown(p)
    ensures Assets(ps, scope, m) - Liabilities(ps, scope, m) - Equity(ps, scope, m) == TrialGap(ps, scope, m)
    ensures SheetBalances(ps, scope, m) <==> TrialGap(ps, scope, m) == 0
  {
    BalanceSheetGap(ps, scope, m);
    TrialGapIsNet(ps, scope, m);
    FilterAll(Selected(ps, scope, true, m), AccountKnown);
  }

  // ---- from balanced entries to balanced reports ----------------------------------------------------

  function EntryIdOf(p: Posting): Id { p.entry.id }

  /** Joining loses no line when every line has its entry, so an entry's postings net to its debits minus credits. */
  lemma {:induction false} EntryNet(lines: seq<Line>, entries: seq<Entry>, m: Masters, e: Id)
    requires forall l <- lines :: HasEntry(Rows(entries, []), l.entryId)
    ensures GroupSum(Join(lines, entries, m), EntryIdOf, e, Net) == DebitOf(lines, e) - CreditOf(lines, e)
  {
    if lines != [] {
      EntryNet(lines[1..], entries, m, e);
      assert HasEntry(Rows(entries, []), lines[0].entryId);
      var p := Joined(FindEntry(entries, lines[0].entryId).value, lines[0], m);
      assert Join(lines, entries, m) == [p] + Join(lines[1..], entries, m);
      assert Join(lines, entries, m)[1..] == Join(lines[1..], entries, m);
    }
  }

  function IdsWhere(entries: seq<Entry>, keep: Entry -> bool): (ids: seq<Id>) {
    if entries == [] then []
    else if keep(entries[0]) then [entries[0].id] + IdsWhere(entries[1..], keep)
    else IdsWhere(entries[1..], keep)
  }

  predicate KeptId(entries: seq<Entry>, keep: Entry -> bool, id: Id) {
    exists e <- entries :: keep(e) && e.id == id
  }

  lemma {:induction false} IdsWhereHolds(entries: seq<Entry>, keep: Entry -> bool, id: Id)
    ensures id in IdsWhere(entries, keep) <==> KeptId(entries, keep, id)
  {
    if entries != [] {
      IdsWhereHolds(entries[1..], keep, id);
      assert entries == [entries[0]] + entries[1..];
      assert KeptId(entries, keep, id) <==> (keep(entries[0]) && entries[0].id == id) || KeptId(entries[1..], keep, id);
    }
  }

  lemma {:induction false} IdsWhereIsDistinct(entries: seq<Entry>, keep: Entry -> bool)
    requires forall i, j :: 0 <= i < j < |entries| ==> entries[i].id != entries[j].id
    ensures Distinct(IdsWhere(entries, keep))
    ensures forall id :: id in IdsWhere(entries, keep) <==> KeptId(entries, keep, id)
  {
    forall id ensures id in IdsWhere(entries, keep) <==> KeptId(entries, keep, id) { IdsWhereHolds(entries, keep, id); }
    if entries != [] {
      var rest := IdsWhere(entries[1..], keep);
      IdsWhereIsDistinct(entries[1..], keep);
      assert forall e <- entries[1..] :: e.id != entries[0].id;
      assert entries[0].id !in rest;
      assert forall i :: 0 <= i < |rest| ==> rest[i] in rest;
    }
  }

  lemma {:induction false} ZeroGroups(ids: seq<Id>, ps: seq<Posting>)
    requires forall e :: GroupSum(ps, EntryIdOf, e, Net) == 0
    ensures SumOfGroups(ids, ps, EntryIdOf, Net) == 0
  {
    if ids != [] { ZeroGroups(ids[1..], ps); }
  }

  /** Any selection that keeps or drops entries whole nets to zero over a sound store. */
  lemma WholeEntriesNetToZero(r: Rows, m: Masters, keep: Entry -> bool, p: Posting -> bool)
    requires RowsOk(r) && forall x <- Postings(r, m) :: p(x) == keep(x.entry)
    ensures Sum(Filter(Postings(r, m), p), Net) == 0
  {
    var ps, ids := Postings(r, m), IdsWhere(r.entries, keep);
    IdsWhereIsDistinct(r.entries, keep);
    forall e ensures GroupSum(ps, EntryIdOf, e, Net) == 0 {
      EntriesSuffice(r);
      EntryNet(r.lines, r.entries, m, e);
      assert Balanced(r.lines, e);
    }
    ZeroGroups(ids, ps);
    var f := x => if EntryIdOf(x) in ids then Net(x) else 0;
    GroupsPartition(ids, ps, EntryIdOf, Net, f);
    forall x | x in ps ensures f(x) == if p(x) then Net(x) else 0 {
      SameIdSameEntry(r.entries, x.entry, keep);
    }
    SumFilter(ps, p, Net, f);
  }

  lemma EntriesSuffice(r: Rows)
    requires RowsOk(r)
    ensures forall l <- r.lines :: HasEntry(Rows(r.entries, []), l.entryId)
  {
    forall l | l in r.lines ensures HasEntry(Rows(r.entries, []), l.entryId) {
      assert HasEntry(r, l.entryId);
    }
  }

  lemma SameIdSameEntry(entries: seq<Entry>, e: Entry, keep: Entry -> bool)
    requires forall i, j :: 0 <= i < j < |entries| ==> entries[i].id != entries[j].id
    requires e in entries
    ensures keep(e) <==> KeptId(entries, keep, e.id)
  {
    if f :| f in entries && keep(f) && f.id == e.id {
      assert f == e;
    }
  }

  /** The scope filters only columns of journal_entry. */
  predicate EntryLevel(scope: Scope) {
    scope.accountId.None? && scope.costCentreId.None? && scope.purposeId.None? && scope.godownId.None?
    && scope.partyId.None? && scope.projectIds.None?
  }

  /** No entry date can satisfy the scope, or it asks for the projects of someone who has none. */
  predicate MatchesNothing(scope: Scope, balanceMode: bool, m: Masters) {
    || scope.projectIds == Some([])
    || (if balanceMode && scope.periodId.Some? then scope.periodId.value !in m.periodEnds
        else if balanceMode && scope.asOf.Some? then false
        else scope.dateFrom.Some? && scope.dateTo.Some? && scope.dateFrom.value > scope.dateTo.value)
  }

  lemma EntryLevelScopeNetsToZero(r: Rows, scope: Scope, m: Masters)
    requires RowsOk(r) && (EntryLevel(scope) || MatchesNothing(scope, true, m))
    ensures TrialGap(Postings(r, m), scope, m) == 0
  {
    TrialGapIsNet(Postings(r, m), scope, m);
    var p := x => InScope(scope, true, m, x);
    if EntryLevel(scope) {
      WholeEntriesNetToZero(r, m, e => EntryInScope(scope, true, m, e), p);
    } else {
      WholeEntriesNetToZero(r, m, e => false, p);
    }
  }

  /** A committed ledger, for every entry-level scope: debit = credit, and assets = liabilities + equity. */
  lemma CommittedLedgerBalances(ops: seq<Op>, scope: Scope, m: Masters)
    requires EntryLevel(scope) && MastersOk(m)
    ensures (var ps := Postings(Committed(Run(EmptyDb, ops)), m);
             && TrialGap(ps, scope, m) == 0
             && ((forall p <- Selected(ps, scope, true, m) :: AccountKnown(p)) ==> SheetBalances(ps, scope, m)))
  {
    EveryCommittedStateIsSound(ops, |Run(EmptyDb, ops).history| - 1);
    var r := Committed(Run(EmptyDb, ops));
    EntryLevelScopeNetsToZero(r, scope, m);
    if forall p <- Selected(Postings(r, m), scope, true, m) :: AccountKnown(p) {
      SheetBalancesIffTrialBalanceDoes(Postings(r, m), scope, m);
    }
  }

  // ---- exactly which scopes balance -----------------------------------------------------------------

  function DateFor(scope: Scope, m: Masters): int {
    if scope.periodId.Some?
    then (if scope.periodId.value in m.periodEnds then m.periodEnds[scope.periodId.value] else 0)
    else if scope.asOf.Some? then scope.asOf.value
    else if scope.dateFrom.Some? then scope.dateFrom.value
    else if scope.dateTo.Some? then scope.dateTo.value
    else 0
  }

  /** An entry inside the scope whose debit line the line filters keep and whose credit line they drop. */
  function SplitEntry(scope: Scope, m: Masters): Entry {
    Entry(0, scope.companyId, if scope.financialYearId.Some? then scope.financialYearId.value else 0, 1,
          if scope.voucherType.Some? then scope.voucherType.value else "JOURNAL", DateFor(scope, m), None)
  }

  /** The account the two lines are about: the scope's own, or any when it names none. */
  predicate AccountFits(scope: Scope, account: Id) { scope.accountId.Some? ==> scope.accountId.value == account }

  function KeptLine(scope: Scope, account: Id): Line {
    Line(0, 0, 1, account,
         if scope.projectIds.Some? && scope.projectIds.value != [] then Some(scope.projectIds.value[0]) else None,
         scope.costCentreId, scope.purposeId, scope.godownId, scope.partyId, 1, 0)
  }

  function DroppedLine(scope: Scope, account: Id): Line {
    Line(1, 0, 2, if scope.accountId.Some? then account + 1 else account, None, None, None, None, None, 0, 1)
  }

  function SplitOps(scope: Scope, m: Masters, account: Id): seq<Op> {
    [Begin(0), InsertEntry(0, SplitEntry(scope, m)), InsertLine(0, KeptLine(scope, account)),
     InsertLine(0, DroppedLine(scope, account)), StartCommit(0), RunCheck(0, 0), RunCheck(0, 0), FinishCommit(0)]
  }

  function SplitRows(scope: Scope, m: Masters, account: Id): Rows {
    Rows([SplitEntry(scope, m)], [KeptLine(scope, account), DroppedLine(scope, account)])
  }

  lemma SplitSums(lines: seq<Line>, a: Line, b: Line)
    requires lines == [a, b] && a.entryId == b.entryId == 0
    ensures DebitOf(lines, 0) == a.debit + b.debit && CreditOf(lines, 0) == a.credit + b.credit
  {
    assert lines == [a] + [b];
    BalanceOfUnion(Rows([], [a]), Rows([], [b]), 0);
    GroupSumSingle(a, EntryOf, 0, Debit);
    GroupSumSingle(a, EntryOf, 0, Credit);
    GroupSumSingle(b, EntryOf, 0, Debit);
    GroupSumSingle(b, EntryOf, 0, Credit);
  }

  function Inserted(e: Entry, lines: seq<Line>, queue: seq<Id>, committing: bool): Db {
    Db([NoRows], map[0 := Tx(Rows([e], lines), queue, false, committing)])
  }

  /** Inserting a fresh entry and two acceptable lines of it into the empty store. */
  lemma InsertPhase(e: Entry, a: Line, b: Line)
    requires e.reversalOf.None? && a.entryId == b.entryId == e.id && a.id != b.id && LineChecks(a) && LineChecks(b)
    ensures Step(Step(Step(Step(EmptyDb, Begin(0)), InsertEntry(0, e)), InsertLine(0, a)), InsertLine(0, b))
         == Inserted(e, [a, b], [e.id, e.id], false)
  {
    var d0 := Db([NoRows], map[0 := Tx(NoRows, [], false, false)]);
    assert Step(EmptyDb, Begin(0)) == d0;
    assert NoRows.entries + [e] == [e] && !HasEntry(Union(NoRows, NoRows), e.id);
    assert Step(d0, InsertEntry(0, e)) == Inserted(e, [], [], false);
    FirstLine(e, a);
    SecondLine(e, a, b);
  }

  lemma FirstLine(e: Entry, a: Line)
    requires a.entryId == e.id && LineChecks(a)
    ensures Step(Inserted(e, [], [], false), InsertLine(0, a)) == Inserted(e, [a], [e.id], false)
  {
    var seen := Union(NoRows, Rows([e], []));
    assert e in seen.entries && LineAccepted(seen, a);
    assert [] + [a] == [a] && [] + [e.id] == [e.id];
  }

  lemma SecondLine(e: Entry, a: Line, b: Line)
    requires b.entryId == e.id && a.id != b.id && LineChecks(b)
    ensures Step(Inserted(e, [a], [e.id], false), InsertLine(0, b)) == Inserted(e, [a, b], [e.id, e.id], false)
  {
    var seen := Union(NoRows, Rows([e], [a]));
    assert e in seen.entries && (forall l <- seen.lines :: l == a) && LineAccepted(seen, b);
    assert [a] + [b] == [a, b] && [e.id] + [e.id] == [e.id, e.id];
  }

  /** Committing them: both queued checks see the balanced pair. */
  lemma CommitPhase(e: Entry, a: Line, b: Line)
    requires CheckPasses([a, b], e.id)
    ensures (var d := Step(Step(Step(Step(Inserted(e, [a, b], [e.id, e.id], false), StartCommit(0)), RunCheck(0, 0)),
                                RunCheck(0, 0)), FinishCommit(0));
             Committed(d) == Rows([e], [a, b]))
  {
    assert Step(Inserted(e, [a, b], [e.id, e.id], false), StartCommit(0)) == Inserted(e, [a, b], [e.id, e.id], true);
    assert Union(NoRows, Rows([e], [a, b])) == Rows([e], [a, b]);
    assert [e.id, e.id][1..] == [e.id] && [e.id][1..] == [];
    assert Step(Inserted(e, [a, b], [e.id, e.id], true), RunCheck(0, 0)) == Inserted(e, [a, b], [e.id], true);
    assert Step(Inserted(e, [a, b], [e.id], true), RunCheck(0, 0)) == Inserted(e, [a, b], [], true);
  }

  /** The two-line entry really can be committed: every check of the store accepts it. */
  lemma SplitLedgerIsReachable(scope: Scope, m: Masters, account: Id)
    ensures Committed(Run(EmptyDb, SplitOps(scope, m, account))) == SplitRows(scope, m, account)
  {
    var e, a, b := SplitEntry(scope, m), KeptLine(scope, account), DroppedLine(scope, account);
    InsertPhase(e, a, b);
    SplitSums([a, b], a, b);
    CommitPhase(e, a, b);
    EightSteps(EmptyDb, SplitOps(scope, m, account));
  }

  lemma EightSteps(db: Db, ops: seq<Op>)
    requires db.history != [] && |ops| == 8
    ensures Run(db, ops)
            == Step(Step(Step(Step(Step(Step(Step(Step(db, ops[0]), ops[1]), ops[2]), ops[3]), ops[4]), ops[5]),
                         ops[6]), ops[7])
  {
    RunConcat(db, ops[..4], ops[4..]);
    assert ops[..4] + ops[4..] == ops;
    FourSteps(db, ops[..4]);
    FourSteps(Run(db, ops[..4]), ops[4..]);
  }

  lemma FourSteps(db: Db, ops: seq<Op>)
    requires db.history != [] && |ops| == 4
    ensures Run(db, ops) == Step(Step(Step(Step(db, ops[0]), ops[1]), ops[2]), ops[3])
  {
    var d1 := Step(db, ops[0]);
    var d2 := Step(d1, ops[1]);
    var d3 := Step(d2, ops[2]);
    assert ops[1..][1..] == ops[2..] && ops[2..][1..] == ops[3..] && ops[3..][1..] == [];
    assert Run(d3, ops[3..]) == Step(d3, ops[3]);
    assert Run(d2, ops[2..]) == Run(d3, ops[3..]);
    assert Run(d1, ops[1..]) == Run(d2, ops[2..]);
  }

  lemma SplitLedgerIsLopsided(scope: Scope, m: Masters, account: Id)
    requires !EntryLevel(scope) && !MatchesNothing(scope, true, m) && AccountFits(scope, account)
    ensures TrialGap(Postings(SplitRows(scope, m, account), m), scope, m) == 1
    ensures forall p <- Selected(Postings(SplitRows(scope, m, account), m), scope, true, m) ::
              p.line.accountId == account
  {
    var e, a, b := SplitEntry(scope, m), KeptLine(scope, account), DroppedLine(scope, account);
    var pa, pb := Joined(e, a, m), Joined(e, b, m);
    assert FindEntry([e], 0) == Some(e);
    assert [a, b][1..] == [b] && [b][1..] == [];
    assert Join([b], [e], m) == [pb] + Join([], [e], m);
    assert Join([a, b], [e], m) == [pa] + Join([b], [e], m);
    assert Postings(SplitRows(scope, m, account), m) == [pa, pb];
    var p := x => InScope(scope, true, m, x);
    assert p(pa) && !p(pb);
    assert [pa, pb][1..] == [pb] && [pb][1..] == [];
    assert Filter([pb], p) == [];
    assert Filter([pa, pb], p) == [pa] + Filter([pb], p);
    assert [pa][1..] == [];
    SumSingle(pa, DebitP);
    SumSingle(pa, CreditP);
  }

  /**
   Exactly which scopes are safe: the trial balance has debit = credit for every ledger the store can reach if and
   only if the scope filters entries whole, or matches nothing at all. A filter on project, cost centre, purpose,
   godown, party or account breaks the tie for some ledger.
   */
  lemma TrialBalanceTiesIffEntryLevel(scope: Scope, m: Masters)
    ensures (forall ops: seq<Op> :: TrialGap(Postings(Committed(Run(EmptyDb, ops)), m), scope, m) == 0)
       <==> EntryLevel(scope) || MatchesNothing(scope, true, m)
  {
    if EntryLevel(scope) || MatchesNothing(scope, true, m) {
      forall ops: seq<Op> ensures TrialGap(Postings(Committed(Run(EmptyDb, ops)), m), scope, m) == 0 {
        EveryCommittedStateIsSound(ops, |Run(EmptyDb, ops).history| - 1);
        EntryLevelScopeNetsToZero(Committed(Run(EmptyDb, ops)), scope, m);
      }
    } else {
      var account := if scope.accountId.Some? then scope.accountId.value else 0;
      SplitLedgerIsReachable(scope, m, account);
      SplitLedgerIsLopsided(scope, m, account);
      assert TrialGap(Postings(Committed(Run(EmptyDb, SplitOps(scope, m, account))), m), scope, m) == 1;
    }
  }

  /** Every account the scope selects in the ledger that ops lead to is in the masters. */
  predicate SelectedKnown(ops: seq<Op>, scope: Scope, m: Masters) {
    forall p <- Selected(Postings(Committed(Run(EmptyDb, ops)), m), scope, true, m) :: AccountKnown(p)
  }

  predicate SheetBalancesAfter(ops: seq<Op>, scope: Scope, m: Masters) {
    SheetBalances(Postings(Committed(Run(EmptyDb, ops)), m), scope, m)
  }

  /** For a scope that filters lines, the split ledger's balance sheet does not balance. */
  lemma SplitLedgerUnbalancesTheSheet(scope: Scope, m: Masters, account: Id)
    requires MastersOk(m) && !EntryLevel(scope) && !MatchesNothing(scope, true, m)
    requires AccountFits(scope, account) && account in m.accounts
    ensures SelectedKnown(SplitOps(scope, m, account), scope, m)
    ensures !SheetBalancesAfter(SplitOps(scope, m, account), scope, m)
  {
    SplitLedgerIsReachable(scope, m, account);
    SplitLedgerIsLopsided(scope, m, account);
    SheetBalancesIffTrialBalanceDoes(Postings(SplitRows(scope, m, account), m), scope, m);
  }

  /** The masters hold no account that the scope could select. */
  predicate NoAccount(scope: Scope, m: Masters) {
    if scope.accountId.Some? then scope.accountId.value !in m.accounts else m.accounts.Keys == {}
  }

  lemma NothingToBalance(r: Rows, scope: Scope, m: Masters)
    requires MastersOk(m) && NoAccount(scope, m)
    requires forall p <- Selected(Postings(r, m), scope, true, m) :: AccountKnown(p)
    ensures SheetBalances(Postings(r, m), scope, m)
  {
    var sel := Selected(Postings(r, m), scope, true, m);
    assert sel != [] ==> sel[0] in sel && !AccountKnown(sel[0]);
  }

  /**
   Exactly which scopes are safe for the balance sheet: it balances for every reachable ledger whose selected accounts
   are known if and only if the scope filters entries whole, matches nothing, or can select no account at all.
   */
  lemma SheetBalancesIffEntryLevel(scope: Scope, m: Masters)
    requires MastersOk(m)
    ensures (forall ops: seq<Op> :: SelectedKnown(ops, scope, m) ==> SheetBalancesAfter(ops, scope, m))
       <==> EntryLevel(scope) || MatchesNothing(scope, true, m) || NoAccount(scope, m)
  {
    if EntryLevel(scope) || MatchesNothing(scope, true, m) || NoAccount(scope, m) {
      forall ops: seq<Op> | SelectedKnown(ops, scope, m) ensures SheetBalancesAfter(ops, scope, m) {
        var r := Committed(Run(EmptyDb, ops));
        if NoAccount(scope, m) {
          NothingToBalance(r, scope, m);
        } else {
          EveryCommittedStateIsSound(ops, |Run(EmptyDb, ops).history| - 1);
          EntryLevelScopeNetsToZero(r, scope, m);
          SheetBalancesIffTrialBalanceDoes(Postings(r, m), scope, m);
        }
      }
    } else {
      var account :| account in m.accounts && AccountFits(scope, account);
      SplitLedgerUnbalancesTheSheet(scope, m, account);
    }
  }

  // ---- balance sheet against profit and loss ----------------------------------------------------------

  /** The earnings on a balance sheet as of d are the profit of the P&L up to d, for the same remaining filters. */
  lemma EarningsAsOfAreProfitUpTo(ps: seq<Posting>, scope: Scope, d: int, tokens: seq<string>, m: Masters)
    requires scope.periodId.None? && scope.asOf == Some(d)
    requires GroupError(tokens, PNL_GROUP_TOKENS).None?
    ensures Earnings(ps, scope, m)
         == ProfitAndLossReport(ps, scope.(asOf := None, dateFrom := None, dateTo := Some(d)), tokens, m).value.profit
  {
    var upTo := scope.(asOf := None, dateFrom := None, dateTo := Some(d));
    FilterCong(ps, p => InScope(scope, true, m, p), p => InScope(upTo, false, m, p));
  }
}
