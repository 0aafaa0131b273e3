/**
 The prospective over-budget check of a draft voucher, and why it can be believed: its figures are the ones the
 lifetime budget-versus-actual report shows once exactly those cost lines are posted.
 */
module BudgetCheck {
  import opened Prelude
  import opened Sums
  import opened JournalStore
  import opened Statements
  import opened CostPolicy
  import opened CostControl

  /** One cost line of the draft; the amount may be negative. */
  datatype DraftLine = DraftLine(pair: Pair, amount: int)

  datatype Prospect = Prospect(pair: Pair, currentActual: int, draftAmount: int, budgeted: Option<int>,
                               utilisation: Option<Decimal>, status: Status)

  function LinePair(l: DraftLine): Pair { l.pair }
  function Amount(l: DraftLine): int { l.amount }

  /** The draft's distinct pairs in the order a Map keyed by pair first meets them. */
  function FirstSeen(lines: seq<DraftLine>): (ks: seq<Pair>)
    ensures forall k :: k in ks <==> exists l <- lines :: l.pair == k
  {
    if lines == [] then []
    else
      var ks := FirstSeen(lines[..|lines| - 1]);
      var last := lines[|lines| - 1];
      assert lines == lines[..|lines| - 1] + [last];
      if last.pair in ks then ks else ks + [last.pair]
  }

  lemma {:induction false} FirstSeenIsDistinct(lines: seq<DraftLine>)
    ensures Distinct(FirstSeen(lines))
  {
    if lines != [] { FirstSeenIsDistinct(lines[..|lines| - 1]); }
  }

  function DraftOf(lines: seq<DraftLine>, k: Pair): int { GroupSum(lines, LinePair, k, Amount) }

  /** The lifetime scope of the check: the company, and the draft's projects. */
  function CheckScope(companyId: Id, projectIds: seq<Id>): CostScope {
    CostScope(companyId, CostFilter(None, None, None, None, None), Some(projectIds))
  }

  function ProjectsOf(ks: seq<Pair>): seq<Id> {
    if ks == [] then []
    else
      var ids := ProjectsOf(ks[..|ks| - 1]);
      if ks[|ks| - 1].projectId in ids then ids else ids + [ks[|ks| - 1].projectId]
  }

  function ActualOf(actuals: map<Pair, int>, k: Pair): int { if k in actuals then actuals[k] else 0 }

  function ProspectFor(k: Pair, actuals: map<Pair, int>, budgets: map<Pair, int>, draft: int): Prospect {
    var (status, utilisation) := Classify(Lookup(budgets, k), ActualOf(actuals, k) + draft);
    Prospect(k, ActualOf(actuals, k), draft, Lookup(budgets, k), utilisation, status)
  }

  /** checkProspective's result: one advisory per distinct pair, in the order the draft first names it. */
  ghost predicate IsCheck(results: seq<Prospect>, ps: seq<Posting>, table: seq<Budget>, companyId: Id,
          lines: seq<DraftLine>) {
    var ks := FirstSeen(lines);
    var s := CheckScope(companyId, ProjectsOf(ks));
    && |results| == |ks|
    && forall i :: 0 <= i < |ks| ==>
         results[i] == ProspectFor(ks[i], ActualMap(CostRows(ps, s)), BudgetsIn(table, s), DraftOf(lines, ks[i]))
  }

  lemma DraftOneMore(lines: seq<DraftLine>, l: DraftLine, k: Pair)
    ensures DraftOf(lines + [l], k) == DraftOf(lines, k) + if l.pair == k then l.amount else 0
  {
    GroupSumConcat(lines, [l], LinePair, k, Amount);
    GroupSumSingle(l, LinePair, k, Amount);
  }

  lemma {:induction false} NotSeenMeansNoDraft(lines: seq<DraftLine>, k: Pair)
    requires k !in FirstSeen(lines)
    ensures DraftOf(lines, k) == 0
  {
    if lines != [] {
      var front, last := lines[..|lines| - 1], lines[|lines| - 1];
      assert lines == front + [last];
      NotSeenMeansNoDraft(front, k);
      DraftOneMore(front, last, k);
    }
  }

  method GroupDraft(lines: seq<DraftLine>) returns (keys: seq<Pair>, drafts: map<Pair, int>)
    ensures keys == FirstSeen(lines)
    ensures forall k :: k in drafts <==> k in keys
    ensures forall k <- drafts :: drafts[k] == DraftOf(lines, k)
  {
    keys, drafts := [], map[];
    var i := 0;
    assert lines[..0] == [];
    while i < |lines|
      invariant 0 <= i <= |lines| && keys == FirstSeen(lines[..i])
      invariant forall k :: k in drafts <==> k in keys
      invariant forall k <- drafts :: drafts[k] == DraftOf(lines[..i], k)
    {
      var l := lines[i];
      assert lines[..i + 1] == lines[..i] + [l] && lines[..i + 1][..i] == lines[..i];
      forall k ensures DraftOf(lines[..i + 1], k) == DraftOf(lines[..i], k) + if l.pair == k then l.amount else 0 {
        DraftOneMore(lines[..i], l, k);
      }
      if l.pair in drafts {
        drafts := drafts[l.pair := drafts[l.pair] + l.amount];
      } else {
        NotSeenMeansNoDraft(lines[..i], l.pair);
        drafts := drafts[l.pair := 0 + l.amount];
        keys := keys + [l.pair];
      }
      i := i + 1;
    }
    assert lines[..i] == lines;
  }

  method Advise(key: Pair, actuals: map<Pair, int>, budgets: map<Pair, int>, amount: int) returns (advice: Prospect)
    ensures advice == ProspectFor(key, actuals, budgets, amount)
  {
    var currentActual := if key in actuals then actuals[key] else 0;
    var budgetedAmount := Lookup(budgets, key);
    var projected := currentActual + amount;
    var (status, utilisation) := Classify(budgetedAmount, projected);
    advice := Prospect(key, currentActual, amount, budgetedAmount, utilisation, status);
  }

  method AdviseAll(keys: seq<Pair>, drafts: map<Pair, int>, actuals: map<Pair, int>,
          budgets: map<Pair, int>) returns (results: seq<Prospect>)
    requires forall k <- keys :: k in drafts
    ensures |results| == |keys|
    ensures forall i :: 0 <= i < |keys| ==> results[i] == ProspectFor(keys[i], actuals, budgets, drafts[keys[i]])
  {
    results := [];
    var i := 0;
    while i < |keys|
      invariant 0 <= i <= |keys| && |results| == i
      invariant forall j :: 0 <= j < i ==> results[j] == ProspectFor(keys[j], actuals, budgets, drafts[keys[j]])
    {
      var advice := Advise(keys[i], actuals, budgets, drafts[keys[i]]);
      results := results + [advice];
      i := i + 1;
    }
  }

  method CheckProspective(ps: seq<Posting>, table: seq<Budget>, companyId: Id,
          lines: seq<DraftLine>) returns (results: seq<Prospect>)
    ensures IsCheck(results, ps, table, companyId, lines)
  {
    if |lines| == 0 {
      return [];
    }
    var keys, drafts := GroupDraft(lines);
    var s := CheckScope(companyId, ProjectsOf(keys));
    var actuals := ActualMap(CostRows(ps, s));
    var budgets := BudgetsByPair(table, s);
    results := AdviseAll(keys, drafts, actuals, budgets);
  }

  // ---- the draft's total and its order ----------------------------------------------------------------------------

  function SumOfDrafts(results: seq<Prospect>): int { Sum(results, (r: Prospect) => r.draftAmount) }

  lemma {:induction false} DraftsOverKeys(results: seq<Prospect>, ks: seq<Pair>, lines: seq<DraftLine>)
    requires |results| == |ks| && forall i :: 0 <= i < |ks| ==> results[i].draftAmount == DraftOf(lines, ks[i])
    ensures SumOfDrafts(results) == SumOfGroups(ks, lines, LinePair, Amount)
    decreases ks
  {
    if ks != [] { DraftsOverKeys(results[1..], ks[1..], lines); }
  }

  /** The advisories split the draft: their draft amounts add up to it. */
  lemma DraftAmountsSumToDraft(results: seq<Prospect>, ps: seq<Posting>, table: seq<Budget>, companyId: Id,
          lines: seq<DraftLine>)
    requires IsCheck(results, ps, table, companyId, lines)
    ensures SumOfDrafts(results) == Sum(lines, Amount)
  {
    var ks := FirstSeen(lines);
    DraftsOverKeys(results, ks, lines);
    FirstSeenIsDistinct(lines);
    GroupsPartition(ks, lines, LinePair, Amount, Amount);
  }

  lemma DraftWithout(lines: seq<DraftLine>, i: nat, k: Pair)
    requires i < |lines|
    ensures (var rest := lines[..i] + lines[i + 1..];
             && DraftOf(lines, k) == DraftOf(rest, k) + (if lines[i].pair == k then lines[i].amount else 0)
             && multiset(rest) == multiset(lines) - multiset{lines[i]})
  {
    var l, tail := lines[i], lines[i + 1..];
    assert lines == lines[..i] + ([l] + tail);
    GroupSumConcat(lines[..i], tail, LinePair, k, Amount);
    GroupSumConcat(lines[..i], [l] + tail, LinePair, k, Amount);
    assert ([l] + tail)[1..] == tail;
  }

  lemma {:induction false} DraftOfPermuted(lines: seq<DraftLine>, lines': seq<DraftLine>, k: Pair)
    requires multiset(lines) == multiset(lines')
    ensures DraftOf(lines, k) == DraftOf(lines', k)
    decreases |lines|
  {
    if lines == [] {
      assert |multiset(lines')| == 0;
    } else {
      assert lines[0] in multiset(lines');
      var i :| 0 <= i < |lines'| && lines'[i] == lines[0];
      DraftWithout(lines, 0, k);
      DraftWithout(lines', i, k);
      DraftOfPermuted(lines[..0] + lines[0 + 1..], lines'[..i] + lines'[i + 1..], k);
    }
  }

  lemma SamePairsSeen(lines: seq<DraftLine>, lines': seq<DraftLine>)
    requires multiset(lines) == multiset(lines')
    ensures forall k :: k in FirstSeen(lines) <==> k in FirstSeen(lines')
  {
    forall k ensures k in FirstSeen(lines) <==> k in FirstSeen(lines') {
      if l :| l in lines && l.pair == k { assert l in multiset(lines'); }
      if l :| l in lines' && l.pair == k { assert l in multiset(lines); }
    }
  }

  // ---- one pair's lifetime cost does not depend on the scope ------------------------------------------------------

  /** A lifetime scope that lets the pair through. */
  predicate Covers(s: CostScope, companyId: Id, k: Pair) {
    && s.companyId == companyId
    && s.filter.financialYearId.None? && s.filter.dateFrom.None? && s.filter.dateTo.None?
    && Wants(s.filter.projectId, k.projectId) && Wants(s.filter.costCentreId, k.costCentreId)
    && (s.assignedProjectIds.Some? ==> k.projectId in s.assignedProjectIds.value)
  }

  predicate CostsPair(companyId: Id, k: Pair, p: Posting) {
    IsCost(p) && p.entry.companyId == companyId && PairOf(p) == Some(k)
  }

  /** What the company has ever spent on the pair. */
  function Spent(ps: seq<Posting>, companyId: Id, k: Pair): int {
    Sum(ps, (p: Posting) => if CostsPair(companyId, k, p) then Net(p) else 0)
  }

  lemma {:induction false} CoveringScopeSeesAll(ps: seq<Posting>, s: CostScope, companyId: Id, k: Pair)
    requires Covers(s, companyId, k)
    ensures GroupSum(CostRows(ps, s), PairOf, Some(k), Net) == Spent(ps, companyId, k)
  {
    if ps != [] {
      CoveringScopeSeesAll(ps[1..], s, companyId, k);
      var rest := CostRows(ps[1..], s);
      assert ([ps[0]] + rest)[1..] == rest;
    }
  }

  lemma {:induction false} NoPairNoSum(rows: seq<Posting>, k: Pair)
    requires k !in PairsIn(rows)
    ensures GroupSum(rows, PairOf, Some(k), Net) == 0
  {
    if rows != [] {
      assert rows[0] in rows && forall p <- rows[1..] :: p in rows;
      NoPairNoSum(rows[1..], k);
    }
  }

  lemma ActualIsSpent(ps: seq<Posting>, s: CostScope, companyId: Id, k: Pair)
    requires Covers(s, companyId, k)
    ensures ActualOf(ActualMap(CostRows(ps, s)), k) == Spent(ps, companyId, k)
  {
    CoveringScopeSeesAll(ps, s, companyId, k);
    if k !in PairsIn(CostRows(ps, s)) { NoPairNoSum(CostRows(ps, s), k); }
  }

  lemma {:induction false} BudgetOfPair(table: seq<Budget>, s: CostScope, t: CostScope, companyId: Id, k: Pair)
    requires Covers(s, companyId, k) && Covers(t, companyId, k)
    ensures Lookup(BudgetsIn(table, s), k) == Lookup(BudgetsIn(table, t), k)
    decreases table
  {
    if table != [] {
      var front, last := table[..|table| - 1], table[|table| - 1];
      BudgetOfPair(front, s, t, companyId, k);
      assert table == front + [last];
      BudgetsOneMore(front, last, s, k);
      BudgetsOneMore(front, last, t, k);
    }
  }

  lemma BudgetsOneMore(table: seq<Budget>, b: Budget, s: CostScope, k: Pair)
    ensures Lookup(BudgetsIn(table + [b], s), k)
         == if BudgetWhere(s, b) && b.pair == k then Some(b.amount) else Lookup(BudgetsIn(table, s), k)
  {
    var own := Filter(table, (b: Budget) => BudgetWhere(s, b));
    FilterConcat(table, [b], (b: Budget) => BudgetWhere(s, b));
    assert [b][1..] == [];
    if BudgetWhere(s, b) { assert (own + [b])[..|own|] == own; } else { assert own + [] == own; }
  }

  lemma {:induction false} ProjectsOfHas(ks: seq<Pair>, k: Pair)
    requires k in ks
    ensures k.projectId in ProjectsOf(ks)
  {
    if k != ks[|ks| - 1] {
      assert ks == ks[..|ks| - 1] + [ks[|ks| - 1]];
      ProjectsOfHas(ks[..|ks| - 1], k);
    }
  }

  // ---- post, then read --------------------------------------------------------------------------------------------

  /** The amount of a draft line as a one-sided journal line; nothing is posted for zero. */
  ghost predicate PostsAs(p: Posting, companyId: Id, l: DraftLine) {
    CostsPair(companyId, l.pair, p) && p.line.debit == Max(l.amount, 0) && p.line.credit == Max(-l.amount, 0)
  }

  ghost predicate PostsDraft(posted: seq<Posting>, companyId: Id, lines: seq<DraftLine>)
    decreases lines
  {
    if lines == [] then posted == []
    else if lines[0].amount == 0 then PostsDraft(posted, companyId, lines[1..])
    else posted != [] && PostsAs(posted[0], companyId, lines[0]) && PostsDraft(posted[1..], companyId, lines[1..])
  }

  lemma {:induction false} PostedAmounts(posted: seq<Posting>, companyId: Id, lines: seq<DraftLine>, k: Pair)
    requires PostsDraft(posted, companyId, lines)
    ensures Spent(posted, companyId, k) == DraftOf(lines, k)
    decreases lines
  {
    if lines != [] {
      if lines[0].amount == 0 {
        PostedAmounts(posted, companyId, lines[1..], k);
      } else {
        PostedAmounts(posted[1..], companyId, lines[1..], k);
      }
    }
  }

  lemma SpentAfter(ps: seq<Posting>, posted: seq<Posting>, others: seq<Posting>, companyId: Id,
          lines: seq<DraftLine>, k: Pair)
    requires PostsDraft(posted, companyId, lines) && forall p <- others :: !IsCost(p)
    ensures Spent(ps + posted + others, companyId, k) == Spent(ps, companyId, k) + DraftOf(lines, k)
  {
    var f := (p: Posting) => if CostsPair(companyId, k, p) then Net(p) else 0;
    SumConcat(ps + posted, others, f);
    SumConcat(ps, posted, f);
    PostedAmounts(posted, companyId, lines, k);
    SumZero(others, f);
  }

  /**
   Checking and then posting gives what posting and then reading gives: after exactly the draft's cost lines are added
   (with any lines that are no costs beside them), every lifetime budget-versus-actual report that covers a pair of
   the draft shows, for that pair, the advisory's current actual plus draft amount, its budget, utilisation and status.
   */
  lemma CheckEqualsPostThenRead(ps: seq<Posting>, table: seq<Budget>, companyId: Id, lines: seq<DraftLine>,
          results: seq<Prospect>, posted: seq<Posting>, others: seq<Posting>, s: CostScope, rows: seq<CostRow>,
          row: CostRow, i: nat)
    requires IsCheck(results, ps, table, companyId, lines) && i < |results| && Covers(s, companyId, results[i].pair)
    requires PostsDraft(posted, companyId, lines) && forall p <- others :: !IsCost(p)
    requires IsReport(rows, ActualMap(CostRows(ps + posted + others, s)), BudgetsIn(table, s))
    requires row in rows && row.pair == results[i].pair
    ensures row.actual == results[i].currentActual + results[i].draftAmount
    ensures row.budgeted == results[i].budgeted && row.utilisation == results[i].utilisation
            && row.status == results[i].status
  {
    var ks := FirstSeen(lines);
    var k := ks[i];
    var t := CheckScope(companyId, ProjectsOf(ks));
    assert k in ks;
    ProjectsOfHas(ks, k);
    ActualIsSpent(ps, t, companyId, k);
    ActualIsSpent(ps + posted + others, s, companyId, k);
    SpentAfter(ps, posted, others, companyId, lines, k);
    BudgetOfPair(table, s, t, companyId, k);
  }

  lemma {:induction false} PostedPairShows(posted: seq<Posting>, companyId: Id, lines: seq<DraftLine>, k: Pair)
    requires PostsDraft(posted, companyId, lines) && exists l <- lines :: l.pair == k && l.amount != 0
    ensures exists p <- posted :: CostsPair(companyId, k, p)
    decreases lines
  {
    if lines[0].amount == 0 {
      PostedPairShows(posted, companyId, lines[1..], k);
    } else if lines[0].pair == k {
      assert posted[0] in posted;
    } else {
      PostedPairShows(posted[1..], companyId, lines[1..], k);
    }
  }

  /** A pair on which the draft puts any amount has a row in those reports. */
  lemma PostedPairHasRow(ps: seq<Posting>, table: seq<Budget>, companyId: Id, lines: seq<DraftLine>,
          posted: seq<Posting>, others: seq<Posting>, s: CostScope, rows: seq<CostRow>, k: Pair)
    requires PostsDraft(posted, companyId, lines) && Covers(s, companyId, k)
    requires exists l <- lines :: l.pair == k && l.amount != 0
    requires IsReport(rows, ActualMap(CostRows(ps + posted + others, s)), BudgetsIn(table, s))
    ensures exists row <- rows :: row.pair == k
  {
    PostedPairShows(posted, companyId, lines, k);
    var p :| p in posted && CostsPair(companyId, k, p);
    var all := ps + posted + others;
    assert p in all && CostWhere(s, p) && p in CostRows(all, s);
    assert k in ActualMap(CostRows(all, s));
    assert RowOf(ActualMap(CostRows(all, s)), BudgetsIn(table, s), k) in rows;
  }

  /** Reordering the draft's lines reorders the advisories and changes none of them. */
  lemma LineOrderDoesNotMatter(ps: seq<Posting>, table: seq<Budget>, companyId: Id, lines: seq<DraftLine>,
          lines': seq<DraftLine>,
                               results: seq<Prospect>, results': seq<Prospect>, r: Prospect)
    requires multiset(lines) == multiset(lines')
    requires IsCheck(results, ps, table, companyId, lines) && IsCheck(results', ps, table, companyId, lines')
    ensures r in results <==> r in results'
  {
    if r in results { AdvisoryCarriesOver(ps, table, companyId, lines, lines', results, results', r); }
    if r in results' { AdvisoryCarriesOver(ps, table, companyId, lines', lines, results', results, r); }
  }

  /** The check's scope covers every pair it is made for. */
  lemma CheckCovers(companyId: Id, ks: seq<Pair>, k: Pair)
    requires k in ks
    ensures Covers(CheckScope(companyId, ProjectsOf(ks)), companyId, k)
  {
    ProjectsOfHas(ks, k);
  }

  lemma SameAdvice(ps: seq<Posting>, table: seq<Budget>, companyId: Id, t: CostScope, t': CostScope, k: Pair,
          draft: int)
    requires Covers(t, companyId, k) && Covers(t', companyId, k)
    ensures ProspectFor(k, ActualMap(CostRows(ps, t)), BudgetsIn(table, t), draft)
         == ProspectFor(k, ActualMap(CostRows(ps, t')), BudgetsIn(table, t'), draft)
  {
    ActualIsSpent(ps, t, companyId, k);
    ActualIsSpent(ps, t', companyId, k);
    BudgetOfPair(table, t, t', companyId, k);
  }

  lemma AdvisoryCarriesOver(ps: seq<Posting>, table: seq<Budget>, companyId: Id, lines: seq<DraftLine>,
          lines': seq<DraftLine>,
                            results: seq<Prospect>, results': seq<Prospect>, r: Prospect)
    requires multiset(lines) == multiset(lines') && r in results
    requires IsCheck(results, ps, table, companyId, lines) && IsCheck(results', ps, table, companyId, lines')
    ensures r in results'
  {
    var ks, ks' := FirstSeen(lines), FirstSeen(lines');
    var i :| 0 <= i < |results| && results[i] == r;
    var k := ks[i];
    SamePairsSeen(lines, lines');
    assert k in ks;
    var j :| 0 <= j < |ks'| && ks'[j] == k;
    CheckCovers(companyId, ks, k);
    CheckCovers(companyId, ks', k);
    DraftOfPermuted(lines, lines', k);
    SameAdvice(ps, table, companyId, CheckScope(companyId, ProjectsOf(ks)), CheckScope(companyId, ProjectsOf(ks')), k,
               DraftOf(lines, k));
    assert results'[j] == r;
  }
}
