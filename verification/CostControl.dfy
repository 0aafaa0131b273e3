/**
 Budget versus actual, computed twice: by cost control for its own pages and by the reports module for its variance
 report. The two carry the project filter differently and share only the classification.
 */
module CostControl {
  import opened Prelude
  import opened Sums
  import opened Sorting
  import opened JournalStore
  import opened Statements
  import opened CostPolicy

  datatype Pair = Pair(projectId: Id, costCentreId: Id)

  /** project_budget. */
  datatype Budget = Budget(companyId: Id, pair: Pair, amount: int)

  datatype Actor = Actor(companyId: Id, isUnscoped: bool, assignedProjectIds: seq<Id>)

  /** What a caller may ask for; dates are day numbers. */
  datatype CostFilter = CostFilter(financialYearId: Option<Id>, projectId: Option<Id>, costCentreId: Option<Id>,
                                   dateFrom: Option<int>, dateTo: Option<int>)

  /** Cost control's scope: a project filter and, for project-scoped actors, the list they are assigned to. */
  datatype CostScope = CostScope(companyId: Id, filter: CostFilter, assignedProjectIds: Option<seq<Id>>)

  /** The reports module's scope: one resolved project list, None for all projects. */
  datatype VarianceScope = VarianceScope(companyId: Id, filter: CostFilter, projectIds: Option<seq<Id>>)

  // ---- scopes -------------------------------------------------------------------------------------------------------

  function ScopeOf(filter: CostFilter, actor: Actor): CostScope {
    CostScope(actor.companyId, filter, if actor.isUnscoped then None else Some(actor.assignedProjectIds))
  }

  datatype ScopeError = Forbidden

  /** ReportScopeService.resolve. */
  function Resolve(actor: Actor, projectId: Option<Id>): Result<Option<seq<Id>>, ScopeError> {
    if actor.isUnscoped then Ok(if projectId.Some? then Some([projectId.value]) else None)
    else if projectId.Some? then
      if projectId.value in actor.assignedProjectIds then Ok(Some([projectId.value])) else Err(Forbidden)
    else Ok(Some(actor.assignedProjectIds))
  }

  /** The cost-control controller lets the request through. */
  predicate Admitted(actor: Actor, projectId: Option<Id>) {
    projectId.Some? && !actor.isUnscoped ==> projectId.value in actor.assignedProjectIds
  }

  // ---- the two WHERE clauses --------------------------------------------------------------------------------------

  predicate WindowHolds(f: CostFilter, e: Entry) {
    && Wants(f.financialYearId, e.financialYearId)
    && (f.dateFrom.Some? ==> e.voucherDate >= f.dateFrom.value)
    && (f.dateTo.Some? ==> e.voucherDate <= f.dateTo.value)
  }

  /** An expense line tagged with a project and a cost centre. */
  predicate IsCost(p: Posting) {
    && p.account.Some? && p.account.value.kind == EXPENSE
    && p.line.projectId.Some? && p.line.costCentreId.Some?
  }

  predicate CostWhere(s: CostScope, p: Posting) {
    && p.entry.companyId == s.companyId && WindowHolds(s.filter, p.entry)
    && WantsTag(s.filter.projectId, p.line.projectId) && WantsTag(s.filter.costCentreId, p.line.costCentreId)
    && ProjectInScope(s.assignedProjectIds, p.line.projectId)
  }

  predicate VarianceWhere(s: VarianceScope, p: Posting) {
    && p.entry.companyId == s.companyId && WindowHolds(s.filter, p.entry)
    && WantsTag(s.filter.costCentreId, p.line.costCentreId) && ProjectInScope(s.projectIds, p.line.projectId)
  }

  predicate BudgetWhere(s: CostScope, b: Budget) {
    && b.companyId == s.companyId
    && Wants(s.filter.projectId, b.pair.projectId) && Wants(s.filter.costCentreId, b.pair.costCentreId)
    && (s.assignedProjectIds.Some? ==> b.pair.projectId in s.assignedProjectIds.value)
  }

  predicate VarianceBudgetWhere(s: VarianceScope, b: Budget) {
    && b.companyId == s.companyId && Wants(s.filter.costCentreId, b.pair.costCentreId)
    && (s.projectIds.Some? ==> b.pair.projectId in s.projectIds.value)
  }

  /** The company, year and date conjuncts of ledgerWhere. */
  method WindowConds(companyId: Id, f: CostFilter) returns (conds: seq<Cond>)
    ensures forall p, m :: MeetsAll(p, m, conds) <==> p.entry.companyId == companyId && WindowHolds(f, p.entry)
  {
    conds := Push([], CompanyIs(companyId));
    if f.financialYearId.Some? { conds := Push(conds, YearIs(f.financialYearId.value)); }
    if f.dateFrom.Some? { conds := Push(conds, From(f.dateFrom.value)); }
    if f.dateTo.Some? { conds := Push(conds, UpTo(f.dateTo.value)); }
  }

  /** ledgerWhere: the conjuncts pushed for a scope hold of exactly the postings in it. */
  method LedgerWhere(s: CostScope) returns (conds: seq<Cond>)
    ensures forall p, m :: MeetsAll(p, m, conds) <==> CostWhere(s, p)
  {
    var f := s.filter;
    conds := WindowConds(s.companyId, f);
    if f.projectId.Some? { conds := Push(conds, ProjectAmong([f.projectId.value])); }
    if f.costCentreId.Some? { conds := Push(conds, CostCentreIs(f.costCentreId.value)); }
    if s.assignedProjectIds.Some? { conds := Push(conds, ProjectAmong(s.assignedProjectIds.value)); }
  }

  // ---- the grouped maps -------------------------------------------------------------------------------------------

  function PairOf(p: Posting): Option<Pair> {
    if p.line.projectId.Some? && p.line.costCentreId.Some?
    then Some(Pair(p.line.projectId.value, p.line.costCentreId.value))
    else None
  }

  function CostRows(ps: seq<Posting>, s: CostScope): seq<Posting> {
    Filter(ps, (p: Posting) => IsCost(p) && CostWhere(s, p))
  }

  function VarianceRows(ps: seq<Posting>, s: VarianceScope): seq<Posting> {
    Filter(ps, (p: Posting) => IsCost(p) && VarianceWhere(s, p))
  }

  function PairsIn(rows: seq<Posting>): set<Pair> {
    set p | p in rows && PairOf(p).Some? :: PairOf(p).value
  }

  /** SUM(debit - credit) per pair that has a row. */
  function ActualMap(rows: seq<Posting>): map<Pair, int> {
    map k | k in PairsIn(rows) :: GroupSum(rows, PairOf, Some(k), Net)
  }

  /** Filled with map.set row by row: the last row of a pair would win. */
  function BudgetMap(bs: seq<Budget>): map<Pair, int> {
    if bs == [] then map[] else BudgetMap(bs[..|bs| - 1])[bs[|bs| - 1].pair := bs[|bs| - 1].amount]
  }

  function BudgetsIn(table: seq<Budget>, s: CostScope): map<Pair,
          int> { BudgetMap(Filter(table, (b: Budget) => BudgetWhere(s, b))) }

  function VarianceBudgetsIn(table: seq<Budget>, s: VarianceScope): map<Pair, int> {
    BudgetMap(Filter(table, (b: Budget) => VarianceBudgetWhere(s, b)))
  }

  method BudgetsByPair(table: seq<Budget>, s: CostScope) returns (m: map<Pair, int>)
    ensures m == BudgetsIn(table, s)
  {
    var rows := Filter(table, (b: Budget) => BudgetWhere(s, b));
    m := FillBudgets(rows);
  }

  method FillBudgets(rows: seq<Budget>) returns (m: map<Pair, int>)
    ensures m == BudgetMap(rows)
  {
    m := map[];
    var i := 0;
    assert rows[..0] == [];
    while i < |rows|
      invariant 0 <= i <= |rows| && m == BudgetMap(rows[..i])
    {
      m := m[rows[i].pair := rows[i].amount];
      assert rows[..i + 1][..i] == rows[..i];
      i := i + 1;
    }
    assert rows[..i] == rows;
  }

  // ---- the report -------------------------------------------------------------------------------------------------

  datatype CostRow = CostRow(pair: Pair, budgeted: Option<int>, actual: int, variance: Option<int>,
                             utilisation: Option<Decimal>, status: Status)

  function Lookup(m: map<Pair, int>, k: Pair): Option<int> { if k in m then Some(m[k]) else None }

  function RowFor(k: Pair, budgeted: Option<int>, actual: int): CostRow {
    var (status, utilisation) := Classify(budgeted, actual);
    CostRow(k, budgeted, actual, if budgeted.Some? then Some(budgeted.value - actual) else None, utilisation, status)
  }

  function RowOf(actuals: map<Pair, int>, budgets: map<Pair, int>, k: Pair): CostRow {
    RowFor(k, Lookup(budgets, k), if k in actuals then actuals[k] else 0)
  }

  predicate PairLess(a: Pair, b: Pair) {
    a.projectId < b.projectId || (a.projectId == b.projectId && a.costCentreId < b.costCentreId)
  }

  predicate RowBefore(a: CostRow, b: CostRow) { PairLess(a.pair, b.pair) }

  /** One row per pair that has a cost or a budget, in order of project, then cost centre. */
  ghost predicate IsReport(rows: seq<CostRow>, actuals: map<Pair, int>, budgets: map<Pair, int>) {
    && Ascending(rows, RowBefore)
    && forall r :: r in rows <==> (r.pair in actuals || r.pair in budgets) && r == RowOf(actuals, budgets, r.pair)
  }

  /** The report is determined by the two maps. */
  lemma ReportIsUnique(rows: seq<CostRow>, rows': seq<CostRow>, actuals: map<Pair, int>, budgets: map<Pair, int>)
    requires IsReport(rows, actuals, budgets) && IsReport(rows', actuals, budgets)
    ensures rows == rows'
  {
    AscendingIsUnique(rows, rows', RowBefore);
  }

  /** Rows pushed for the keys in any order, then sorted. */
  method ClassifyPairs(actuals: map<Pair, int>, budgets: map<Pair, int>) returns (rows: seq<CostRow>)
    ensures IsReport(rows, actuals, budgets)
  {
    var keys := actuals.Keys + budgets.Keys;
    rows := [];
    while keys != {}
      invariant keys <= actuals.Keys + budgets.Keys
      invariant forall r :: r in rows <==>
                  r.pair in actuals.Keys + budgets.Keys && r.pair !in keys && r == RowOf(actuals, budgets, r.pair)
      invariant forall i, j :: 0 <= i < j < |rows| ==> rows[i].pair != rows[j].pair
      decreases |keys|
    {
      var key :| key in keys;
      var actual := if key in actuals then actuals[key] else 0;
      var row := RowFor(key, Lookup(budgets, key), actual);
      assert forall i :: 0 <= i < |rows| ==> rows[i] in rows;
      rows := rows + [row];
      keys := keys - {key};
    }
    SortAscending(rows, RowBefore);
    rows := Sort(rows, RowBefore);
  }

  method ComputeBudgetVsActual(ps: seq<Posting>, table: seq<Budget>, s: CostScope) returns (rows: seq<CostRow>)
    ensures IsReport(rows, ActualMap(CostRows(ps, s)), BudgetsIn(table, s))
  {
    var actuals := ActualMap(CostRows(ps, s));
    var budgets := BudgetsByPair(table, s);
    rows := ClassifyPairs(actuals, budgets);
  }

  /** CostControlReadAdapter.budgetVsActual: an empty project list is answered without a query. */
  method BudgetVsActual(ps: seq<Posting>, table: seq<Budget>, s: VarianceScope) returns (rows: seq<CostRow>)
    ensures s.projectIds == Some([]) ==> rows == []
    ensures s.projectIds != Some([]) ==>
              IsReport(rows, ActualMap(VarianceRows(ps, s)), VarianceBudgetsIn(table, s))
  {
    if s.projectIds.Some? && |s.projectIds.value| == 0 {
      return [];
    }
    var actuals := ActualMap(VarianceRows(ps, s));
    var budgets := FillBudgets(Filter(table, (b: Budget) => VarianceBudgetWhere(s, b)));
    rows := ClassifyPairs(actuals, budgets);
  }

  // ---- the two agree ----------------------------------------------------------------------------------------------

  /** The two admit the same requests: resolving fails exactly when the cost-control controller refuses. */
  lemma SameAdmission(actor: Actor, projectId: Option<Id>)
    ensures Resolve(actor, projectId).Ok? <==> Admitted(actor, projectId)
  {
  }

  lemma SameFilters(ps: seq<Posting>, table: seq<Budget>, actor: Actor, filter: CostFilter)
    requires Admitted(actor, filter.projectId)
    ensures (var s := ScopeOf(filter, actor);
             var v := VarianceScope(actor.companyId, filter, Resolve(actor, filter.projectId).value);
             && CostRows(ps, s) == VarianceRows(ps, v)
             && Filter(table, (b: Budget) => BudgetWhere(s, b))
                == Filter(table, (b: Budget) => VarianceBudgetWhere(v, b)))
  {
    var s, v := ScopeOf(filter, actor), VarianceScope(actor.companyId, filter, Resolve(actor, filter.projectId).value);
    FilterCong(ps, (p: Posting) => IsCost(p) && CostWhere(s, p), (p: Posting) => IsCost(p) && VarianceWhere(v, p));
    FilterCong(table, (b: Budget) => BudgetWhere(s, b), (b: Budget) => VarianceBudgetWhere(v, b));
  }

  lemma EmptyListSelectsNothing(ps: seq<Posting>, table: seq<Budget>, v: VarianceScope)
    requires v.projectIds == Some([])
    ensures VarianceRows(ps, v) == [] && Filter(table, (b: Budget) => VarianceBudgetWhere(v, b)) == []
  {
    NoMembers(VarianceRows(ps, v));
    NoMembers(Filter(table, (b: Budget) => VarianceBudgetWhere(v, b)));
  }

  /** What the reports module's method promises of its result. */
  ghost predicate IsVarianceReport(rows: seq<CostRow>, ps: seq<Posting>, table: seq<Budget>, v: VarianceScope) {
    && (v.projectIds == Some([]) ==> rows == [])
    && (v.projectIds != Some([]) ==>
          IsReport(rows, ActualMap(VarianceRows(ps, v)), VarianceBudgetsIn(table, v)))
  }

  /**
   For every ledger, budget table, filter and admitted actor, cost control and the reports module produce the same
   rows in the same order.
   */
  lemma TwinsAgree(ps: seq<Posting>, table: seq<Budget>, actor: Actor, filter: CostFilter, own: seq<CostRow>,
          report: seq<CostRow>)
    requires Admitted(actor, filter.projectId)
    requires (var s := ScopeOf(filter, actor);
              IsReport(own, ActualMap(CostRows(ps, s)), BudgetsIn(table, s)))
    requires IsVarianceReport(report, ps, table,
                              VarianceScope(actor.companyId, filter, Resolve(actor, filter.projectId).value))
    ensures own == report
  {
    var v := VarianceScope(actor.companyId, filter, Resolve(actor, filter.projectId).value);
    SameFilters(ps, table, actor, filter);
    if v.projectIds == Some([]) {
      EmptyListSelectsNothing(ps, table, v);
      assert PairsIn([]) == {};
      NoMembers(own);
    } else {
      ReportIsUnique(own, report, ActualMap(VarianceRows(ps, v)), VarianceBudgetsIn(table, v));
    }
  }

  // ---- alerts -----------------------------------------------------------------------------------------------------

  /** The rows whose status is among the wanted ones (OVER and APPROACHING unless the caller narrows it). */
  function Alerts(rows: seq<CostRow>, wanted: set<Status>): seq<CostRow> {
    Filter(rows, (r: CostRow) => r.status in wanted)
  }

  /**
   The alert feed lists exactly the pairs with a positive budget of which nine tenths or more are used, on exact
   amounts, and each as over budget exactly when the whole budget is.
   */
  lemma AlertsAreExact(rows: seq<CostRow>, actuals: map<Pair, int>, budgets: map<Pair, int>, k: Pair)
    requires IsReport(rows, actuals, budgets) && forall b <- budgets.Values :: FitsNumeric(b)
    ensures (var actual := if k in actuals then actuals[k] else 0;
             && ((exists r :: r in Alerts(rows, {OVER, APPROACHING}) && r.pair == k)
                 <==> k in budgets && budgets[k] > 0 && 10 * actual >= 9 * budgets[k])
             && ((exists r :: r in Alerts(rows, {OVER}) && r.pair == k)
                 <==> k in budgets && budgets[k] > 0 && actual >= budgets[k]))
  {
    var actual := if k in actuals then actuals[k] else 0;
    if k in budgets { assert budgets[k] in budgets.Values; }
    ClassifyIsExact(Lookup(budgets, k), actual);
    var row := RowOf(actuals, budgets, k);
    assert row.status == ExactStatus(Lookup(budgets, k), actual) && row.pair == k;
    assert row in rows <==> k in actuals || k in budgets;
    forall r | r in rows && r.pair == k ensures r == row {}
  }
}
