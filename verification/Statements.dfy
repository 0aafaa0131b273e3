/**
 The ledger reports of the reports module that are filters, groupings and sums over journal lines: trial balance,
 profit and loss, balance sheet. Each is read off the committed rows of JournalStore under a scope.
 */
module Statements {
  import opened Prelude
  import opened Sums
  import opened Grouping
  import opened JournalStore

  // ---- master data and joined rows ----------------------------------------------------------------

  datatype AccountType = ASSET | LIABILITY | EQUITY | INCOME | EXPENSE

  datatype Account = Account(companyId: Id, code: string, kind: AccountType, groupId: Id)

  datatype AccountGroup = AccountGroup(name: string, kind: AccountType)

  datatype Masters = Masters(accounts: map<Id, Account>, groups: map<Id, AccountGroup>, periodEnds: map<Id, int>)

  /** account.account_group_id is a foreign key; journal_line.account_id is not. */
  ghost predicate MastersOk(m: Masters) {
    forall a <- m.accounts :: m.accounts[a].groupId in m.groups
  }

  /** journal_line joined with its entry and, where they exist, its account and account group. */
  datatype Posting = Posting(entry: Entry, line: Line, account: Option<Account>, group: Option<AccountGroup>)

  function FindEntry(entries: seq<Entry>, id: Id): (r: Option<Entry>)
    ensures r.Some? ==> r.value in entries && r.value.id == id
    ensures r.None? ==> forall e <- entries :: e.id != id
  {
    if entries == [] then None
    else if entries[0].id == id then Some(entries[0])
    else FindEntry(entries[1..], id)
  }

  function Joined(e: Entry, l: Line, m: Masters): Posting {
    var account := if l.accountId in m.accounts then Some(m.accounts[l.accountId]) else None;
    var group := if account.Some? && account.value.groupId in m.groups
                 then Some(m.groups[account.value.groupId]) else None;
    Posting(e, l, account, group)
  }

  function Join(lines: seq<Line>, entries: seq<Entry>, m: Masters): (ps: seq<Posting>)
    ensures forall p <- ps :: p.entry in entries && p.line in lines && p.line.entryId == p.entry.id
    ensures forall p <- ps :: p == Joined(p.entry, p.line, m)
  {
    if lines == [] then []
    else match FindEntry(entries, lines[0].entryId)
         case None => Join(lines[1..], entries, m)
         case Some(e) => [Joined(e, lines[0], m)] + Join(lines[1..], entries, m)
  }

  function Postings(r: Rows, m: Masters): seq<Posting> { Join(r.lines, r.entries, m) }

  function DebitP(p: Posting): int { p.line.debit }
  function CreditP(p: Posting): int { p.line.credit }
  function Net(p: Posting): int { p.line.debit - p.line.credit }

  // ---- the shared WHERE clause ----------------------------------------------------------------------

  /** projectIds: None is "all projects", Some([]) is "none". Dates are day numbers. */
  datatype Scope = Scope(companyId: Id, financialYearId: Option<Id>, projectIds: Option<seq<Id>>,
                         costCentreId: Option<Id>, purposeId: Option<Id>, godownId: Option<Id>, partyId: Option<Id>,
                         accountId: Option<Id>, dateFrom: Option<int>, dateTo: Option<int>, periodId: Option<Id>,
                         asOf: Option<int>, voucherType: Option<string>)

  predicate Wants<T(==)>(wanted: Option<T>, actual: T) {
    wanted.Some? ==> wanted.value == actual
  }

  predicate DateInScope(scope: Scope, balanceMode: bool, m: Masters, date: int) {
    if balanceMode && scope.periodId.Some? then
      scope.periodId.value in m.periodEnds && date <= m.periodEnds[scope.periodId.value]
    else if balanceMode && scope.asOf.Some? then date <= scope.asOf.value
    else (scope.dateFrom.Some? ==> date >= scope.dateFrom.value) && (scope.dateTo.Some? ==> date <= scope.dateTo.value)
  }

  /** The filters on columns of journal_entry: they keep or drop an entry as a whole. */
  predicate EntryInScope(scope: Scope, balanceMode: bool, m: Masters, e: Entry) {
    && e.companyId == scope.companyId
    && Wants(scope.financialYearId, e.financialYearId)
    && DateInScope(scope, balanceMode, m, e.voucherDate)
    && Wants(scope.voucherType, e.voucherType)
  }

  predicate WantsTag(wanted: Option<Id>, tag: Option<Id>) {
    wanted.Some? ==> tag == wanted
  }

  predicate ProjectInScope(projectIds: Option<seq<Id>>, tag: Option<Id>) {
    projectIds.Some? ==> tag.Some? && tag.value in projectIds.value
  }

  /** The filters on columns of journal_line: they may split an entry. A NULL tag equals nothing. */
  predicate LineInScope(scope: Scope, l: Line) {
    Wants(scope.accountId, l.accountId) && TagsInScope(scope, l) && ProjectInScope(scope.projectIds, l.projectId)
  }

  predicate TagsInScope(scope: Scope, l: Line) {
    && WantsTag(scope.costCentreId, l.costCentreId)
    && WantsTag(scope.purposeId, l.purposeId)
    && WantsTag(scope.godownId, l.godownId)
    && WantsTag(scope.partyId, l.partyId)
  }

  predicate InScope(scope: Scope, balanceMode: bool, m: Masters, p: Posting) {
    EntryInScope(scope, balanceMode, m, p.entry) && LineInScope(scope, p.line)
  }

  function Selected(ps: seq<Posting>, scope: Scope, balanceMode: bool, m: Masters): seq<Posting> {
    Filter(ps, p => InScope(scope, balanceMode, m, p))
  }

  /** One conjunct of the WHERE clause. */
  datatype Cond =
    | CompanyIs(id: Id) | YearIs(id: Id) | UpToPeriodEnd(id: Id) | UpTo(date: int) | From(date: int)
    | VoucherTypeIs(voucherType: string) | AccountIs(id: Id) | CostCentreIs(id: Id) | PurposeIs(id: Id)
    | GodownIs(id: Id) | PartyIs(id: Id) | Nothing | ProjectAmong(ids: seq<Id>)

  predicate Meets(p: Posting, m: Masters, c: Cond) {
    match c
    case CompanyIs(id) => p.entry.companyId == id
    case YearIs(id) => p.entry.financialYearId == id
    case UpToPeriodEnd(id) => id in m.periodEnds && p.entry.voucherDate <= m.periodEnds[id]
    case UpTo(d) => p.entry.voucherDate <= d
    case From(d) => p.entry.voucherDate >= d
    case VoucherTypeIs(v) => p.entry.voucherType == v
    case AccountIs(id) => p.line.accountId == id
    case CostCentreIs(id) => p.line.costCentreId == Some(id)
    case PurposeIs(id) => p.line.purposeId == Some(id)
    case GodownIs(id) => p.line.godownId == Some(id)
    case PartyIs(id) => p.line.partyId == Some(id)
    case Nothing => false
    case ProjectAmong(ids) => p.line.projectId.Some? && p.line.projectId.value in ids
  }

  predicate MeetsAll(p: Posting, m: Masters, conds: seq<Cond>) {
    forall i :: 0 <= i < |conds| ==> Meets(p, m, conds[i])
  }

  lemma MeetsAllPush(p: Posting, m: Masters, conds: seq<Cond>, c: Cond)
    ensures MeetsAll(p, m, conds + [c]) <==> MeetsAll(p, m, conds) && Meets(p, m, c)
  {
    assert (conds + [c])[|conds|] == c;
    assert forall i :: 0 <= i < |conds| ==> (conds + [c])[i] == conds[i];
  }

  method Push(conds: seq<Cond>, c: Cond) returns (longer: seq<Cond>)
    ensures longer == conds + [c]
    ensures forall p, m :: MeetsAll(p, m, longer) <==> MeetsAll(p, m, conds) && Meets(p, m, c)
  {
    longer := conds + [c];
    forall p, m ensures MeetsAll(p, m, longer) <==> MeetsAll(p, m, conds) && Meets(p, m, c) {
      MeetsAllPush(p, m, conds, c);
    }
  }

  /** The entry half of `cond`: company, year, dates (as-of wins on balance reports) and voucher type. */
  method EntryConds(scope: Scope, balanceMode: bool) returns (conds: seq<Cond>)
    ensures forall p, m :: MeetsAll(p, m, conds) <==> EntryInScope(scope, balanceMode, m, p.entry)
  {
    conds := Push([], CompanyIs(scope.companyId));
    if scope.financialYearId.Some? { conds := Push(conds, YearIs(scope.financialYearId.value)); }
    if balanceMode && scope.periodId.Some? {
      conds := Push(conds, UpToPeriodEnd(scope.periodId.value));
    } else if balanceMode && scope.asOf.Some? {
      conds := Push(conds, UpTo(scope.asOf.value));
    } else {
      if scope.dateFrom.Some? { conds := Push(conds, From(scope.dateFrom.value)); }
      if scope.dateTo.Some? { conds := Push(conds, UpTo(scope.dateTo.value)); }
    }
    if scope.voucherType.Some? { conds := Push(conds, VoucherTypeIs(scope.voucherType.value)); }
  }

  /** `projectClause`: no conjunct for all projects, one that nothing meets for an empty list. */
  method ProjectClause(projectIds: Option<seq<Id>>, conds: seq<Cond>) returns (longer: seq<Cond>)
    ensures forall p, m ::
              MeetsAll(p, m, longer) <==> MeetsAll(p, m, conds) && ProjectInScope(projectIds, p.line.projectId)
  {
    if projectIds.None? { return conds; }
    longer := Push(conds, if projectIds.value == [] then Nothing else ProjectAmong(projectIds.value));
  }

  /** The conjuncts on the line's optional tags. */
  method TagConds(scope: Scope, conds: seq<Cond>) returns (longer: seq<Cond>)
    ensures forall p, m :: MeetsAll(p, m, longer) <==> MeetsAll(p, m, conds) && TagsInScope(scope, p.line)
  {
    longer := conds;
    if scope.costCentreId.Some? { longer := Push(longer, CostCentreIs(scope.costCentreId.value)); }
    if scope.purposeId.Some? { longer := Push(longer, PurposeIs(scope.purposeId.value)); }
    if scope.godownId.Some? { longer := Push(longer, GodownIs(scope.godownId.value)); }
    if scope.partyId.Some? { longer := Push(longer, PartyIs(scope.partyId.value)); }
  }

  /** `cond` with `projectClause`: the conjuncts pushed for a scope select exactly the postings in that scope. */
  method Conds(scope: Scope, balanceMode: bool) returns (conds: seq<Cond>)
    ensures forall p, m :: MeetsAll(p, m, conds) <==> InScope(scope, balanceMode, m, p)
  {
    conds := EntryConds(scope, balanceMode);
    if scope.accountId.Some? { conds := Push(conds, AccountIs(scope.accountId.value)); }
    conds := TagConds(scope, conds);
    conds := ProjectClause(scope.projectIds, conds);
  }

  // ---- grouping columns -----------------------------------------------------------------------------

  datatype ReportError = UnknownGroupToken(token: string) | EmptyGroupBy

  type Key = seq<Option<Id>>

  const GROUP_TOKENS := ["account", "project", "cost_centre", "purpose", "godown", "party"]
  const PNL_GROUP_TOKENS := ["project", "cost_centre"]

  function ColumnOf(token: string, l: Line): Option<Id> {
    if token == "account" then Some(l.accountId)
    else if token == "project" then l.projectId
    else if token == "cost_centre" then l.costCentreId
    else if token == "purpose" then l.purposeId
    else if token == "godown" then l.godownId
    else if token == "party" then l.partyId
    else None
  }

  function KeyOf(tokens: seq<string>, p: Posting): (k: Key)
    ensures |k| == |tokens| && forall i :: 0 <= i < |tokens| ==> k[i] == ColumnOf(tokens[i], p.line)
  {
    seq(|tokens|, i requires 0 <= i < |tokens| => ColumnOf(tokens[i], p.line))
  }

  /** ORDER BY on one column: ascending, NULL last. */
  predicate ColumnLess(a: Option<Id>, b: Option<Id>) {
    a.Some? && (b.None? || a.value < b.value)
  }

  predicate KeyLess(a: Key, b: Key) {
    b != [] && (a == [] || ColumnLess(a[0], b[0]) || (a[0] == b[0] && KeyLess(a[1..], b[1..])))
  }

  lemma {:induction false} KeyLessIrreflexive(a: Key)
    ensures !KeyLess(a, a)
  {
    if a != [] { KeyLessIrreflexive(a[1..]); }
  }

  lemma {:induction false} KeyLessTransitive(a: Key, b: Key, c: Key)
    requires KeyLess(a, b) && KeyLess(b, c)
    ensures KeyLess(a, c)
  {
    if a != [] && a[0] == b[0] == c[0] { KeyLessTransitive(a[1..], b[1..], c[1..]); }
  }

  lemma {:induction false} KeyLessTotal(a: Key, b: Key)
    ensures a == b || KeyLess(a, b) || KeyLess(b, a)
  {
    if a != [] && b != [] && a[0] == b[0] {
      KeyLessTotal(a[1..], b[1..]);
      assert a == [a[0]] + a[1..] && b == [b[0]] + b[1..];
    }
  }

  lemma KeyLessIsStrictOrder()
    ensures StrictOrder(KeyLess)
  {
    forall a ensures !KeyLess(a, a) { KeyLessIrreflexive(a); }
    forall a, b, c | KeyLess(a, b) && KeyLess(b, c) ensures KeyLess(a, c) { KeyLessTransitive(a, b, c); }
    forall a, b ensures a == b || KeyLess(a, b) || KeyLess(b, a) { KeyLessTotal(a, b); }
  }

  function FirstUnknown(tokens: seq<string>, allowed: seq<string>): Option<string> {
    if tokens == [] then None
    else if tokens[0] !in allowed then Some(tokens[0])
    else FirstUnknown(tokens[1..], allowed)
  }

  /** Token validation, and the SQL error an empty GROUP BY list gives. */
  function GroupError(tokens: seq<string>, allowed: seq<string>): Option<ReportError> {
    match FirstUnknown(tokens, allowed)
    case Some(t) => Some(UnknownGroupToken(t))
    case None => if tokens == [] then Some(EmptyGroupBy) else None
  }

  // ---- trial balance --------------------------------------------------------------------------------

  datatype TrialBalanceRow = TrialBalanceRow(key: Key, debit: int, credit: int, net: int)
  datatype TrialBalance = TrialBalance(rows: seq<TrialBalanceRow>, debit: int, credit: int)

  function TrialBalanceRows(sel: seq<Posting>, tokens: seq<string>, ks: seq<Key>): (rows: seq<TrialBalanceRow>)
    ensures |rows| == |ks|
  {
    if ks == [] then []
    else
      var key := p => KeyOf(tokens, p);
      var dr, cr := GroupSum(sel, key, ks[0], DebitP), GroupSum(sel, key, ks[0], CreditP);
      [TrialBalanceRow(ks[0], dr, cr, dr - cr)] + TrialBalanceRows(sel, tokens, ks[1..])
  }

  function TrialBalanceReport(ps: seq<Posting>, scope: Scope, tokens: seq<string>, m: Masters): Result<TrialBalance,
          ReportError> {
    match GroupError(tokens, GROUP_TOKENS)
    case Some(e) => Err(e)
    case None =>
      var sel := Selected(ps, scope, true, m);
      var ks := KeysOf(sel, p => KeyOf(tokens, p), KeyLess);
      Ok(TrialBalance(TrialBalanceRows(sel, tokens, ks), Sum(sel, DebitP), Sum(sel, CreditP)))
  }

  function RowDebit(r: TrialBalanceRow): int { r.debit }
  function RowCredit(r: TrialBalanceRow): int { r.credit }
  function RowNet(r: TrialBalanceRow): int { r.net }

  lemma {:induction false} TrialBalanceRowSums(sel: seq<Posting>, tokens: seq<string>, ks: seq<Key>,
          key: Posting -> Key)
    requires forall p: Posting :: key(p) == KeyOf(tokens, p)
    ensures Sum(TrialBalanceRows(sel, tokens, ks), RowDebit) == SumOfGroups(ks, sel, key, DebitP)
    ensures Sum(TrialBalanceRows(sel, tokens, ks), RowCredit) == SumOfGroups(ks, sel, key, CreditP)
    ensures Sum(TrialBalanceRows(sel, tokens, ks), RowNet)
         == SumOfGroups(ks, sel, key, DebitP) - SumOfGroups(ks, sel, key, CreditP)
  {
    if ks != [] {
      TrialBalanceRowSums(sel, tokens, ks[1..], key);
      var key' := p => KeyOf(tokens, p);
      GroupSumKeyCong(sel, key, key', ks[0], DebitP);
      GroupSumKeyCong(sel, key, key', ks[0], CreditP);
      assert TrialBalanceRows(sel, tokens, ks)[1..] == TrialBalanceRows(sel, tokens, ks[1..]);
    }
  }

  lemma {:induction false} GroupSumKeyCong<K>(xs: seq<Posting>,
          key: Posting -> K, key': Posting -> K, k: K, f: Posting -> int)
    requires forall p <- xs :: key(p) == key'(p)
    ensures GroupSum(xs, key, k, f) == GroupSum(xs, key', k, f)
  {
    if xs != [] { GroupSumKeyCong(xs[1..], key, key', k, f); }
  }

  /** For every scope and every accepted grouping, the trial-balance rows add up to the totals. */
  lemma TrialBalanceRowsAddUp(ps: seq<Posting>, scope: Scope, tokens: seq<string>, m: Masters)
    requires TrialBalanceReport(ps, scope, tokens, m).Ok?
    ensures var tb := TrialBalanceReport(ps, scope, tokens, m).value;
      && Sum(tb.rows, RowDebit) == tb.debit && Sum(tb.rows, RowCredit) == tb.credit
      && Sum(tb.rows, RowNet) == tb.debit - tb.credit
  {
    var sel := Selected(ps, scope, true, m);
    var key := p => KeyOf(tokens, p);
    KeyLessIsStrictOrder();
    GroupSumsMakeTotal(sel, key, KeyLess, DebitP);
    GroupSumsMakeTotal(sel, key, KeyLess, CreditP);
    TrialBalanceRowSums(sel, tokens, KeysOf(sel, key, KeyLess), key);
  }

  // ---- finer and coarser groupings ------------------------------------------------------------------

  function IndexOf(t: string, tokens: seq<string>): (i: nat)
    requires t in tokens
    ensures i < |tokens| && tokens[i] == t
  {
    if tokens[0] == t then 0 else 1 + IndexOf(t, tokens[1..])
  }

  /** The part of a fine key that the coarse grouping keeps. */
  function Coarsen(fine: seq<string>, coarse: seq<string>, k: Key): Key
    requires forall t <- coarse :: t in fine
  {
    if |k| != |fine| then []
    else seq(|coarse|, i requires 0 <= i < |coarse| => k[IndexOf(coarse[i], fine)])
  }

  function RowsBelow(rows: seq<TrialBalanceRow>, fine: seq<string>, coarse: seq<string>, c: Key): seq<TrialBalanceRow>
    requires forall t <- coarse :: t in fine
  {
    Filter(rows, (r: TrialBalanceRow) => Coarsen(fine, coarse, r.key) == c)
  }

  lemma {:induction false} RowsBelowSum(sel: seq<Posting>, fine: seq<string>, coarse: seq<string>, ks: seq<Key>, c: Key,
                                        key: Posting -> Key, coarsen: Key -> Key)
    requires forall t <- coarse :: t in fine
    requires forall p: Posting :: key(p) == KeyOf(fine, p)
    requires forall k: Key :: coarsen(k) == Coarsen(fine, coarse, k)
    ensures Sum(RowsBelow(TrialBalanceRows(sel, fine, ks), fine, coarse, c), RowDebit)
            == CoarseSum(ks, sel, key, coarsen, c, DebitP)
    ensures Sum(RowsBelow(TrialBalanceRows(sel, fine, ks), fine, coarse, c), RowCredit)
            == CoarseSum(ks, sel, key, coarsen, c, CreditP)
  {
    if ks != [] {
      RowsBelowSum(sel, fine, coarse, ks[1..], c, key, coarsen);
      var rows := TrialBalanceRows(sel, fine, ks);
      var key' := p => KeyOf(fine, p);
      GroupSumKeyCong(sel, key, key', ks[0], DebitP);
      GroupSumKeyCong(sel, key, key', ks[0], CreditP);
      assert rows[1..] == TrialBalanceRows(sel, fine, ks[1..]);
      var below := RowsBelow(rows[1..], fine, coarse, c);
      assert ([rows[0]] + below)[1..] == below;
    }
  }

  /**
   A finer trial balance re-aggregates to a coarser one of the same scope: the rows of the fine report whose key
   agrees with a coarse row add up to that coarse row.
   */
  lemma FineTrialBalanceReaggregates(ps: seq<Posting>, scope: Scope, fine: seq<string>, coarse: seq<string>,
          m: Masters, i: nat)
    requires forall t <- coarse :: t in fine
    requires TrialBalanceReport(ps, scope, fine, m).Ok? && TrialBalanceReport(ps, scope, coarse, m).Ok?
    requires i < |TrialBalanceReport(ps, scope, coarse, m).value.rows|
    ensures (var row := TrialBalanceReport(ps, scope, coarse, m).value.rows[i];
             var below := RowsBelow(TrialBalanceReport(ps, scope, fine, m).value.rows, fine, coarse, row.key);
             Sum(below, RowDebit) == row.debit && Sum(below, RowCredit) == row.credit)
  {
    var sel := Selected(ps, scope, true, m);
    var fineKey, coarseKey := p => KeyOf(fine, p), p => KeyOf(coarse, p);
    var coarsen := k => Coarsen(fine, coarse, k);
    var ks, cs := KeysOf(sel, fineKey, KeyLess), KeysOf(sel, coarseKey, KeyLess);
    KeyLessIsStrictOrder();
    KeysOfIsSortedKeySet(sel, fineKey, KeyLess);
    forall p | p in sel ensures fineKey(p) in ks && coarsen(fineKey(p)) == coarseKey(p) {
      assert Coarsen(fine, coarse, KeyOf(fine, p)) == KeyOf(coarse, p);
    }
    var row := TrialBalanceReport(ps, scope, coarse, m).value.rows[i];
    RowAt(sel, coarse, cs, i);
    RowsBelowSum(sel, fine, coarse, ks, row.key, fineKey, coarsen);
    FineGroupsReaggregate(ks, sel, fineKey, coarseKey, coarsen, row.key, DebitP);
    FineGroupsReaggregate(ks, sel, fineKey, coarseKey, coarsen, row.key, CreditP);
  }

  lemma {:induction false} RowAt(sel: seq<Posting>, tokens: seq<string>, ks: seq<Key>, i: nat)
    requires i < |ks|
    ensures (var key := p => KeyOf(tokens, p);
             TrialBalanceRows(sel, tokens, ks)[i]
             == TrialBalanceRow(ks[i], GroupSum(sel, key, ks[i], DebitP), GroupSum(sel, key, ks[i], CreditP),
                                GroupSum(sel, key, ks[i], DebitP) - GroupSum(sel, key, ks[i], CreditP)))
  {
    if i > 0 { RowAt(sel, tokens, ks[1..], i - 1); }
  }

  // ---- profit and loss ------------------------------------------------------------------------------

  predicate IsIncomeOrExpense(p: Posting) {
    p.account.Some? && (p.account.value.kind == INCOME || p.account.value.kind == EXPENSE)
  }

  function Revenue(p: Posting): int {
    if p.account.Some? && p.account.value.kind == INCOME then p.line.credit - p.line.debit else 0
  }

  function Cost(p: Posting): int {
    if p.account.Some? && p.account.value.kind == EXPENSE then p.line.debit - p.line.credit else 0
  }

  datatype PnlRow = PnlRow(key: Key, revenue: int, cost: int, profit: int)
  datatype ProfitAndLoss = ProfitAndLoss(rows: seq<PnlRow>, revenue: int, cost: int, profit: int)

  function PnlRows(sel: seq<Posting>, tokens: seq<string>, ks: seq<Key>): (rows: seq<PnlRow>) {
    if ks == [] then []
    else
      var key := p => KeyOf(tokens, p);
      var rev, cost := GroupSum(sel, key, ks[0], Revenue), GroupSum(sel, key, ks[0], Cost);
      [PnlRow(ks[0], rev, cost, rev - cost)] + PnlRows(sel, tokens, ks[1..])
  }

  function PnlSelected(ps: seq<Posting>, scope: Scope, balanceMode: bool, m: Masters): seq<Posting> {
    Filter(Selected(ps, scope, balanceMode, m), IsIncomeOrExpense)
  }

  function ProfitAndLossReport(ps: seq<Posting>, scope: Scope, tokens: seq<string>,
          m: Masters): Result<ProfitAndLoss, ReportError> {
    match GroupError(tokens, PNL_GROUP_TOKENS)
    case Some(e) => Err(e)
    case None =>
      var sel := PnlSelected(ps, scope, false, m);
      var ks := KeysOf(sel, p => KeyOf(tokens, p), KeyLess);
      var rev, cost := Sum(sel, Revenue), Sum(sel, Cost);
      Ok(ProfitAndLoss(PnlRows(sel, tokens, ks), rev, cost, rev - cost))
  }

  function RowRevenue(r: PnlRow): int { r.revenue }
  function RowCost(r: PnlRow): int { r.cost }
  function RowProfit(r: PnlRow): int { r.profit }

  lemma {:induction false} PnlRowSums(sel: seq<Posting>, tokens: seq<string>, ks: seq<Key>, key: Posting -> Key)
    requires forall p: Posting :: key(p) == KeyOf(tokens, p)
    ensures Sum(PnlRows(sel, tokens, ks), RowRevenue) == SumOfGroups(ks, sel, key, Revenue)
    ensures Sum(PnlRows(sel, tokens, ks), RowCost) == SumOfGroups(ks, sel, key, Cost)
    ensures Sum(PnlRows(sel, tokens, ks), RowProfit)
            == SumOfGroups(ks, sel, key, Revenue) - SumOfGroups(ks, sel, key, Cost)
  {
    if ks != [] {
      PnlRowSums(sel, tokens, ks[1..], key);
      var key' := p => KeyOf(tokens, p);
      GroupSumKeyCong(sel, key, key', ks[0], Revenue);
      GroupSumKeyCong(sel, key, key', ks[0], Cost);
      assert PnlRows(sel, tokens, ks)[1..] == PnlRows(sel, tokens, ks[1..]);
    }
  }

  lemma ProfitAndLossRowsAddUp(ps: seq<Posting>, scope: Scope, tokens: seq<string>, m: Masters)
    requires ProfitAndLossReport(ps, scope, tokens, m).Ok?
    ensures (var pnl := ProfitAndLossReport(ps, scope, tokens, m).value;
             && Sum(pnl.rows, RowRevenue) == pnl.revenue && Sum(pnl.rows, RowCost) == pnl.cost
             && Sum(pnl.rows, RowProfit) == pnl.profit)
  {
    var sel := PnlSelected(ps, scope, false, m);
    var key := p => KeyOf(tokens, p);
    KeyLessIsStrictOrder();
    GroupSumsMakeTotal(sel, key, KeyLess, Revenue);
    GroupSumsMakeTotal(sel, key, KeyLess, Cost);
    PnlRowSums(sel, tokens, KeysOf(sel, key, KeyLess), key);
  }

  /** The rows of a finer P&L whose key agrees with a coarse key. */
  function PnlRowsBelow(rows: seq<PnlRow>, fine: seq<string>, coarse: seq<string>, c: Key): seq<PnlRow>
    requires forall t <- coarse :: t in fine
  {
    Filter(rows, (r: PnlRow) => Coarsen(fine, coarse, r.key) == c)
  }

  lemma {:induction false} PnlRowsBelowSum(sel: seq<Posting>, fine: seq<string>, coarse: seq<string>, ks: seq<Key>,
          c: Key, key: Posting -> Key, coarsen: Key -> Key)
    requires forall t <- coarse :: t in fine
    requires forall p: Posting :: key(p) == KeyOf(fine, p)
    requires forall k: Key :: coarsen(k) == Coarsen(fine, coarse, k)
    ensures Sum(PnlRowsBelow(PnlRows(sel, fine, ks), fine, coarse, c), RowRevenue)
            == CoarseSum(ks, sel, key, coarsen, c, Revenue)
    ensures Sum(PnlRowsBelow(PnlRows(sel, fine, ks), fine, coarse, c), RowCost)
            == CoarseSum(ks, sel, key, coarsen, c, Cost)
  {
    if ks != [] {
      PnlRowsBelowSum(sel, fine, coarse, ks[1..], c, key, coarsen);
      var rows := PnlRows(sel, fine, ks);
      var key' := p => KeyOf(fine, p);
      GroupSumKeyCong(sel, key, key', ks[0], Revenue);
      GroupSumKeyCong(sel, key, key', ks[0], Cost);
      assert rows[1..] == PnlRows(sel, fine, ks[1..]);
      var below := PnlRowsBelow(rows[1..], fine, coarse, c);
      assert ([rows[0]] + below)[1..] == below;
    }
  }

  lemma {:induction false} PnlRowsLength(sel: seq<Posting>, tokens: seq<string>, ks: seq<Key>)
    ensures |PnlRows(sel, tokens, ks)| == |ks|
  {
    if ks != [] { PnlRowsLength(sel, tokens, ks[1..]); }
  }

  lemma {:induction false} PnlRowAt(sel: seq<Posting>, tokens: seq<string>, ks: seq<Key>, i: nat)
    requires i < |ks| == |PnlRows(sel, tokens, ks)|
    ensures (var key := p => KeyOf(tokens, p);
             var rev, cost := GroupSum(sel, key, ks[i], Revenue), GroupSum(sel, key, ks[i], Cost);
             PnlRows(sel, tokens, ks)[i] == PnlRow(ks[i], rev, cost, rev - cost))
  {
    if i > 0 { PnlRowAt(sel, tokens, ks[1..], i - 1); }
  }

  /** A finer P&L re-aggregates to a coarser one: project and cost centre to project, say. */
  lemma FineProfitAndLossReaggregates(ps: seq<Posting>, scope: Scope, fine: seq<string>, coarse: seq<string>,
          m: Masters, i: nat)
    requires forall t <- coarse :: t in fine
    requires ProfitAndLossReport(ps, scope, fine, m).Ok? && ProfitAndLossReport(ps, scope, coarse, m).Ok?
    requires i < |ProfitAndLossReport(ps, scope, coarse, m).value.rows|
    ensures (var row := ProfitAndLossReport(ps, scope, coarse, m).value.rows[i];
             var below := PnlRowsBelow(ProfitAndLossReport(ps, scope, fine, m).value.rows, fine, coarse, row.key);
             && Sum(below, RowRevenue) == row.revenue && Sum(below, RowCost) == row.cost
             && Sum(below, RowRevenue) - Sum(below, RowCost) == row.profit)
  {
    var sel := PnlSelected(ps, scope, false, m);
    var fineKey, coarseKey := p => KeyOf(fine, p), p => KeyOf(coarse, p);
    var coarsen := k => Coarsen(fine, coarse, k);
    var ks, cs := KeysOf(sel, fineKey, KeyLess), KeysOf(sel, coarseKey, KeyLess);
    KeyLessIsStrictOrder();
    KeysOfIsSortedKeySet(sel, fineKey, KeyLess);
    forall p | p in sel ensures fineKey(p) in ks && coarsen(fineKey(p)) == coarseKey(p) {
      assert Coarsen(fine, coarse, KeyOf(fine, p)) == KeyOf(coarse, p);
    }
    PnlRowsLength(sel, coarse, cs);
    PnlRowAt(sel, coarse, cs, i);
    var c := cs[i];
    PnlRowsBelowSum(sel, fine, coarse, ks, c, fineKey, coarsen);
    FineGroupsReaggregate(ks, sel, fineKey, coarseKey, coarsen, c, Revenue);
    FineGroupsReaggregate(ks, sel, fineKey, coarseKey, coarsen, c, Cost);
  }

  /** Project P&L: the cost-centre rows of the P&L, then one total row carrying the P&L totals. */
  function ProjectPnl(ps: seq<Posting>, scope: Scope, m: Masters): (rows: seq<PnlRow>)
    ensures |rows| > 0
  {
    var pnl := ProfitAndLossReport(ps, scope, ["cost_centre"], m);
    assert FirstUnknown(["cost_centre"], PNL_GROUP_TOKENS) == FirstUnknown(["cost_centre"][1..], PNL_GROUP_TOKENS);
    pnl.value.rows + [PnlRow([None], pnl.value.revenue, pnl.value.cost, pnl.value.profit)]
  }

  /** The total row of a project P&L is the sum of the cost-centre rows above it, in every column. */
  lemma ProjectPnlTotalRow(ps: seq<Posting>, scope: Scope, m: Masters)
    ensures (var rows := ProjectPnl(ps, scope, m);
             var total, parts := rows[|rows| - 1], rows[..|rows| - 1];
             && total.revenue == Sum(parts, RowRevenue) && total.cost == Sum(parts, RowCost)
             && total.profit == Sum(parts, RowProfit) == total.revenue - total.cost)
  {
    var rows := ProjectPnl(ps, scope, m);
    assert FirstUnknown(["cost_centre"], PNL_GROUP_TOKENS) == FirstUnknown(["cost_centre"][1..], PNL_GROUP_TOKENS);
    assert rows[..|rows| - 1] == ProfitAndLossReport(ps, scope, ["cost_centre"], m).value.rows;
    ProfitAndLossRowsAddUp(ps, scope, ["cost_centre"], m);
  }

  // ---- balance sheet --------------------------------------------------------------------------------

  predicate IsBalanceSheetPosting(p: Posting) {
    p.account.Some? && p.group.Some? && !IsIncomeOrExpense(p)
  }

  predicate InAssetGroup(p: Posting) { p.group.Some? && p.group.value.kind == ASSET }
  predicate InLiabilityGroup(p: Posting) { p.group.Some? && p.group.value.kind == LIABILITY }
  predicate InOtherGroup(p: Posting) { !InAssetGroup(p) && !InLiabilityGroup(p) }

  /** A line's effect on its group's balance: debit-positive for asset groups, credit-positive otherwise. */
  function Signed(p: Posting): int {
    if InAssetGroup(p) then p.line.debit - p.line.credit else p.line.credit - p.line.debit
  }

  function BsSelected(ps: seq<Posting>, scope: Scope, m: Masters): seq<Posting> {
    Filter(Selected(ps, scope, true, m), IsBalanceSheetPosting)
  }

  function GroupOf(p: Posting): Id {
    if p.account.Some? then p.account.value.groupId else 0
  }

  predicate IdLess(a: Id, b: Id) { a < b }

  datatype BalanceSheetRow = BalanceSheetRow(groupId: Option<Id>, name: string, kind: AccountType, balance: int)
  datatype BalanceSheet = BalanceSheet(rows: seq<BalanceSheetRow>, assets: int, liabilities: int, equity: int)

  function Earnings(ps: seq<Posting>, scope: Scope, m: Masters): int {
    Sum(PnlSelected(ps, scope, true, m), Revenue) - Sum(PnlSelected(ps, scope, true, m), Cost)
  }

  /** Sum of the listed groups' balances, over the groups of one class. */
  function ClassSum(gids: seq<Id>, sel: seq<Posting>, m: Masters, want: AccountGroup -> bool): int {
    if gids == [] then 0
    else (if gids[0] in m.groups && want(m.groups[gids[0]]) then GroupSum(sel, GroupOf, gids[0], Signed) else 0)
         + ClassSum(gids[1..], sel, m, want)
  }

  predicate AssetClass(g: AccountGroup) { g.kind == ASSET }
  predicate LiabilityClass(g: AccountGroup) { g.kind == LIABILITY }
  predicate OtherClass(g: AccountGroup) { g.kind != ASSET && g.kind != LIABILITY }

  lemma {:induction false} ClassSumAppend(gids: seq<Id>, g: Id, sel: seq<Posting>, m: Masters,
          want: AccountGroup -> bool)
    ensures ClassSum(gids + [g], sel, m, want)
         == ClassSum(gids, sel, m, want)
            + if g in m.groups && want(m.groups[g]) then GroupSum(sel, GroupOf, g, Signed) else 0
  {
    if gids == [] {
      assert gids + [g] == [g] && [g][1..] == [];
    } else {
      assert (gids + [g])[1..] == gids[1..] + [g];
      ClassSumAppend(gids[1..], g, sel, m, want);
    }
  }

  lemma {:induction false} ClassSumIsFilteredSum(gids: seq<Id>, sel: seq<Posting>, m: Masters,
          want: AccountGroup -> bool, p: Posting -> bool)
    requires Distinct(gids)
    requires forall x <- sel :: GroupOf(x) in gids && GroupOf(x) in m.groups
    requires forall x <- sel :: p(x) == want(m.groups[GroupOf(x)])
    ensures ClassSum(gids, sel, m, want) == Sum(Filter(sel, p), Signed)
  {
    var wanted := Filter(gids, g => g in m.groups && want(m.groups[g]));
    ClassSumIsSumOfGroups(gids, sel, m, want);
    FilterKeepsDistinct(gids, g => g in m.groups && want(m.groups[g]));
    var f := x => if GroupOf(x) in wanted then Signed(x) else 0;
    GroupsPartition(wanted, sel, GroupOf, Signed, f);
    SumFilter(sel, p, Signed, f);
  }

  lemma {:induction false} ClassSumIsSumOfGroups(gids: seq<Id>, sel: seq<Posting>, m: Masters,
          want: AccountGroup -> bool)
    ensures ClassSum(gids, sel, m, want)
         == SumOfGroups(Filter(gids, g => g in m.groups && want(m.groups[g])), sel, GroupOf, Signed)
  {
    if gids != [] {
      var ok := g => g in m.groups && want(m.groups[g]);
      ClassSumIsSumOfGroups(gids[1..], sel, m, want);
      if ok(gids[0]) {
        assert ([gids[0]] + Filter(gids[1..], ok))[1..] == Filter(gids[1..], ok);
      }
    }
  }

  lemma {:induction false} FilterKeepsDistinct<T>(xs: seq<T>, p: T -> bool)
    requires Distinct(xs)
    ensures Distinct(Filter(xs, p))
  {
    if xs != [] {
      FilterKeepsDistinct(xs[1..], p);
      assert xs[0] !in xs[1..];
    }
  }

  function GroupIds(sel: seq<Posting>): seq<Id> { KeysOf(sel, GroupOf, IdLess) }

  function GroupRow(sel: seq<Posting>, m: Masters, gid: Id): BalanceSheetRow
    requires gid in m.groups
  {
    BalanceSheetRow(Some(gid), m.groups[gid].name, m.groups[gid].kind, GroupSum(sel, GroupOf, gid, Signed))
  }

  ghost predicate GroupsKnown(sel: seq<Posting>, m: Masters) {
    forall x <- sel :: x.account.Some? && GroupOf(x) in m.groups && x.group == Some(m.groups[GroupOf(x)])
  }

  lemma BsGroupsKnown(ps: seq<Posting>, scope: Scope, m: Masters)
    requires MastersOk(m) && forall p <- ps :: p == Joined(p.entry, p.line, m)
    ensures GroupsKnown(BsSelected(ps, scope, m), m)
  {
  }

  lemma GroupIdsOf(sel: seq<Posting>, m: Masters)
    requires GroupsKnown(sel, m)
    ensures Distinct(GroupIds(sel))
    ensures forall x <- sel :: GroupOf(x) in GroupIds(sel)
    ensures forall g <- GroupIds(sel) :: g in m.groups
  {
    KeysOfIsSortedKeySet(sel, GroupOf, IdLess);
  }

  lemma ClassTotals(sel: seq<Posting>, m: Masters)
    requires GroupsKnown(sel, m)
    ensures ClassSum(GroupIds(sel), sel, m, AssetClass) == Sum(Filter(sel, InAssetGroup), Signed)
    ensures ClassSum(GroupIds(sel), sel, m, LiabilityClass) == Sum(Filter(sel, InLiabilityGroup), Signed)
    ensures ClassSum(GroupIds(sel), sel, m, OtherClass) == Sum(Filter(sel, InOtherGroup), Signed)
  {
    GroupIdsOf(sel, m);
    ClassSumIsFilteredSum(GroupIds(sel), sel, m, AssetClass, InAssetGroup);
    ClassSumIsFilteredSum(GroupIds(sel), sel, m, LiabilityClass, InLiabilityGroup);
    ClassSumIsFilteredSum(GroupIds(sel), sel, m, OtherClass, InOtherGroup);
  }

  /** The accumulation over the account groups, by the group's type. */
  method AccumulateGroups(sel: seq<Posting>, gids: seq<Id>, m: Masters)
    returns (rows: seq<BalanceSheetRow>, assets: int, liabilities: int, equityBase: int)
    requires forall g <- gids :: g in m.groups
    ensures assets == ClassSum(gids, sel, m, AssetClass) && liabilities == ClassSum(gids, sel, m, LiabilityClass)
    ensures equityBase == ClassSum(gids, sel, m, OtherClass)
    ensures |rows| == |gids| && forall i :: 0 <= i < |gids| ==> rows[i] == GroupRow(sel, m, gids[i])
  {
    rows, assets, liabilities, equityBase := [], 0, 0, 0;
    var i := 0;
    while i < |gids|
      invariant 0 <= i <= |gids|
      invariant assets == ClassSum(gids[..i], sel, m, AssetClass)
      invariant liabilities == ClassSum(gids[..i], sel, m, LiabilityClass)
      invariant equityBase == ClassSum(gids[..i], sel, m, OtherClass)
      invariant |rows| == i && forall j :: 0 <= j < i ==> rows[j] == GroupRow(sel, m, gids[j])
    {
      var row := GroupRow(sel, m, gids[i]);
      assert gids[..i + 1] == gids[..i] + [gids[i]];
      ClassSumAppend(gids[..i], gids[i], sel, m, AssetClass);
      ClassSumAppend(gids[..i], gids[i], sel, m, LiabilityClass);
      ClassSumAppend(gids[..i], gids[i], sel, m, OtherClass);
      if row.kind == ASSET {
        assets := assets + row.balance;
      } else if row.kind == LIABILITY {
        liabilities := liabilities + row.balance;
      } else {
        equityBase := equityBase + row.balance;
      }
      rows := rows + [row];
      i := i + 1;
    }
    assert gids[..i] == gids;
  }

  /**
   The balance sheet: one row per account group, accumulated into assets, liabilities and equity by the group's
   type, then the current period's earnings closed into equity.
   */
  method BalanceSheetReport(ps: seq<Posting>, scope: Scope, m: Masters) returns (bs: BalanceSheet)
    requires MastersOk(m) && forall p <- ps :: p == Joined(p.entry, p.line, m)
    ensures bs.assets == Sum(Filter(BsSelected(ps, scope, m), InAssetGroup), Signed)
    ensures bs.liabilities == Sum(Filter(BsSelected(ps, scope, m), InLiabilityGroup), Signed)
    ensures bs.equity == Sum(Filter(BsSelected(ps, scope, m), InOtherGroup), Signed) + Earnings(ps, scope, m)
    ensures (var gids := GroupIds(BsSelected(ps, scope, m));
             && |bs.rows| == |gids| + 1
             && bs.rows[|gids|] == BalanceSheetRow(None, "Current Period Earnings", EQUITY, Earnings(ps, scope, m))
             && forall i :: 0 <= i < |gids| ==>
                  gids[i] in m.groups && bs.rows[i] == GroupRow(BsSelected(ps, scope, m), m, gids[i]))
  {
    var sel := BsSelected(ps, scope, m);
    BsGroupsKnown(ps, scope, m);
    var gids := GroupIds(sel);
    GroupIdsOf(sel, m);
    var netIncome := Earnings(ps, scope, m);
    var rows, assets, liabilities, equityBase := AccumulateGroups(sel, gids, m);
    ClassTotals(sel, m);
    rows := rows + [BalanceSheetRow(None, "Current Period Earnings", EQUITY, netIncome)];
    bs := BalanceSheet(rows, assets, liabilities, equityBase + netIncome);
  }
}
