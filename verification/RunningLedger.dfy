/**
 The account ledger and the cash/bank book (opening balance, running balance, pages), and the dashboard's cash flow.
 */
module RunningLedger {
  import opened Prelude
  import opened Sums
  import opened Sorting
  import opened JournalStore
  import opened Statements

  // ---- paging ---------------------------------------------------------------------------------------

  const DEFAULT_PAGE_SIZE := 25
  const MAX_PAGE_SIZE := 200

  datatype Paging = Paging(page: int, pageSize: int, skip: int, take: int)

  /** The requested numbers may be fractional or out of range. */
  function ResolvePaging(page: Option<real>, pageSize: Option<real>): (p: Paging)
    ensures 1 <= p.page && 1 <= p.pageSize <= MAX_PAGE_SIZE && p.take == p.pageSize
    ensures 0 <= p.skip && p.skip == (p.page - 1) * p.pageSize
  {
    var n := Max(1, if page.Some? then page.value.Floor else 1);
    var wanted := Max(1, if pageSize.Some? then pageSize.value.Floor else DEFAULT_PAGE_SIZE);
    var size := if wanted < MAX_PAGE_SIZE then wanted else MAX_PAGE_SIZE;
    Paging(n, size, (n - 1) * size, size)
  }

  /** LIMIT take OFFSET skip. */
  function PageOf<T>(xs: seq<T>, p: Paging): seq<T>
    requires 0 <= p.skip && 0 <= p.take
  {
    if p.skip >= |xs| then []
    else if p.skip + p.take >= |xs| then xs[p.skip..]
    else xs[p.skip..p.skip + p.take]
  }

  /** The first n pages, one after the other, each requested with its number and the same page size. */
  function FirstPages<T>(xs: seq<T>, pageSize: Option<real>, n: nat): seq<T> {
    if n == 0 then []
    else FirstPages(xs, pageSize, n - 1) + PageOf(xs, ResolvePaging(Some(n as real), pageSize))
  }

  function Prefix<T>(xs: seq<T>, k: nat): seq<T> { if k >= |xs| then xs else xs[..k] }

  lemma PageExtendsPrefix<T>(xs: seq<T>, p: Paging)
    requires 0 <= p.skip && 1 <= p.take
    ensures Prefix(xs, p.skip) + PageOf(xs, p) == Prefix(xs, p.skip + p.take)
  {
    if p.skip < |xs| && p.skip + p.take >= |xs| {
      assert xs[..p.skip] + xs[p.skip..] == xs;
    } else if p.skip < |xs| {
      assert xs[..p.skip] + xs[p.skip..p.skip + p.take] == xs[..p.skip + p.take];
    }
  }

  lemma PageNumber(pageSize: Option<real>, n: nat)
    requires n >= 1
    ensures (var p, size := ResolvePaging(Some(n as real), pageSize), ResolvePaging(Some(1.0), pageSize).take;
             p.take == size && p.skip == (n - 1) * size && p.skip + p.take == n * size)
  {
    assert (n as real).Floor == n;
  }

  /**
   Pages 1..n concatenated are the first n * size rows, for every requested size; once n * size reaches the number of
   rows they are the whole list, with no row missing and none repeated.
   */
  lemma {:induction false} PagesConcatenateToTheList<T>(xs: seq<T>, pageSize: Option<real>, n: nat)
    ensures (var size := ResolvePaging(Some(1.0), pageSize).take;
             && FirstPages(xs, pageSize, n) == Prefix(xs, n * size)
             && (|xs| <= n * size ==> FirstPages(xs, pageSize, n) == xs))
  {
    if n > 0 {
      PagesConcatenateToTheList(xs, pageSize, n - 1);
      PageNumber(pageSize, n);
      PageExtendsPrefix(xs, ResolvePaging(Some(n as real), pageSize));
    }
  }

  // ---- running ledger -------------------------------------------------------------------------------

  /** ORDER BY voucher_date, entry_no, line_no. */
  predicate Before(a: Posting, b: Posting) {
    || a.entry.voucherDate < b.entry.voucherDate
    || (a.entry.voucherDate == b.entry.voucherDate && a.entry.entryNo < b.entry.entryNo)
    || (a.entry.voucherDate == b.entry.voucherDate && a.entry.entryNo == b.entry.entryNo
        && a.line.lineNo < b.line.lineNo)
  }

  predicate IsCashOrBank(companyId: Id, p: Posting) {
    p.account.Some? && p.account.value.companyId == companyId
    && (p.account.value.code == "1100" || p.account.value.code == "1110")
  }

  /**
   Which book is read: the plain account ledger, or the cash/bank book, which picks its accounts unless one is named.
   */
  datatype Book = AccountLedger | CashBankBook

  predicate InBook(book: Book, scope: Scope, p: Posting) {
    book.CashBankBook? && scope.accountId.None? ==> IsCashOrBank(scope.companyId, p)
  }

  function Undated(scope: Scope): Scope {
    scope.(dateFrom := None, dateTo := None, periodId := None, asOf := None)
  }

  /** The book's lines whatever their date. */
  function AllLines(ps: seq<Posting>, book: Book, scope: Scope, m: Masters): seq<Posting> {
    Filter(ps, p => InScope(Undated(scope), false, m, p) && InBook(book, scope, p))
  }

  /** The lines of the requested window. */
  function WindowLines(ps: seq<Posting>, book: Book, scope: Scope, m: Masters): seq<Posting> {
    Filter(ps, p => InScope(scope, false, m, p) && InBook(book, scope, p))
  }

  function Opening(ps: seq<Posting>, book: Book, scope: Scope, m: Masters): int {
    if scope.dateFrom.None? then 0
    else Sum(Filter(ps, p => InScope(Undated(scope), false, m, p) && InBook(book, scope, p)
                             && p.entry.voucherDate < scope.dateFrom.value), Net)
  }

  datatype LedgerRow = LedgerRow(posting: Posting, running: int)

  /** The window sum: each row carries the opening plus everything up to and including itself. */
  function WithRunning(ordered: seq<Posting>, carried: int): (rows: seq<LedgerRow>)
    ensures |rows| == |ordered|
  {
    if ordered == [] then []
    else
      var running := carried + Net(ordered[0]);
      [LedgerRow(ordered[0], running)] + WithRunning(ordered[1..], running)
  }

  /** ordered is one of the orders in which the database may return the window's lines. */
  ghost predicate IsWindow(ordered: seq<Posting>, ps: seq<Posting>, book: Book, scope: Scope, m: Masters) {
    IsOrderOf(ordered, WindowLines(ps, book, scope, m), Before)
  }

  /** The rows of the ledger, for the order the lines come in. */
  function LedgerRows(ordered: seq<Posting>, ps: seq<Posting>, book: Book, scope: Scope, m: Masters): seq<LedgerRow> {
    WithRunning(ordered, Opening(ps, book, scope, m))
  }

  datatype LedgerPage = LedgerPage(items: seq<LedgerRow>, total: nat, opening: int)

  function RunningLedgerReport(ordered: seq<Posting>, ps: seq<Posting>, book: Book, scope: Scope, page: Option<real>,
          pageSize: Option<real>, m: Masters): LedgerPage {
    var rows := LedgerRows(ordered, ps, book, scope, m);
    LedgerPage(PageOf(rows, ResolvePaging(page, pageSize)), |rows|, Opening(ps, book, scope, m))
  }

  function Closing(ps: seq<Posting>, book: Book, scope: Scope, m: Masters): int {
    Opening(ps, book, scope, m) + Sum(WindowLines(ps, book, scope, m), Net)
  }

  /** Lines may share a sort key; there is an order all the same. */
  lemma WindowHasAnOrder(ps: seq<Posting>, book: Book, scope: Scope, m: Masters)
    ensures WeakOrder(Before) && IsWindow(Sort(WindowLines(ps, book, scope, m), Before), ps, book, scope, m)
  {
    SortIsAnOrder(WindowLines(ps, book, scope, m), Before);
  }

  lemma {:induction false} RunningIsPrefixSum(ordered: seq<Posting>, carried: int, i: nat)
    requires i < |ordered|
    ensures WithRunning(ordered, carried)[i] == LedgerRow(ordered[i], carried + Sum(ordered[..i + 1], Net))
  {
    assert ordered[..i + 1][0] == ordered[0];
    if i == 0 {
      assert ordered[..1] == [ordered[0]];
      SumSingle(ordered[0], Net);
    } else {
      RunningIsPrefixSum(ordered[1..], carried + Net(ordered[0]), i - 1);
      assert ordered[..i + 1][1..] == ordered[1..][..i];
    }
  }

  /** The rows behind row i that share its sort key. */
  function TiedLater(ordered: seq<Posting>, i: nat): seq<Posting>
    requires i < |ordered|
  {
    Filter(ordered[i + 1..], p => !Before(ordered[i], p))
  }

  /** In a sorted list, what is not after row i is the prefix up to it, and the ties behind it. */
  lemma PrefixIsUpTo(xs: seq<Posting>, ordered: seq<Posting>, i: nat, upTo: Posting -> int)
    requires IsOrderOf(ordered, xs, Before) && i < |ordered|
    requires forall p :: upTo(p) == if Before(ordered[i], p) then 0 else Net(p)
    ensures Sum(ordered[..i + 1], Net) + Sum(TiedLater(ordered, i), Net) == Sum(xs, upTo)
  {
    SumPermuted(ordered, xs, upTo);
    assert ordered == ordered[..i + 1] + ordered[i + 1..];
    SumConcat(ordered[..i + 1], ordered[i + 1..], upTo);
    forall p | p in ordered[..i + 1] ensures upTo(p) == Net(p) {
      var k :| 0 <= k <= i && ordered[k] == p;
    }
    SumCong(ordered[..i + 1], upTo, Net);
    SumFilter(ordered[i + 1..], p => !Before(ordered[i], p), Net, upTo);
  }

  function UpTo(row: Posting, ps: seq<Posting>, book: Book, scope: Scope, m: Masters): seq<Posting> {
    Filter(AllLines(ps, book, scope, m), p => !Before(row, p))
  }

  predicate InBookUndated(book: Book, scope: Scope, m: Masters, p: Posting) {
    InScope(Undated(scope), false, m, p) && InBook(book, scope, p)
  }

  function EarlyPart(book: Book, scope: Scope, m: Masters, p: Posting): int {
    if InBookUndated(book, scope, m, p) && scope.dateFrom.Some? && p.entry.voucherDate < scope.dateFrom.value
    then Net(p) else 0
  }

  function WindowPart(book: Book, scope: Scope, m: Masters, row: Posting, p: Posting): int {
    if InScope(scope, false, m, p) && InBook(book, scope, p) && !Before(row, p) then Net(p) else 0
  }

  function UpToPart(book: Book, scope: Scope, m: Masters, row: Posting, p: Posting): int {
    if InBookUndated(book, scope, m, p) && !Before(row, p) then Net(p) else 0
  }

  lemma PartsSplit(book: Book, scope: Scope, m: Masters, row: Posting, p: Posting)
    requires InScope(scope, false, m, row)
    ensures UpToPart(book, scope, m, row, p) == EarlyPart(book, scope, m, p) + WindowPart(book, scope, m, row, p)
  {
  }

  /** What precedes a line of the window: the opening, plus the window's own lines up to it. */
  lemma UpToSplitsAtTheWindow(ps: seq<Posting>, book: Book, scope: Scope, m: Masters, row: Posting,
          upTo: Posting -> int)
    requires row in WindowLines(ps, book, scope, m)
    requires forall p :: upTo(p) == if Before(row, p) then 0 else Net(p)
    ensures Sum(UpTo(row, ps, book, scope, m), Net)
         == Opening(ps, book, scope, m) + Sum(WindowLines(ps, book, scope, m), upTo)
  {
    var earlyPart := p => EarlyPart(book, scope, m, p);
    var windowPart := p => WindowPart(book, scope, m, row, p);
    var wholePart := p => UpToPart(book, scope, m, row, p);
    SumFilter(ps, p => InScope(scope, false, m, p) && InBook(book, scope, p), upTo, windowPart);
    OpeningAsSum(ps, book, scope, m, earlyPart);
    SumFilterTwice(ps, p => InScope(Undated(scope), false, m, p) && InBook(book, scope, p), p => !Before(row, p), Net,
                   wholePart);
    forall p ensures wholePart(p) == earlyPart(p) + windowPart(p) {
      PartsSplit(book, scope, m, row, p);
    }
    SumLinear(ps, wholePart, earlyPart, windowPart, 1, 1);
  }

  /**
   Whatever order equal keys come in: a row's running balance is the net of all the book's lines up to and including
   that line, from the beginning of time, less the lines that share its key and come behind it.
   */
  lemma RunningBalanceInAnyOrder(ordered: seq<Posting>, ps: seq<Posting>, book: Book, scope: Scope, m: Masters, i: nat)
    requires IsWindow(ordered, ps, book, scope, m) && i < |ordered|
    ensures LedgerRows(ordered, ps, book, scope, m)[i]
         == LedgerRow(ordered[i], Sum(UpTo(ordered[i], ps, book, scope, m), Net) - Sum(TiedLater(ordered, i), Net))
  {
    var window, opening := WindowLines(ps, book, scope, m), Opening(ps, book, scope, m);
    var row := ordered[i];
    RunningIsPrefixSum(ordered, opening, i);
    var upTo := p => if Before(row, p) then 0 else Net(p);
    PrefixIsUpTo(window, ordered, i, upTo);
    assert row in multiset(ordered) && row in window;
    UpToSplitsAtTheWindow(ps, book, scope, m, row, upTo);
  }

  lemma OpeningAsSum(ps: seq<Posting>, book: Book, scope: Scope, m: Masters, part: Posting -> int)
    requires forall p <- ps :: part(p) == if InScope(Undated(scope), false, m, p) && InBook(book, scope, p)
                                            && scope.dateFrom.Some? && p.entry.voucherDate < scope.dateFrom.value
                                         then Net(p) else 0
    ensures Opening(ps, book, scope, m) == Sum(ps, part)
  {
    if scope.dateFrom.None? {
      SumZero(ps, part);
    } else {
      SumFilter(ps, p => InScope(Undated(scope), false, m, p) && InBook(book, scope, p)
                         && p.entry.voucherDate < scope.dateFrom.value, Net, part);
    }
  }

  // ---- lines with a sort key of their own -------------------------------------------------------------------

  function OneIfTied(row: Posting, p: Posting): int { if Before(row, p) || Before(p, row) then 0 else 1 }

  /** How many of the lines share the row's date, entry number and line number. */
  function Sharing(lines: seq<Posting>, row: Posting): int { Sum(lines, p => OneIfTied(row, p)) }

  /** No other line of the book shares the row's sort key. */
  predicate OwnKey(row: Posting, ps: seq<Posting>, book: Book, scope: Scope, m: Masters) {
    Sharing(AllLines(ps, book, scope, m), row) == 1
  }

  lemma {:induction false} SharingCounts(lines: seq<Posting>, row: Posting)
    ensures Sharing(lines, row) >= 0
    ensures Sharing(lines, row) == 0 <==> forall p <- lines :: Before(row, p) || Before(p, row)
  {
    if lines != [] { SharingCounts(lines[1..], row); }
  }

  /** Lines that tie have one date, so a window has all of them or none. */
  lemma WindowSharesLikeBook(ps: seq<Posting>, book: Book, scope: Scope, m: Masters, row: Posting)
    requires row in WindowLines(ps, book, scope, m)
    ensures Sharing(WindowLines(ps, book, scope, m), row) == Sharing(AllLines(ps, book, scope, m), row)
  {
    var tied := p => OneIfTied(row, p);
    var inWindow := p => if InScope(scope, false, m, p) && InBook(book, scope, p) then tied(p) else 0;
    SumFilter(ps, p => InScope(scope, false, m, p) && InBook(book, scope, p), tied, inWindow);
    SumFilter(ps, p => InScope(Undated(scope), false, m, p) && InBook(book, scope, p), tied, inWindow);
  }

  lemma AloneHasNoTies(xs: seq<Posting>, ordered: seq<Posting>, i: nat)
    requires IsOrderOf(ordered, xs, Before) && i < |ordered| && Sharing(xs, ordered[i]) == 1
    ensures TiedLater(ordered, i) == []
  {
    var row := ordered[i];
    var tied := p => OneIfTied(row, p);
    SumPermuted(ordered, xs, tied);
    SumAround(ordered, i, tied);
    SharingCounts(ordered[..i], row);
    SharingCounts(ordered[i + 1..], row);
    forall p | p in ordered[i + 1..] ensures Before(row, p) {
      var k :| i < k < |ordered| && ordered[k] == p;
    }
    FilterNone(ordered[i + 1..], p => !Before(row, p));
  }

  /**
   A line with a sort key of its own has an absolute running balance: the net of all the book's lines up to and
   including it, from the beginning of time. It depends neither on dateFrom nor on dateTo, nor on the page or page size
   it was read with, nor on the order of other lines.
   */
  lemma RunningBalanceIsAbsolute(ordered: seq<Posting>, ps: seq<Posting>, book: Book, scope: Scope, m: Masters, i: nat)
    requires IsWindow(ordered, ps, book, scope, m) && i < |ordered| && OwnKey(ordered[i], ps, book, scope, m)
    ensures LedgerRows(ordered, ps, book, scope, m)[i]
         == LedgerRow(ordered[i], Sum(UpTo(ordered[i], ps, book, scope, m), Net))
  {
    RunningBalanceInAnyOrder(ordered, ps, book, scope, m, i);
    assert ordered[i] in multiset(ordered) && ordered[i] in WindowLines(ps, book, scope, m);
    WindowSharesLikeBook(ps, book, scope, m, ordered[i]);
    AloneHasNoTies(WindowLines(ps, book, scope, m), ordered, i);
  }

  /** Wherever the order puts the line, its running balance is the absolute one. */
  ghost predicate AbsoluteIn(ordered: seq<Posting>, ps: seq<Posting>, book: Book, scope: Scope, m: Masters,
          row: Posting)
  {
    forall i :: 0 <= i < |ordered| && ordered[i] == row ==>
      LedgerRows(ordered, ps, book, scope, m)[i].running == Sum(UpTo(row, ps, book, scope, m), Net)
  }

  lemma OnlyTieBehind(front: seq<Posting>, back: seq<Posting>, row: Posting, t: Posting)
    requires !Before(row, t) && forall p <- back :: Before(row, p)
    ensures TiedLater(front + [row, t] + back, |front|) == [t]
  {
    var tied := (p: Posting) => !Before(row, p);
    assert (front + [row, t] + back)[|front| + 1..] == [t] + back;
    FilterConcat([t], back, tied);
    FilterNone(back, tied);
    FilterAll([t], tied);
  }

  /** An order of the window in which t comes right behind row, and nothing else that ties does. */
  lemma TieBehind(xs: seq<Posting>, rest: seq<Posting>, row: Posting, t: Posting)
    returns (ordered: seq<Posting>, i: nat)
    requires multiset(xs) == multiset(rest) + multiset{row, t} && !Before(row, t) && !Before(t, row)
    ensures IsOrderOf(ordered, xs, Before) && i < |ordered| && ordered[i] == row && TiedLater(ordered, i) == [t]
  {
    SortIsAnOrder(rest, Before);
    var sorted := Sort(rest, Before);
    i := PlaceFor(row, sorted, Before);
    ordered := sorted[..i] + [row, t] + sorted[i..];
    assert sorted == sorted[..i] + sorted[i..];
    PairAdds(sorted[..i], sorted[i..], row, t);
    InsertedPair(sorted[..i], sorted[i..], row, t);
    OnlyTieBehind(sorted[..i], sorted[i..], row, t);
  }

  lemma PairAdds(front: seq<Posting>, back: seq<Posting>, row: Posting, t: Posting)
    ensures multiset(front + [row, t] + back) == multiset(front + back) + multiset{row, t}
  {
    assert [row, t] == [row] + [t];
  }

  lemma InsertedPair(front: seq<Posting>, back: seq<Posting>, row: Posting, t: Posting)
    requires NoneAhead(front + back, Before) && !Before(row, t) && !Before(t, row)
    requires (forall p <- front :: !Before(row, p)) && (forall p <- back :: Before(row, p))
    ensures NoneAhead(front + [row, t] + back, Before)
  {
    var all, was := front + [row, t] + back, front + back;
    forall i, j | 0 <= i < j < |all| ensures !Before(all[j], all[i]) {
      if i < |front| && j < |front| {
        assert all[i] == was[i] && all[j] == was[j];
      } else if i < |front| && j >= |front| + 2 {
        assert all[i] == was[i] && all[j] == was[j - 2];
      } else if i >= |front| + 2 {
        assert all[i] == was[i - 2] && all[j] == was[j - 2];
      } else if i < |front| {
        assert all[i] in front;
      } else if j >= |front| + 2 {
        assert all[j] in back;
      }
    }
  }

  /** Some other line of the list shares the key of its k-th. */
  lemma AnotherTie(xs: seq<Posting>, k: nat) returns (rest: seq<Posting>, t: Posting)
    requires k < |xs| && Sharing(xs, xs[k]) != 1
    ensures multiset(xs) == multiset(rest) + multiset{xs[k], t} && t in xs
    ensures !Before(xs[k], t) && !Before(t, xs[k])
  {
    var row, others := xs[k], Without(xs, k);
    WithoutOne(xs, k);
    SumWithout(xs, k, p => OneIfTied(row, p));
    SharingCounts(others, row);
    t :| t in others && !Before(row, t) && !Before(t, row);
    var j :| 0 <= j < |others| && others[j] == t;
    WithoutOne(others, j);
    rest := Without(others, j);
    TwoOut(xs, others, rest, row, t);
  }

  lemma TwoOut(xs: seq<Posting>, others: seq<Posting>, rest: seq<Posting>, row: Posting, t: Posting)
    requires multiset(xs) == multiset(others) + multiset{row} && multiset(others) == multiset(rest) + multiset{t}
    ensures multiset(xs) == multiset(rest) + multiset{row, t} && t in xs
  {
    assert t in multiset(xs);
  }

  /**
   Exactly which lines have an absolute balance: in every order the database may choose the line's balance is the
   absolute one if and only if no other line of the book shares its sort key. (A line posts a non-zero amount.)
   */
  lemma BalanceIsFixedIffOwnKey(ps: seq<Posting>, book: Book, scope: Scope, m: Masters, k: nat)
    requires k < |WindowLines(ps, book, scope, m)|
    requires forall p <- ps :: LineChecks(p.line)
    ensures (var row := WindowLines(ps, book, scope, m)[k];
             (forall ordered :: IsWindow(ordered, ps, book, scope, m) ==> AbsoluteIn(ordered, ps, book, scope, m, row))
             <==> OwnKey(row, ps, book, scope, m))
  {
    var window := WindowLines(ps, book, scope, m);
    var row := window[k];
    if OwnKey(row, ps, book, scope, m) {
      forall ordered | IsWindow(ordered, ps, book, scope, m) ensures AbsoluteIn(ordered, ps, book, scope, m, row) {
        forall i | 0 <= i < |ordered| && ordered[i] == row
          ensures LedgerRows(ordered, ps, book, scope, m)[i].running == Sum(UpTo(row, ps, book, scope, m), Net)
        {
          RunningBalanceIsAbsolute(ordered, ps, book, scope, m, i);
        }
      }
    } else {
      assert row in window;
      WindowSharesLikeBook(ps, book, scope, m, row);
      var rest, t := AnotherTie(window, k);
      WindowHasAnOrder(ps, book, scope, m);
      var ordered, i := TieBehind(window, rest, row, t);
      RunningBalanceInAnyOrder(ordered, ps, book, scope, m, i);
      SumSingle(t, Net);
      assert t in ps && LineChecks(t.line);
      assert IsWindow(ordered, ps, book, scope, m) && !AbsoluteIn(ordered, ps, book, scope, m, row);
    }
  }

  /** A line of a fixed entry; both lines below have line number 1. */
  function LineOne(id: Id, debit: int, credit: int): Posting {
    Posting(Entry(0, 0, 0, 1, "JOURNAL", 0, None), Line(id, 0, 1, 0, None, None, None, None, None, debit, credit),
            None, None)
  }

  lemma TwoRows(x: Posting, y: Posting, carried: int)
    ensures WithRunning([x, y], carried)
         == [LedgerRow(x, carried + Net(x)), LedgerRow(y, carried + Net(x) + Net(y))]
  {
    assert [x, y][1..] == [y] && [y][1..] == [];
    assert WithRunning([y], carried + Net(x)) == [LedgerRow(y, carried + Net(x) + Net(y))];
  }

  lemma TwoOrders(x: Posting, y: Posting)
    requires !Before(x, y) && !Before(y, x)
    ensures IsOrderOf([x, y], [x, y], Before) && IsOrderOf([y, x], [x, y], Before)
  {
    assert multiset([y, x]) == multiset{x, y} == multiset([x, y]);
  }

  /** Two lines under one number in one entry: the first shows 1 in one order of the ledger and 0 in the other. */
  lemma TiedLinesHaveTwoBalances(a: Posting, b: Posting, scope: Scope, m: Masters)
    requires a == LineOne(0, 1, 0) && b == LineOne(1, 0, 1)
    requires scope == Scope(0, None, None, None, None, None, None, None, None, None, None, None, None)
    ensures IsWindow([a, b], [a, b], AccountLedger, scope, m) && IsWindow([b, a], [a, b], AccountLedger, scope, m)
    ensures LedgerRows([a, b], [a, b], AccountLedger, scope, m)[0] == LedgerRow(a, 1)
    ensures LedgerRows([b, a], [a, b], AccountLedger, scope, m)[1] == LedgerRow(a, 0)
  {
    FilterAll([a, b], p => InScope(scope, false, m, p) && InBook(AccountLedger, scope, p));
    TwoOrders(a, b);
    TwoRows(a, b, 0);
    TwoRows(b, a, 0);
  }

  /** Two windows of a book, in any orders, never disagree about a line with a sort key of its own. */
  lemma RunningBalanceIsWindowIndependent(ordered: seq<Posting>, ordered': seq<Posting>, ps: seq<Posting>, book: Book,
          scope: Scope, other: Scope, m: Masters, i: nat, j: nat)
    requires IsWindow(ordered, ps, book, scope, m) && IsWindow(ordered', ps, book, other, m)
    requires Undated(other) == Undated(scope) && i < |ordered| && j < |ordered'| && ordered[i] == ordered'[j]
    requires OwnKey(ordered[i], ps, book, scope, m)
    ensures LedgerRows(ordered, ps, book, scope, m)[i] == LedgerRows(ordered', ps, book, other, m)[j]
  {
    FilterCong(ps, p => InScope(Undated(scope), false, m, p) && InBook(book, scope, p),
               p => InScope(Undated(other), false, m, p) && InBook(book, other, p));
    RunningBalanceIsAbsolute(ordered, ps, book, scope, m, i);
    RunningBalanceIsAbsolute(ordered', ps, book, other, m, j);
  }

  // ---- pages of the report ------------------------------------------------------------------------------

  lemma PageItem<T>(xs: seq<T>, p: Paging, j: nat)
    requires 0 <= p.skip && 0 <= p.take && j < |PageOf(xs, p)|
    ensures p.skip + j < |xs| && PageOf(xs, p)[j] == xs[p.skip + j]
  {
  }

  /** Every item of every page, of any size, with a key of its own carries the sum of the book's lines up to it. */
  lemma PagedBalanceIsAbsolute(ordered: seq<Posting>, ps: seq<Posting>, book: Book, scope: Scope, page: Option<real>,
          pageSize: Option<real>, m: Masters, j: nat)
    requires IsWindow(ordered, ps, book, scope, m)
    requires j < |RunningLedgerReport(ordered, ps, book, scope, page, pageSize, m).items|
    ensures (var item := RunningLedgerReport(ordered, ps, book, scope, page, pageSize, m).items[j];
             OwnKey(item.posting, ps, book, scope, m) ==>
               item.running == Sum(UpTo(item.posting, ps, book, scope, m), Net))
  {
    var p := ResolvePaging(page, pageSize);
    var rows := LedgerRows(ordered, ps, book, scope, m);
    PageItem(rows, p, j);
    RunningBalanceInAnyOrder(ordered, ps, book, scope, m, p.skip + j);
    if OwnKey(rows[p.skip + j].posting, ps, book, scope, m) {
      RunningBalanceIsAbsolute(ordered, ps, book, scope, m, p.skip + j);
    }
  }

  /** An item of a page is a row of the ledger. */
  lemma ItemIsRow(ordered: seq<Posting>, ps: seq<Posting>, book: Book, scope: Scope, page: Option<real>,
          pageSize: Option<real>, m: Masters, a: LedgerRow) returns (i: nat)
    requires a in RunningLedgerReport(ordered, ps, book, scope, page, pageSize, m).items
    ensures i < |ordered| && LedgerRows(ordered, ps, book, scope, m)[i] == a && a.posting == ordered[i]
  {
    var items := RunningLedgerReport(ordered, ps, book, scope, page, pageSize, m).items;
    var j :| 0 <= j < |items| && items[j] == a;
    PageItem(LedgerRows(ordered, ps, book, scope, m), ResolvePaging(page, pageSize), j);
    i := ResolvePaging(page, pageSize).skip + j;
    RunningIsPrefixSum(ordered, Opening(ps, book, scope, m), i);
  }

  /**
   Two windows of a book, each in any order and read with any page and page size, agree on the balance of a line that
   both show and that has a key of its own.
   */
  lemma PagesAgreeAcrossWindows(ordered: seq<Posting>, ordered': seq<Posting>, ps: seq<Posting>, book: Book,
          scope: Scope, other: Scope, page: Option<real>, size: Option<real>, page': Option<real>,
          size': Option<real>, m: Masters, a: LedgerRow, b: LedgerRow)
    requires IsWindow(ordered, ps, book, scope, m) && IsWindow(ordered', ps, book, other, m)
    requires Undated(other) == Undated(scope) && OwnKey(a.posting, ps, book, scope, m)
    requires a in RunningLedgerReport(ordered, ps, book, scope, page, size, m).items
    requires b in RunningLedgerReport(ordered', ps, book, other, page', size', m).items
    ensures a.posting == b.posting ==> a.running == b.running
  {
    var i := ItemIsRow(ordered, ps, book, scope, page, size, m, a);
    var j := ItemIsRow(ordered', ps, book, other, page', size', m, b);
    if a.posting == b.posting {
      RunningBalanceIsWindowIndependent(ordered, ordered', ps, book, scope, other, m, i, j);
    }
  }

  /** The items of the report's pages 1 to n, one page after the other. */
  function ReportPages(ordered: seq<Posting>, ps: seq<Posting>, book: Book, scope: Scope, pageSize: Option<real>,
          m: Masters, n: nat): seq<LedgerRow>
  {
    if n == 0 then []
    else
      ReportPages(ordered, ps, book, scope, pageSize, m, n - 1)
      + RunningLedgerReport(ordered, ps, book, scope, Some(n as real), pageSize, m).items
  }

  lemma {:induction false} ReportPagesArePages(ordered: seq<Posting>, ps: seq<Posting>, book: Book, scope: Scope,
          pageSize: Option<real>, m: Masters, n: nat)
    ensures ReportPages(ordered, ps, book, scope, pageSize, m, n)
         == FirstPages(LedgerRows(ordered, ps, book, scope, m), pageSize, n)
  {
    if n > 0 { ReportPagesArePages(ordered, ps, book, scope, pageSize, m, n - 1); }
  }

  /**
   The report is page independent: total and opening are the same on any page of any size, and are those of the whole
   list; and with any page size, once n pages have room for the total, the items of pages 1 to n put together are
   the whole list, which ends in the closing balance.
   */
  lemma PagesMakeTheLedger(ordered: seq<Posting>, ps: seq<Posting>, book: Book, scope: Scope, page: Option<real>,
          pageSize: Option<real>, m: Masters, n: nat)
    requires IsWindow(ordered, ps, book, scope, m)
    ensures (var report := RunningLedgerReport(ordered, ps, book, scope, page, pageSize, m);
             var rows := LedgerRows(ordered, ps, book, scope, m);
             var pages := ReportPages(ordered, ps, book, scope, pageSize, m, n);
             && report.total == |rows| == |WindowLines(ps, book, scope, m)|
             && report.opening == Opening(ps, book, scope, m)
             && (report.total <= n * ResolvePaging(page, pageSize).take ==>
                   && pages == rows
                   && Closing(ps, book, scope, m)
                      == if pages == [] then report.opening else pages[|pages| - 1].running))
  {
    ReportPagesArePages(ordered, ps, book, scope, pageSize, m, n);
    PagesConcatenateToTheList(LedgerRows(ordered, ps, book, scope, m), pageSize, n);
    LastRowIsClosing(ordered, ps, book, scope, m);
    assert |multiset(ordered)| == |multiset(WindowLines(ps, book, scope, m))|;
  }

  /** The last row of the last page shows the closing balance. */
  lemma LastRowIsClosing(ordered: seq<Posting>, ps: seq<Posting>, book: Book, scope: Scope, m: Masters)
    requires IsWindow(ordered, ps, book, scope, m)
    ensures (var rows := LedgerRows(ordered, ps, book, scope, m);
             Closing(ps, book, scope, m)
             == if rows == [] then Opening(ps, book, scope, m) else rows[|rows| - 1].running)
  {
    SumPermuted(ordered, WindowLines(ps, book, scope, m), Net);
    if ordered != [] {
      RunningIsPrefixSum(ordered, Opening(ps, book, scope, m), |ordered| - 1);
      assert ordered[..|ordered|] == ordered;
    }
  }

  function WithinPart(book: Book, scope: Scope, m: Masters, p: Posting): int {
    if InScope(scope, false, m, p) && InBook(book, scope, p) then Net(p) else 0
  }

  function BeforeDayPart(book: Book, scope: Scope, day: int, m: Masters, p: Posting): int {
    if InBookUndated(book, scope, m, p) && p.entry.voucherDate < day then Net(p) else 0
  }

  /** A line before day d + 1 is before the window or in it, never both. */
  lemma EarlyOrWithin(book: Book, scope: Scope, d: int, m: Masters, p: Posting)
    requires scope.dateTo == Some(d) && (scope.dateFrom.Some? ==> scope.dateFrom.value <= d + 1)
    ensures BeforeDayPart(book, scope, d + 1, m, p) == EarlyPart(book, scope, m, p) + WithinPart(book, scope, m, p)
  {
  }

  lemma ClosingAsSum(ps: seq<Posting>, book: Book, scope: Scope, d: int, m: Masters, before: Posting -> int)
    requires scope.dateTo == Some(d) && (scope.dateFrom.Some? ==> scope.dateFrom.value <= d + 1)
    requires forall p :: before(p) == BeforeDayPart(book, scope, d + 1, m, p)
    ensures Closing(ps, book, scope, m) == Sum(ps, before)
  {
    var early := p => EarlyPart(book, scope, m, p);
    var within := p => WithinPart(book, scope, m, p);
    OpeningAsSum(ps, book, scope, m, early);
    SumFilter(ps, p => InScope(scope, false, m, p) && InBook(book, scope, p), Net, within);
    forall p ensures before(p) == early(p) + within(p) { EarlyOrWithin(book, scope, d, m, p); }
    SumLinear(ps, before, early, within, 1, 1);
  }

  lemma SameBookNextWindow(book: Book, scope: Scope, next: Scope, m: Masters, p: Posting)
    requires Undated(next) == Undated(scope)
    ensures InBookUndated(book, next, m, p) == InBookUndated(book, scope, m, p)
  {
    assert next.accountId == Undated(next).accountId && next.companyId == Undated(next).companyId;
    assert scope.accountId == Undated(scope).accountId && scope.companyId == Undated(scope).companyId;
  }

  /** The closing balance of a window ending on day d is the opening balance of one starting on day d + 1. */
  lemma ClosingIsNextOpening(ps: seq<Posting>, book: Book, scope: Scope, next: Scope, d: int, m: Masters)
    requires Undated(next) == Undated(scope)
    requires scope.dateTo == Some(d) && next.dateFrom == Some(d + 1)
    requires scope.dateFrom.Some? ==> scope.dateFrom.value <= d + 1
    ensures Closing(ps, book, scope, m) == Opening(ps, book, next, m)
  {
    var before := p => BeforeDayPart(book, scope, d + 1, m, p);
    ClosingAsSum(ps, book, scope, d, m, before);
    forall p ensures before(p) == EarlyPart(book, next, m, p) { SameBookNextWindow(book, scope, next, m, p); }
    OpeningAsSum(ps, book, next, m, before);
  }

  // ---- dashboard ------------------------------------------------------------------------------------

  datatype DashboardScope = DashboardScope(companyId: Id, projectIds: Option<seq<Id>>, financialYearId: Option<Id>,
                                           dateFrom: Option<int>, dateTo: Option<int>)

  predicate DashboardCond(s: DashboardScope, dateWindow: bool, p: Posting) {
    && p.entry.companyId == s.companyId
    && Wants(s.financialYearId, p.entry.financialYearId)
    && (dateWindow && s.dateFrom.Some? ==> p.entry.voucherDate >= s.dateFrom.value)
    && (dateWindow && s.dateTo.Some? ==> p.entry.voucherDate <= s.dateTo.value)
    && ProjectInScope(s.projectIds, p.line.projectId)
  }

  predicate HasCode(companyId: Id, codes: seq<string>, p: Posting) {
    p.account.Some? && p.account.value.companyId == companyId && p.account.value.code in codes
  }

  datatype CashFlow = CashFlow(netInflow: int, cashBalance: int, bankBalance: int)

  function CodeBalance(ps: seq<Posting>, s: DashboardScope, dateWindow: bool, codes: seq<string>): int {
    Sum(Filter(ps, p => DashboardCond(s, dateWindow, p) && HasCode(s.companyId, codes, p)), Net)
  }

  function CashFlowTile(ps: seq<Posting>, s: DashboardScope): CashFlow {
    CashFlow(CodeBalance(ps, s, true, ["1100", "1110"]), CodeBalance(ps, s, false, ["1100"]),
             CodeBalance(ps, s, false, ["1110"]))
  }

  /** The report scope a dashboard tile drills into. */
  function BookScope(s: DashboardScope): Scope {
    Scope(s.companyId, s.financialYearId, s.projectIds, None, None, None, None, None, s.dateFrom, s.dateTo, None, None,
          None)
  }

  lemma DashboardIsBook(s: DashboardScope, m: Masters, p: Posting)
    ensures DashboardCond(s, true, p) && HasCode(s.companyId, ["1100", "1110"], p)
       <==> InScope(BookScope(s), false, m, p) && InBook(CashBankBook, BookScope(s), p)
    ensures InScope(Undated(BookScope(s)), false, m, p) && InBook(CashBankBook, Undated(BookScope(s)), p)
       <==> DashboardCond(s, false, p) && (HasCode(s.companyId, ["1100"], p) || HasCode(s.companyId, ["1110"], p))
    ensures !(HasCode(s.companyId, ["1100"], p) && HasCode(s.companyId, ["1110"], p))
  {
    assert "1100"[2] != "1110"[2];
  }

  lemma InflowIsWindowSum(ps: seq<Posting>, s: DashboardScope, m: Masters)
    ensures CashFlowTile(ps, s).netInflow == Sum(WindowLines(ps, CashBankBook, BookScope(s), m), Net)
  {
    var scope := BookScope(s);
    var mine := p => DashboardCond(s, true, p) && HasCode(s.companyId, ["1100", "1110"], p);
    var books := p => InScope(scope, false, m, p) && InBook(CashBankBook, scope, p);
    forall p | p in ps ensures mine(p) == books(p) { DashboardIsBook(s, m, p); }
    FilterCong(ps, mine, books);
  }

  lemma BalancesAreBookSum(ps: seq<Posting>, s: DashboardScope, m: Masters)
    ensures CashFlowTile(ps, s).cashBalance + CashFlowTile(ps, s).bankBalance
         == Sum(WindowLines(ps, CashBankBook, Undated(BookScope(s)), m), Net)
  {
    var scope := Undated(BookScope(s));
    var cashP := p => DashboardCond(s, false, p) && HasCode(s.companyId, ["1100"], p);
    var bankP := p => DashboardCond(s, false, p) && HasCode(s.companyId, ["1110"], p);
    var bothP := p => InScope(scope, false, m, p) && InBook(CashBankBook, scope, p);
    var cash := p => if cashP(p) then Net(p) else 0;
    var bank := p => if bankP(p) then Net(p) else 0;
    var both := p => if bothP(p) then Net(p) else 0;
    SumFilter(ps, cashP, Net, cash);
    SumFilter(ps, bankP, Net, bank);
    SumFilter(ps, bothP, Net, both);
    forall p | p in ps ensures both(p) == 1 * cash(p) + 1 * bank(p) { DashboardIsBook(s, m, p); }
    SumLinear(ps, both, cash, bank, 1, 1);
  }

  /**
   The dashboard's net inflow is closing minus opening of the cash/bank book over the same window, and its cash and
   bank balances together are what that book closes with when read without dates.
   */
  lemma CashFlowTiesToCashBankBook(ps: seq<Posting>, s: DashboardScope, m: Masters)
    ensures CashFlowTile(ps, s).netInflow
         == Closing(ps, CashBankBook, BookScope(s), m) - Opening(ps, CashBankBook, BookScope(s), m)
    ensures CashFlowTile(ps, s).cashBalance + CashFlowTile(ps, s).bankBalance
         == Closing(ps, CashBankBook, Undated(BookScope(s)), m)
  {
    InflowIsWindowSum(ps, s, m);
    BalancesAreBookSum(ps, s, m);
  }
}
