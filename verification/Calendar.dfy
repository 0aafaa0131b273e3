/**
 Calendar dates as ISO strings: DateOnly's parsing and string order, the UTC day numbers of section 21.4.1 of ECMA-262
 behind Date.UTC, and the ageing buckets of receivables.
 */
module Calendar {
  import opened Prelude

  // ---- zero-padded decimals -----------------------------------------------------------------------------

  function Digit(n: nat): char
    requires n < 10
  {
    "0123456789"[n]
  }

  predicate IsDigit(c: char) { '0' <= c <= '9' }

  function DigitValue(c: char): nat
    requires IsDigit(c)
  {
    c as int - '0' as int
  }

  predicate AllDigits(s: string) { forall i :: 0 <= i < |s| ==> IsDigit(s[i]) }

  /** The w low decimal digits of n. */
  function Pad(n: nat, w: nat): (s: string)
    ensures |s| == w && AllDigits(s)
  {
    if w == 0 then "" else Pad(n / 10, w - 1) + [Digit(n % 10)]
  }

  function ParseNat(s: string): nat
    requires AllDigits(s)
  {
    if s == "" then 0 else 10 * ParseNat(s[..|s| - 1]) + DigitValue(s[|s| - 1])
  }

  function Pow10(w: nat): nat { if w == 0 then 1 else 10 * Pow10(w - 1) }

  lemma {:induction false} ParsePad(n: nat, w: nat)
    requires n < Pow10(w)
    ensures ParseNat(Pad(n, w)) == n
  {
    if w > 0 {
      ParsePad(n / 10, w - 1);
      assert Pad(n, w)[..w - 1] == Pad(n / 10, w - 1);
    }
  }

  lemma {:induction false} ParseBound(s: string)
    requires AllDigits(s)
    ensures ParseNat(s) < Pow10(|s|)
  {
    if s != "" { ParseBound(s[..|s| - 1]); }
  }

  // ---- days and years (section 21.4.1 of ECMA-262) --------------------------------------------------------

  predicate Leap(y: int) { y % 4 == 0 && (y % 100 != 0 || y % 400 == 0) }

  function DaysInYear(y: int): int { if Leap(y) then 366 else 365 }

  /** Day number of 1 January. All divisions round down. */
  function DayFromYear(y: int): int {
    365 * (y - 1970) + (y - 1969) / 4 - (y - 1901) / 100 + (y - 1601) / 400
  }

  lemma ModShift(y: int, k: int, q: int)
    requires k > 0
    ensures (y - q * k) % k == y % k
  {
    assert y - q * k == (y / k - q) * k + y % k;
    DivUnique(y - q * k, k, y / k - q, y % k);
  }

  lemma CenturyRule(y: int)
    ensures y % 400 == 0 ==> y % 100 == 0
    ensures y % 100 == 0 ==> y % 4 == 0
  {
  }

  lemma NextYear(y: int)
    ensures DayFromYear(y + 1) == DayFromYear(y) + DaysInYear(y)
  {
    FloorStep(y - 1968, 4);
    FloorStep(y - 1900, 100);
    FloorStep(y - 1600, 400);
    ModShift(y, 4, 492);
    ModShift(y, 100, 19);
    ModShift(y, 400, 4);
    CenturyRule(y);
  }

  lemma FloorStep(n: int, k: int)
    requires k > 1
    ensures n / k - (n - 1) / k == if n % k == 0 then 1 else 0
  {
    var q, r := n / k, n % k;
    assert n == q * k + r;
    if r == 0 {
      assert n - 1 == (q - 1) * k + (k - 1);
      DivUnique(n - 1, k, q - 1, k - 1);
    } else {
      assert n - 1 == q * k + (r - 1);
      DivUnique(n - 1, k, q, r - 1);
    }
  }

  lemma DivUnique(n: int, k: int, q: int, r: int)
    requires k > 0 && n == q * k + r && 0 <= r < k
    ensures n / k == q
  {
    var d := n / k - q;
    assert d * k == r - n % k;
    MultipleOf(d, k);
  }

  lemma MultipleOf(d: int, k: int)
    requires k > 0
    ensures d > 0 ==> d * k >= k
    ensures d < 0 ==> d * k <= -k
  {
  }

  lemma {:induction false} YearsAscend(y: int, z: int)
    requires y < z
    ensures DayFromYear(y) + DaysInYear(y) <= DayFromYear(z)
    decreases z - y
  {
    NextYear(y);
    if y + 1 < z { YearsAscend(y + 1, z); }
  }

  lemma YearGap(y: int)
    ensures DayFromYear(y) < DayFromYear(y + 1)
  {
    NextYear(y);
  }

  function YearUp(day: int, guess: int): (y: int)
    requires DayFromYear(guess) <= day
    ensures DayFromYear(y) <= day < DayFromYear(y + 1)
    decreases day - DayFromYear(guess)
  {
    YearGap(guess);
    if day < DayFromYear(guess + 1) then guess else YearUp(day, guess + 1)
  }

  function YearDown(day: int, guess: int): (y: int)
    requires day < DayFromYear(guess)
    ensures DayFromYear(y) <= day < DayFromYear(y + 1)
    decreases DayFromYear(guess) - day
  {
    YearGap(guess - 1);
    if DayFromYear(guess - 1) <= day then guess - 1 else YearDown(day, guess - 1)
  }

  /** The year a day lies in: the largest whose first day is not after it. */
  function YearOf(day: int): (y: int)
    ensures DayFromYear(y) <= day < DayFromYear(y + 1)
  {
    if DayFromYear(1970) <= day then YearUp(day, 1970) else YearDown(day, 1970)
  }

  function DaysInMonth(y: int, m: int): int {
    if m == 2 then (if Leap(y) then 29 else 28)
    else if m == 4 || m == 6 || m == 9 || m == 11 then 30
    else 31
  }

  /** Days of the year before month m (1-based). */
  function DaysBefore(y: int, m: int): int
    requires 1 <= m <= 13
  {
    if m == 1 then 0 else DaysBefore(y, m - 1) + DaysInMonth(y, m - 1)
  }

  lemma YearIsTwelveMonths(y: int)
    ensures DaysBefore(y, 13) == DaysInYear(y)
  {
    var feb := DaysInMonth(y, 2);
    assert DaysBefore(y, 2) == 31;
    assert DaysBefore(y, 3) == 31 + feb;
    assert DaysBefore(y, 4) == 62 + feb;
    assert DaysBefore(y, 5) == 92 + feb;
    assert DaysBefore(y, 6) == 123 + feb;
    assert DaysBefore(y, 7) == 153 + feb;
    assert DaysBefore(y, 8) == 184 + feb;
    assert DaysBefore(y, 9) == 215 + feb;
    assert DaysBefore(y, 10) == 245 + feb;
    assert DaysBefore(y, 11) == 276 + feb;
    assert DaysBefore(y, 12) == 306 + feb;
  }

  function MonthOf(y: int, dayInYear: int, m: int): (r: int)
    requires 1 <= m <= 12 && DaysBefore(y, m) <= dayInYear < DaysInYear(y)
    ensures m <= r <= 12 && DaysBefore(y, r) <= dayInYear < DaysBefore(y, r + 1)
    decreases 12 - m
  {
    YearIsTwelveMonths(y);
    if dayInYear < DaysBefore(y, m + 1) then m else MonthOf(y, dayInYear, m + 1)
  }

  datatype YMD = YMD(y: int, m: int, d: int)

  /** A date that exists in the (proleptic Gregorian) calendar. */
  predicate Exists(c: YMD) {
    1 <= c.m <= 12 && 1 <= c.d <= DaysInMonth(c.y, c.m)
  }

  /** MakeDay: months outside 1..12 carry into the year, days outside the month carry into the months. */
  function MakeDay(c: YMD): int {
    var y, m := c.y + (c.m - 1) / 12, (c.m - 1) % 12 + 1;
    DayFromYear(y) + DaysBefore(y, m) + c.d - 1
  }

  /** getUTCFullYear, getUTCMonth + 1 and getUTCDate of a day. */
  function CivilOf(day: int): (c: YMD)
    ensures Exists(c)
  {
    var y := YearOf(day);
    NextYear(y);
    var inYear := day - DayFromYear(y);
    var m := MonthOf(y, inYear, 1);
    YMD(y, m, inYear - DaysBefore(y, m) + 1)
  }

  lemma {:induction false} MonthsAscend(y: int, m: int, n: int)
    requires 1 <= m < n <= 13
    ensures DaysBefore(y, m) + DaysInMonth(y, m) <= DaysBefore(y, n)
    decreases n - m
  {
    if m + 1 < n { MonthsAscend(y, m, n - 1); }
  }

  lemma WithinYear(c: YMD)
    requires Exists(c)
    ensures MakeDay(c) == DayFromYear(c.y) + DaysBefore(c.y, c.m) + c.d - 1
    ensures DayFromYear(c.y) <= MakeDay(c) < DayFromYear(c.y + 1)
  {
    NextYear(c.y);
    YearIsTwelveMonths(c.y);
    if c.m > 1 { MonthsAscend(c.y, 1, c.m); }
    if c.m < 12 { MonthsAscend(c.y, c.m, 13); }
  }

  predicate CivilLess(a: YMD, b: YMD) {
    a.y < b.y || (a.y == b.y && (a.m < b.m || (a.m == b.m && a.d < b.d)))
  }

  lemma EarlierYear(a: YMD, b: YMD)
    requires Exists(a) && Exists(b) && a.y < b.y
    ensures MakeDay(a) < MakeDay(b)
  {
    WithinYear(a);
    WithinYear(b);
    NextYear(a.y);
    YearsAscend(a.y, b.y);
  }

  lemma EarlierMonth(a: YMD, b: YMD)
    requires Exists(a) && Exists(b) && a.y == b.y && a.m < b.m
    ensures MakeDay(a) < MakeDay(b)
  {
    WithinYear(a);
    WithinYear(b);
    MonthsAscend(a.y, a.m, b.m);
  }

  lemma SameMonth(a: YMD, b: YMD)
    requires Exists(a) && Exists(b) && a.y == b.y && a.m == b.m
    ensures MakeDay(a) - MakeDay(b) == a.d - b.d
  {
    WithinYear(a);
    WithinYear(b);
  }

  /** Day numbers follow the calendar order of existing dates. */
  lemma DayNumbersFollowTheCalendar(a: YMD, b: YMD)
    requires Exists(a) && Exists(b)
    ensures MakeDay(a) < MakeDay(b) <==> CivilLess(a, b)
  {
    if a.y < b.y { EarlierYear(a, b); }
    else if b.y < a.y { EarlierYear(b, a); }
    else if a.m < b.m { EarlierMonth(a, b); }
    else if b.m < a.m { EarlierMonth(b, a); }
    else { SameMonth(a, b); }
  }

  /** Converting an existing date to a day number and back returns it; a date that does not exist comes back changed. */
  lemma CivilRoundTrip(c: YMD)
    ensures CivilOf(MakeDay(c)) == c <==> Exists(c)
  {
    if Exists(c) {
      var c' := CivilOf(MakeDay(c));
      var y := YearOf(MakeDay(c));
      WithinYear(c);
      WithinYear(c');
      NextYear(y);
      assert MakeDay(c') == MakeDay(c);
      DayNumbersFollowTheCalendar(c, c');
      DayNumbersFollowTheCalendar(c', c);
    }
  }

  // ---- Date.UTC and DateOnly ------------------------------------------------------------------------------

  /** Date.UTC: a year of 0..99 means 1900..1999. */
  function UtcDay(c: YMD): int {
    MakeDay(if 0 <= c.y <= 99 then c.(y := 1900 + c.y) else c)
  }

  /** Four digits, '-', two digits, '-', two digits. */
  predicate IsoShape(s: string) {
    |s| == 10 && s[4] == '-' && s[7] == '-' && AllDigits(s[..4]) && AllDigits(s[5..7]) && AllDigits(s[8..])
  }

  function Fields(s: string): (c: YMD)
    requires IsoShape(s)
    ensures 0 <= c.y < 10000 && 0 <= c.m < 100 && 0 <= c.d < 100
  {
    ParseBound(s[..4]);
    ParseBound(s[5..7]);
    ParseBound(s[8..]);
    assert Pow10(4) == 10000 && Pow10(2) == 100;
    YMD(ParseNat(s[..4]), ParseNat(s[5..7]), ParseNat(s[8..]))
  }

  predicate IsWhite(c: char) {
    var n := c as int;
    || 9 <= n <= 13 || n == 0x20 || n == 0xA0 || n == 0x1680 || 0x2000 <= n <= 0x200A || n == 0x2028 || n == 0x2029
    || n == 0x202F || n == 0x205F || n == 0x3000 || n == 0xFEFF
  }

  /** String.prototype.trim. */
  function Trim(s: string): string {
    if s != "" && IsWhite(s[0]) then Trim(s[1..])
    else if s != "" && IsWhite(s[|s| - 1]) then Trim(s[..|s| - 1])
    else s
  }

  datatype DateError = Malformed | NonExistent

  /** DateOnly.of: the value kept is the trimmed string. */
  function DateOnlyOf(raw: string): Result<string, DateError> {
    var t := Trim(raw);
    if !IsoShape(t) then Err(Malformed)
    else if CivilOf(UtcDay(Fields(t))) != Fields(t) then Err(NonExistent)
    else Ok(t)
  }

  /** The string of an accepted date. */
  predicate AcceptedDate(s: string) {
    IsoShape(s) && CivilOf(UtcDay(Fields(s))) == Fields(s)
  }

  /**
   Accepted are exactly the existing dates of the years 100 to 9999: years 0 to 99 fall to Date.UTC's century rule.
   */
  lemma AcceptedExactly(raw: string)
    ensures DateOnlyOf(raw).Ok? <==> (IsoShape(Trim(raw)) && Exists(Fields(Trim(raw))) && Fields(Trim(raw)).y >= 100)
    ensures DateOnlyOf(raw).Ok? ==> AcceptedDate(DateOnlyOf(raw).value)
  {
    var t := Trim(raw);
    if IsoShape(t) {
      var c := Fields(t);
      if c.y >= 100 {
        CivilRoundTrip(c);
      } else {
        SmallYearsMove(c);
      }
    }
  }

  lemma ParseOneMore(s: string, c: char)
    requires AllDigits(s) && IsDigit(c)
    ensures AllDigits(s + [c]) && ParseNat(s + [c]) == 10 * ParseNat(s) + DigitValue(c)
  {
    assert (s + [c])[..|s|] == s;
  }

  lemma DigitsOfNinetyNine()
    ensures AllDigits("0099") && ParseNat("0099") == 99 && AllDigits("01") && ParseNat("01") == 1
  {
    ParseOneMore("", '0');
    ParseOneMore("0", '0');
    ParseOneMore("00", '9');
    ParseOneMore("009", '9');
    ParseOneMore("0", '1');
    assert "0" == "" + ['0'] && "00" == "0" + ['0'] && "009" == "00" + ['9'] && "0099" == "009" + ['9'];
    assert "01" == "0" + ['1'];
  }

  /** 1 January of the year 99 exists, and is refused as if it did not. */
  lemma YearNinetyNineIsRefused(s: string)
    requires s == "0099-01-01"
    ensures IsoShape(s) && Fields(s) == YMD(99, 1, 1) && Exists(Fields(s)) && DateOnlyOf(s) == Err(NonExistent)
  {
    DigitsOfNinetyNine();
    assert s[..4] == "0099" && s[5..7] == "01" && s[8..] == "01";
    assert Trim(s) == s;
    SmallYearsMove(YMD(99, 1, 1));
  }

  lemma YearsMonotone(y: int, z: int)
    requires y <= z
    ensures DayFromYear(y) <= DayFromYear(z)
  {
    if y < z { YearsAscend(y, z); }
  }

  /** Days from 1 January 101 on lie in years after 99. */
  lemma LateDaysLieInLateYears(day: int)
    requires DayFromYear(101) <= day
    ensures CivilOf(day).y >= 100
  {
    var z := YearOf(day);
    if z < 100 { YearsMonotone(z + 1, 101); }
  }

  lemma DaysBeforeNonNegative(y: int, m: int)
    requires 1 <= m <= 12
    ensures DaysBefore(y, m) >= 0
  {
    if m > 1 { MonthsAscend(y, 1, m); }
  }

  lemma MakeDayBound(c: YMD, first: int)
    requires c.m >= 0 && c.d >= 0 && first == DayFromYear(c.y + (c.m - 1) / 12)
    ensures MakeDay(c) >= first - 1
  {
    DaysBeforeNonNegative(c.y + (c.m - 1) / 12, (c.m - 1) % 12 + 1);
  }

  lemma LateDay(c: YMD)
    requires 1900 <= c.y <= 1999 && 0 <= c.m < 100 && 0 <= c.d < 100
    ensures CivilOf(MakeDay(c)).y >= 100
  {
    var y := c.y + (c.m - 1) / 12;
    YearsMonotone(102, y);
    MakeDayBound(c, DayFromYear(y));
    LateDaysLieInLateYears(MakeDay(c));
  }

  lemma CenturyAdded(c: YMD)
    requires 0 <= c.y <= 99
    ensures UtcDay(c) == MakeDay(YMD(1900 + c.y, c.m, c.d))
  {
  }

  /** The years 1900..1999, months 0..99 and days 0..99 lie far from the years 0..99. */
  lemma SmallYearsMove(c: YMD)
    requires 0 <= c.y <= 99 && 0 <= c.m < 100 && 0 <= c.d < 100
    ensures CivilOf(UtcDay(c)).y >= 100
  {
    CenturyAdded(c);
    LateDay(YMD(1900 + c.y, c.m, c.d));
  }

  predicate StringLess(a: string, b: string) {
    b != "" && (a == "" || a[0] < b[0] || (a[0] == b[0] && StringLess(a[1..], b[1..])))
  }

  lemma {:induction false} StringLessPrefix(p: string, a: string, q: string, b: string)
    requires |p| == |q|
    ensures StringLess(p + a, q + b) <==> StringLess(p, q) || (p == q && StringLess(a, b))
  {
    if p == "" {
      assert p + a == a && q + b == b;
    } else {
      assert (p + a)[1..] == p[1..] + a && (q + b)[1..] == q[1..] + b;
      StringLessPrefix(p[1..], a, q[1..], b);
      assert p == [p[0]] + p[1..] && q == [q[0]] + q[1..];
    }
  }

  lemma {:induction false} DigitStringsOrder(a: string, b: string)
    requires AllDigits(a) && AllDigits(b) && |a| == |b|
    ensures StringLess(a, b) <==> ParseNat(a) < ParseNat(b)
    ensures a == b <==> ParseNat(a) == ParseNat(b)
  {
    if a != "" {
      var n := |a| - 1;
      DigitStringsOrder(a[..n], b[..n]);
      assert a == a[..n] + [a[n]] && b == b[..n] + [b[n]];
      StringLessPrefix(a[..n], [a[n]], b[..n], [b[n]]);
    }
  }

  lemma IsoOrder(a: string, b: string)
    requires IsoShape(a) && IsoShape(b)
    ensures StringLess(a, b) <==> CivilLess(Fields(a), Fields(b))
    ensures a == b <==> Fields(a) == Fields(b)
  {
    var a1, a2, a3, b1, b2, b3 := a[..4], a[5..7], a[8..], b[..4], b[5..7], b[8..];
    assert a == a1 + ("-" + (a2 + ("-" + a3))) && b == b1 + ("-" + (b2 + ("-" + b3)));
    StringLessPrefix(a1, "-" + (a2 + ("-" + a3)), b1, "-" + (b2 + ("-" + b3)));
    StringLessPrefix("-", a2 + ("-" + a3), "-", b2 + ("-" + b3));
    StringLessPrefix(a2, "-" + a3, b2, "-" + b3);
    StringLessPrefix("-", a3, "-", b3);
    DigitStringsOrder(a1, b1);
    DigitStringsOrder(a2, b2);
    DigitStringsOrder(a3, b3);
    assert !StringLess("-", "-");
  }

  /** isBefore and isAfter compare strings; on accepted dates that is the order of their UTC day numbers. */
  lemma StringOrderIsDayOrder(a: string, b: string)
    requires AcceptedDate(a) && AcceptedDate(b)
    ensures StringLess(a, b) <==> UtcDay(Fields(a)) < UtcDay(Fields(b))
    ensures a == b <==> UtcDay(Fields(a)) == UtcDay(Fields(b))
  {
    IsoOrder(a, b);
    AcceptedFields(a);
    AcceptedFields(b);
    DayNumbersFollowTheCalendar(Fields(a), Fields(b));
    DayNumbersFollowTheCalendar(Fields(b), Fields(a));
  }

  lemma AcceptedFields(s: string)
    requires AcceptedDate(s)
    ensures Exists(Fields(s)) && UtcDay(Fields(s)) == MakeDay(Fields(s))
  {
    if Fields(s).y <= 99 { SmallYearsMove(Fields(s)); }
  }

  // ---- ageing ---------------------------------------------------------------------------------------------

  /** toUtcDay: only the first ten characters are looked at, and out-of-range months and days are carried. */
  function ToUtcDay(s: string): Option<int> {
    if |s| >= 10 && IsoShape(s[..10]) then Some(UtcDay(Fields(s[..10]))) else None
  }

  function DaysOverdue(due: string, asOf: string): int {
    if ToUtcDay(due).None? || ToUtcDay(asOf).None? then 0 else ToUtcDay(asOf).value - ToUtcDay(due).value
  }

  datatype Bucket = CURRENT | D31_60 | D61_90 | D90_PLUS

  function AgeingBucket(due: string, asOf: string): Bucket {
    var days := DaysOverdue(due, asOf);
    if days <= 30 then CURRENT else if days <= 60 then D31_60 else if days <= 90 then D61_90 else D90_PLUS
  }

  function Rank(b: Bucket): nat {
    match b case CURRENT => 0 case D31_60 => 1 case D61_90 => 2 case D90_PLUS => 3
  }

  lemma DayOfAccepted(s: string)
    requires AcceptedDate(s)
    ensures ToUtcDay(s) == Some(UtcDay(Fields(s)))
  {
    assert s[..10] == s;
  }

  lemma OverdueFollowsStrings(due: string, asOf: string)
    requires AcceptedDate(due) && AcceptedDate(asOf)
    ensures ToUtcDay(due).Some? && ToUtcDay(asOf).Some?
    ensures DaysOverdue(due, asOf) > 0 <==> StringLess(due, asOf)
  {
    DayOfAccepted(due);
    DayOfAccepted(asOf);
    StringOrderIsDayOrder(due, asOf);
  }

  lemma OverdueAdds(due: string, asOf: string, later: string)
    requires ToUtcDay(due).Some? && ToUtcDay(asOf).Some? && ToUtcDay(later).Some?
    ensures DaysOverdue(asOf, due) == -DaysOverdue(due, asOf)
    ensures DaysOverdue(due, asOf) + DaysOverdue(asOf, later) == DaysOverdue(due, later)
    ensures DaysOverdue(asOf, later) >= 0 ==> Rank(AgeingBucket(due, asOf)) <= Rank(AgeingBucket(due, later))
  {
  }

  /**
   Between accepted dates: days overdue is antisymmetric and additive, its sign is the string order, and as the as-of
   date moves forward (as strings compare) the bucket never moves back.
   */
  lemma AgeingFollowsTheCalendar(due: string, asOf: string, later: string)
    requires AcceptedDate(due) && AcceptedDate(asOf) && AcceptedDate(later)
    ensures DaysOverdue(asOf, due) == -DaysOverdue(due, asOf)
    ensures DaysOverdue(due, asOf) + DaysOverdue(asOf, later) == DaysOverdue(due, later)
    ensures DaysOverdue(due, asOf) > 0 <==> StringLess(due, asOf)
    ensures !StringLess(later, asOf) ==> Rank(AgeingBucket(due, asOf)) <= Rank(AgeingBucket(due, later))
  {
    OverdueFollowsStrings(due, asOf);
    OverdueFollowsStrings(later, asOf);
    OverdueAdds(due, asOf, later);
    OverdueAdds(due, later, asOf);
    OverdueAdds(asOf, later, due);
  }
}
