/**
 The over-budget classification, with the division the code performs: decimal.js rounds a quotient half up to 20
 significant digits before it is compared with 90 and 100 percent. Amounts are integers in ten-thousandths.
 */
module CostPolicy {
  import opened Prelude

  datatype Status = OK | APPROACHING | OVER | UNBUDGETED

  const PRECISION := 20

  const APPROACHING_THRESHOLD_PCT := 90
  const OVER_THRESHOLD_PCT := 100

  // ---- decimals ---------------------------------------------------------------------------------------------------

  function Pow10(n: nat): (p: nat)
    ensures p >= 1
  {
    if n == 0 then 1 else 10 * Pow10(n - 1)
  }

  /** m times ten to the e. */
  datatype Decimal = Decimal(m: int, e: int)

  /** The value of d is at least n. */
  predicate Gte(d: Decimal, n: int) {
    if d.e >= 0 then d.m * Pow10(d.e) >= n else d.m >= n * Pow10(-d.e)
  }

  /** Multiplying by 100 loses no digit. */
  function Times100(d: Decimal): Decimal { Decimal(d.m, d.e + 2) }

  lemma TenFewer(a: nat, b: nat)
    requires a >= 10 * b > 0
    ensures a / (10 * b) < a / b
  {
  }

  /** For a quotient of at least one: how many digits follow its first before the point. */
  function DigitsAfterFirst(a: nat, b: nat): (k: nat)
    requires a >= b > 0
    decreases a / b
  {
    if a < 10 * b then 0 else TenFewer(a, b); 1 + DigitsAfterFirst(a, 10 * b)
  }

  /** For a quotient below one: the position of its first digit after the point. */
  function FirstDigit(a: nat, b: nat): (k: nat)
    requires 0 < a < b
    ensures k >= 1 && (k > 1 ==> a * 10 < b)
    decreases b - a
  {
    if 10 * a >= b then 1 else 1 + FirstDigit(10 * a, b)
  }

  /** x / y to the nearest integer, halves up. */
  function NearestInt(x: nat, y: nat): nat
    requires y > 0
  {
    (2 * x + y) / (2 * y)
  }

  /** a / b rounded half up (away from zero) to 20 significant digits. */
  function Div(a: int, b: nat): Decimal
    requires b > 0
  {
    if a == 0 then Decimal(0, 0)
    else if a < 0 then Decimal(-RoundedQuotient(-a, b).m, RoundedQuotient(-a, b).e)
    else RoundedQuotient(a, b)
  }

  /** The number of decimal places that p digits after the first come to. */
  function Shift(a: nat, b: nat, p: nat): int
    requires a > 0 && b > 0
  {
    if a >= b then p - DigitsAfterFirst(a, b) else p + FirstDigit(a, b)
  }

  /** The quotient a * 10^shift / b as numerator and denominator. */
  function Scaled(a: nat, b: nat, shift: int): (xy: (nat, nat))
    requires b > 0
    ensures xy.1 > 0
  {
    if shift >= 0 then (a * Pow10(shift), b) else PositiveProduct(b, Pow10(-shift)); (a, b * Pow10(-shift))
  }

  lemma PositiveProduct(m: nat, n: nat)
    requires m > 0 && n > 0
    ensures m * n > 0
  {
  }

  function RoundedQuotient(a: nat, b: nat): Decimal
    requires a > 0 && b > 0
  {
    var shift := Shift(a, b, PRECISION - 1);
    Decimal(NearestInt(Scaled(a, b, shift).0, Scaled(a, b, shift).1), -shift)
  }

  // ---- the policy -------------------------------------------------------------------------------------------------

  /** The status and the utilisation in percent; amounts in ten-thousandths. */
  function Classify(budgeted: Option<int>, actual: int): (Status, Option<Decimal>) {
    if budgeted.None? || budgeted.value <= 0 then (UNBUDGETED, None)
    else
      var pct := Times100(Div(actual, budgeted.value));
      (if Gte(pct, OVER_THRESHOLD_PCT) then OVER
       else if Gte(pct, APPROACHING_THRESHOLD_PCT) then APPROACHING
       else OK, Some(pct))
  }

  function StatusOf(budgeted: Option<int>, actual: int): Status { Classify(budgeted, actual).0 }

  // ---- rounding never crosses a threshold -------------------------------------------------------------------------

  lemma NearestAtLeast(x: nat, y: nat, n: nat)
    requires y > 0
    ensures NearestInt(x, y) >= n <==> 2 * x + y >= n * (2 * y)
  {
    var d, q := 2 * y, (2 * x + y) / (2 * y);
    assert q * d <= 2 * x + y < (q + 1) * d;
    if q >= n { MulMonotone(n, q, d); } else { MulMonotone(q + 1, n, d); }
  }

  lemma MulMonotone(m: int, n: int, k: nat)
    requires m <= n
    ensures m * k <= n * k
  {
  }

  lemma {:induction false} PowAdds(m: nat, n: nat)
    ensures Pow10(m + n) == Pow10(m) * Pow10(n)
    decreases m
  {
    if m > 0 {
      PowAdds(m - 1, n);
      assert Pow10(m + n) == 10 * Pow10(m - 1 + n);
    }
  }

  lemma {:induction false} PowGrows(m: nat, n: nat)
    requires m <= n
    ensures Pow10(m) <= Pow10(n)
  {
    if m < n { PowGrows(m, n - 1); }
  }

  /** Comparing with a whole percentage shifts by two places. */
  lemma PercentOfPlaces(m: nat, s: int, tenths: nat)
    requires s >= 1
    ensures Gte(Times100(Decimal(m, -s)), 10 * tenths) <==> m >= tenths * Pow10(s - 1)
  {
    if s == 1 {
      assert Pow10(1) == 10 && Pow10(0) == 1;
    } else {
      assert Pow10(s - 1) == 10 * Pow10(s - 2);
      assert tenths * Pow10(s - 1) == 10 * (tenths * Pow10(s - 2));
    }
  }

  lemma {:induction false} DigitsAfterFirstBounds(a: nat, b: nat)
    requires a >= b > 0
    ensures b * Pow10(DigitsAfterFirst(a, b)) <= a < b * Pow10(DigitsAfterFirst(a, b) + 1)
    decreases a / b
  {
    if a >= 10 * b {
      TenFewer(a, b);
      DigitsAfterFirstBounds(a, 10 * b);
    } else {
      assert Pow10(0) == 1 && Pow10(1) == 10;
    }
  }

  lemma {:induction false} FirstDigitBounds(a: nat, b: nat)
    requires 0 < a < b
    ensures b <= a * Pow10(FirstDigit(a, b)) < 10 * b
    decreases b - a
  {
    if 10 * a < b {
      FirstDigitBounds(10 * a, b);
    } else {
      assert Pow10(1) == 10;
    }
  }

  lemma NearestIsNear(x: nat, y: nat)
    requires y > 0
    ensures (var m := NearestInt(x, y); 2 * (m * y) - 2 * x <= y && 2 * x - 2 * (m * y) < y)
  {
    var m := NearestInt(x, y);
    assert m * (2 * y) <= 2 * x + y < m * (2 * y) + 2 * y;
    assert m * (2 * y) == 2 * (m * y);
  }

  lemma NearestInRange(x: nat, y: nat, lo: nat, hi: nat)
    requires y > 0 && lo * y <= x <= hi * y
    ensures lo <= NearestInt(x, y) <= hi
  {
    NearestAtLeast(x, y, lo);
    NearestAtLeast(x, y, hi + 1);
    assert lo * (2 * y) == 2 * (lo * y);
    assert (hi + 1) * (2 * y) == 2 * (hi * y) + 2 * y;
  }

  lemma NearestDigits(x: nat, y: nat, lo: nat, hi: nat)
    requires y > 0 && lo * y <= x <= hi * y
    ensures (var m := NearestInt(x, y); lo <= m <= hi && 2 * (m * y) - 2 * x <= y && 2 * x - 2 * (m * y) < y)
  {
    NearestIsNear(x, y);
    NearestInRange(x, y, lo, hi);
  }

  /** The rounded quotient has 20 significant digits (or is the next power of ten) and is the nearest such number. */
  lemma TwentyDigits(a: nat, b: nat, p: nat)
    requires a > 0 && b > 0 && p == PRECISION - 1
    ensures (var q := RoundedQuotient(a, b);
             var (x, y) := Scaled(a, b, -q.e);
             Pow10(p) <= q.m <= Pow10(p + 1) && 2 * (q.m * y) - 2 * x <= y && 2 * x - 2 * (q.m * y) < y)
  {
    var (x, y) := Scaled(a, b, Shift(a, b, p));
    ScaledInRange(a, b, p);
    NearestDigits(x, y, Pow10(p), Pow10(p + 1));
  }

  lemma ScaledInRange(a: nat, b: nat, p: nat)
    requires a > 0 && b > 0
    ensures (var (x, y) := Scaled(a, b, Shift(a, b, p)); Pow10(p) * y <= x <= Pow10(p + 1) * y)
  {
    if a < b {
      SmallInRange(a, b, p);
    } else if DigitsAfterFirst(a, b) <= p {
      MediumInRange(a, b, p);
    } else {
      LargeInRange(a, b, p);
    }
  }

  lemma SmallInRange(a: nat, b: nat, p: nat)
    requires 0 < a < b
    ensures (var x := a * Pow10(p + FirstDigit(a, b)); Pow10(p) * b <= x <= Pow10(p + 1) * b)
  {
    var k := FirstDigit(a, b);
    var P, R := Pow10(k), Pow10(p);
    FirstDigitBounds(a, b);
    PowAdds(k, p);
    Reordered(a, P, R);
    MulMonotone(b, a * P, R);
    MulMonotone(a * P, 10 * b, R);
    TenTimes(b, R);
  }

  lemma TenTimes(b: nat, R: nat)
    ensures (10 * b) * R == (10 * R) * b && b * R == R * b
  {
  }

  lemma MediumInRange(a: nat, b: nat, p: nat)
    requires a >= b > 0 && DigitsAfterFirst(a, b) <= p
    ensures (var x := a * Pow10(p - DigitsAfterFirst(a, b)); Pow10(p) * b <= x <= Pow10(p + 1) * b)
  {
    var k := DigitsAfterFirst(a, b);
    var s := p - k;
    DigitsAfterFirstBounds(a, b);
    PowAdds(k, s);
    PowAdds(k + 1, s);
    Shifted(b, Pow10(k), Pow10(s), a);
    Shifted(b, Pow10(k + 1), Pow10(s), a);
  }

  lemma LargeInRange(a: nat, b: nat, p: nat)
    requires a >= b > 0 && DigitsAfterFirst(a, b) > p
    ensures (var y := b * Pow10(DigitsAfterFirst(a, b) - p); y > 0 && Pow10(p) * y <= a <= Pow10(p + 1) * y)
  {
    var k := DigitsAfterFirst(a, b);
    var t := k - p;
    DigitsAfterFirstBounds(a, b);
    PowAdds(p, t);
    PowAdds(p + 1, t);
    Reordered(b, Pow10(p), Pow10(t));
    Reordered(b, Pow10(p + 1), Pow10(t));
    MulMonotone(1, b, Pow10(t));
  }

  lemma MulLess(m: nat, n: nat, k: nat)
    requires m < n && k > 0
    ensures m * k < n * k
  {
  }

  lemma Reordered(a: nat, p: nat, r: nat)
    ensures a * (p * r) == (a * p) * r == p * (a * r)
  {
  }

  /** Comparing b * p with a survives multiplying by r. */
  lemma Shifted(b: nat, p: nat, r: nat, a: nat)
    requires r > 0
    ensures b * p <= a ==> (p * r) * b <= a * r
    ensures a < b * p ==> a * r < (p * r) * b
  {
    Reordered(b, p, r);
    if b * p <= a { MulMonotone(b * p, a, r); } else { MulLess(a, b * p, r); }
  }

  lemma OverPlaces(m: nat, s: int)
    requires 1 <= s <= PRECISION - 1 && m >= Pow10(PRECISION - 1)
    ensures Gte(Times100(Decimal(m, -s)), 100) && Gte(Times100(Decimal(m, -s)), 90)
  {
    PowGrows(s, PRECISION - 1);
    PercentOfPlaces(m, s, 10);
    PercentOfPlaces(m, s, 9);
    assert 10 * Pow10(s - 1) == Pow10(s);
  }

  lemma OverWhole(m: nat, e: nat)
    requires m >= Pow10(PRECISION - 1)
    ensures Gte(Times100(Decimal(m, e)), 100) && Gte(Times100(Decimal(m, e)), 90)
  {
    PowGrows(2, PRECISION - 1);
    assert Pow10(1) == 10 && Pow10(2) == 100;
    MulMonotone(1, Pow10(e + 2), m);
  }

  /** A quotient of at least one stays at least one. */
  lemma OverStaysOver(a: nat, b: nat)
    requires a >= b > 0
    ensures Gte(Times100(RoundedQuotient(a, b)), 100) && Gte(Times100(RoundedQuotient(a, b)), 90)
  {
    var q := RoundedQuotient(a, b);
    TwentyDigits(a, b, PRECISION - 1);
    if q.e < 0 { OverPlaces(q.m, -q.e); } else { OverWhole(q.m, q.e); }
  }

  /** The largest budget, exclusive, for which 20 digits always suffice. */
  const MAX_EXACT_BUDGET := 20_000_000_000_000_000_000

  lemma BigPowers(s: nat)
    requires s >= 19
    ensures 2 * Pow10(s) >= MAX_EXACT_BUDGET
  {
    PowGrows(19, s);
    PowAdds(4, 4);
    PowAdds(8, 8);
    PowAdds(16, 3);
    assert Pow10(3) == 1000 && Pow10(4) == 10000;
  }

  /** A quotient below one never rounds up to one, nor one below nine tenths up to nine tenths. */
  lemma BelowStaysBelow(a: nat, b: nat)
    requires 0 < a < b < MAX_EXACT_BUDGET
    ensures !Gte(Times100(RoundedQuotient(a, b)), 100)
    ensures Gte(Times100(RoundedQuotient(a, b)), 90) <==> 10 * a >= 9 * b
  {
    var s := PRECISION - 1 + FirstDigit(a, b);
    var Q := Pow10(s - 1);
    var x := a * Pow10(s);
    assert Pow10(s) == 10 * Q && x == 10 * (a * Q);
    BigPowers(s - 1);
    var m := NearestInt(x, b);
    PercentOfPlaces(m, s, 10);
    PercentOfPlaces(m, s, 9);
    NearestAtLeast(x, b, 10 * Q);
    NearestAtLeast(x, b, 9 * Q);
    Gaps(a, b, Q);
  }

  lemma Regroup(b: nat, Q: nat)
    ensures (9 * Q) * (2 * b) == 18 * (b * Q) && (10 * Q) * (2 * b) == 20 * (b * Q)
  {
  }

  lemma GapSign(a: nat, b: nat, Q: nat)
    ensures 10 * a >= 9 * b ==> 10 * (a * Q) >= 9 * (b * Q)
    ensures 10 * a < 9 * b ==> 10 * (a * Q) + Q <= 9 * (b * Q)
  {
    assert (10 * a) * Q == 10 * (a * Q) && (9 * b) * Q == 9 * (b * Q);
    if 10 * a >= 9 * b {
      MulMonotone(9 * b, 10 * a, Q);
    } else {
      MulMonotone(10 * a + 1, 9 * b, Q);
      assert (10 * a + 1) * Q == (10 * a) * Q + Q;
    }
  }

  /** Numerators that miss a threshold miss it by more than rounding can bridge. */
  lemma Gaps(a: nat, b: nat, Q: nat)
    requires a < b < 2 * Q
    ensures 2 * (10 * (a * Q)) + b < (10 * Q) * (2 * b)
    ensures 2 * (10 * (a * Q)) + b >= (9 * Q) * (2 * b) <==> 10 * a >= 9 * b
  {
    Regroup(b, Q);
    GapSign(a, b, Q);
    MulMonotone(a + 1, b, Q);
    assert (a + 1) * Q == a * Q + Q;
  }

  lemma NegativeProduct(m: int, p: int)
    requires m > 0 && p > 0
    ensures (-m) * p < 0
  {
    MulMonotone(1, p, m);
  }

  /** Credits in excess of debits are never close to a threshold. */
  lemma NegativeIsBelow(a: int, b: nat)
    requires a <= 0 && b > 0
    ensures !Gte(Times100(Div(a, b)), 100) && !Gte(Times100(Div(a, b)), 90)
  {
    if a < 0 {
      TwentyDigits(-a, b, PRECISION - 1);
      var d := Times100(Div(a, b));
      if d.e >= 0 { NegativeProduct(-d.m, Pow10(d.e)); }
    }
  }

  /** The rational answer: what the status would be without any rounding. */
  function ExactStatus(budgeted: Option<int>, actual: int): Status {
    if budgeted.None? || budgeted.value <= 0 then UNBUDGETED
    else if actual >= budgeted.value then OVER
    else if 10 * actual >= 9 * budgeted.value then APPROACHING
    else OK
  }

  /**
   For every actual and every budget below 2 * 10^19 ten-thousandths - twenty times what numeric(18,4) can hold - the
   status computed from the rounded quotient is the exact one, and the utilisation is absent exactly when there is no
   positive budget.
   */
  lemma ClassifyIsExact(budgeted: Option<int>, actual: int)
    requires budgeted.Some? ==> budgeted.value < MAX_EXACT_BUDGET
    ensures StatusOf(budgeted, actual) == ExactStatus(budgeted, actual)
    ensures Classify(budgeted, actual).1.None? <==> StatusOf(budgeted, actual) == UNBUDGETED
  {
    if budgeted.Some? && budgeted.value > 0 {
      var b := budgeted.value;
      if actual <= 0 { NegativeIsBelow(actual, b); }
      else if actual >= b { OverStaysOver(actual, b); }
      else { BelowStaysBelow(actual, b); }
    }
  }

  function Rank(s: Status): nat {
    match s case UNBUDGETED => 0 case OK => 1 case APPROACHING => 2 case OVER => 3
  }

  /** More cost never improves the status. */
  lemma StatusNeverImproves(budgeted: Option<int>, actual: int, more: int)
    requires actual <= more && (budgeted.Some? ==> budgeted.value < MAX_EXACT_BUDGET)
    ensures Rank(StatusOf(budgeted, actual)) <= Rank(StatusOf(budgeted, more))
  {
    ClassifyIsExact(budgeted, actual);
    ClassifyIsExact(budgeted, more);
  }

  lemma NineteenZeros()
    ensures 2 * Pow10(19) == MAX_EXACT_BUDGET
  {
    PowAdds(4, 4);
    PowAdds(8, 8);
    PowAdds(16, 3);
    assert Pow10(3) == 1000 && Pow10(4) == 10000;
  }

  lemma Bridged(a: nat, b: nat, Q: nat)
    requires 10 * a == 9 * b - 1 && b >= 2 * Q && Q > 0
    ensures (9 * Q) * (2 * b) <= 2 * (10 * (a * Q)) + b < (10 * Q) * (2 * b)
  {
    Regroup(b, Q);
    assert (10 * a) * Q == 10 * (a * Q) && (9 * b - 1) * Q == 9 * (b * Q) - Q;
    MulMonotone(1, Q, b);
  }

  /** The scaled cost rounds up to nine tenths of the scale, or stays between there and all of it. */
  lemma RoundsToNineTenths(a: nat, b: nat, places: nat)
    requires 10 * a == 9 * b - 1 && b >= 2 * Pow10(places)
    ensures 9 * Pow10(places) <= NearestInt(a * Pow10(places + 1), b) < 10 * Pow10(places)
  {
    var Q := Pow10(places);
    assert a * Pow10(places + 1) == 10 * (a * Q);
    Bridged(a, b, Q);
    NearestAtLeast(a * Pow10(places + 1), b, 10 * Q);
    NearestAtLeast(a * Pow10(places + 1), b, 9 * Q);
  }

  /**
   Past that bound twenty digits no longer suffice: a cost just under nine tenths of this budget counts as nine tenths.
   */
  lemma TwentyDigitsRunOut(a: nat, b: nat, places: nat)
    requires b == MAX_EXACT_BUDGET + 9 && 10 * a == 9 * b - 1 && places == PRECISION - 1
    ensures ExactStatus(Some(b), a) == OK && StatusOf(Some(b), a) == APPROACHING
  {
    var m := NearestInt(a * Pow10(places + 1), b);
    assert FirstDigit(a, b) == 1;
    NineteenZeros();
    RoundsToNineTenths(a, b, places);
    PercentOfPlaces(m, places + 1, 10);
    PercentOfPlaces(m, places + 1, 9);
  }
}
