/**
The trip of a payment amount through `float` and back: `Decimal(str(float(amount)))`. Doubles and their rounding
follow sections 4.3.1 and 5.12.2 of IEEE 754-2008: `float` rounds to the nearest double, ties to even, and `str`
prints a shortest decimal that rounds to the same double. An amount is a number of cents of at most twelve digits.
 */
module FloatTrip {
  const TWO_52: nat := 4503599627370496
  const TWO_53: nat := 9007199254740992
  const LOWEST: int := -1074
  const HIGHEST: int := 971
  const AMOUNT_LIMIT: nat := 1000000000000

  // ----- powers and multiples

  function Pow2(k: int): (p: real)
    ensures p > 0.0
    decreases if k < 0 then -k else k
  {
    if k == 0 then 1.0 else if k > 0 then 2.0 * Pow2(k - 1) else Pow2(k + 1) / 2.0
  }

  function Pow10(k: int): (p: real)
    ensures p > 0.0
    decreases if k < 0 then -k else k
  {
    if k == 0 then 1.0 else if k > 0 then 10.0 * Pow10(k - 1) else Pow10(k + 1) / 10.0
  }

  lemma Pow2Next(k: int)
    ensures Pow2(k + 1) == 2.0 * Pow2(k)
  {
  }

  lemma Pow10Next(k: int)
    ensures Pow10(k + 1) == 10.0 * Pow10(k)
  {
  }

  lemma {:induction false} Pow2Grows(j: int, k: int)
    requires j <= k
    ensures Pow2(j) <= Pow2(k)
    decreases k - j
  {
    if j < k {
      Pow2Grows(j, k - 1);
      Pow2Next(k - 1);
    }
  }

  /** m times p. */
  function Scale(m: nat, p: real): real {
    if m == 0 then 0.0 else Scale(m - 1, p) + p
  }

  lemma {:induction false} ScaleIsProduct(m: nat, p: real)
    ensures Scale(m, p) == m as real * p
  {
    if m > 0 {
      ScaleIsProduct(m - 1, p);
      assert m as real * p == (m - 1) as real * p + p;
    }
  }

  lemma {:induction false} ScaleSum(a: nat, b: nat, p: real)
    ensures Scale(a + b, p) == Scale(a, p) + Scale(b, p)
  {
    if b > 0 {
      ScaleSum(a, b - 1, p);
    }
  }

  lemma {:induction false} ScaleOrder(a: nat, b: nat, p: real)
    requires p > 0.0 && a <= b
    ensures Scale(a, p) <= Scale(b, p)
    ensures a < b ==> Scale(a, p) + p <= Scale(b, p)
  {
    if a < b {
      ScaleOrder(a, b - 1, p);
    }
  }

  lemma {:induction false} ScaleGrows(m: nat, p: real, q: real)
    requires p <= q
    ensures Scale(m, p) <= Scale(m, q)
  {
    if m > 0 {
      ScaleGrows(m - 1, p, q);
    }
  }

  lemma {:induction false} ScaleTwice(m: nat, p: real)
    ensures Scale(2 * m, p) == Scale(m, 2.0 * p)
  {
    if m > 0 {
      ScaleTwice(m - 1, p);
      ScaleSum(2 * (m - 1), 2, p);
      assert Scale(2, p) == Scale(1, p) + p == 2.0 * p;
    }
  }

  lemma {:induction false} ScaleTen(m: nat, p: real)
    ensures Scale(10 * m, p) == Scale(m, 10.0 * p)
  {
    if m > 0 {
      ScaleTen(m - 1, p);
      ScaleSum(10 * (m - 1), 10, p);
      ScaleIsProduct(10, p);
    }
  }

  // ----- doubles

  datatype Double = Double(m: nat, e: int)

  /** The finite non-negative doubles: normal, subnormal and zero. */
  predicate Finite(d: Double) {
    || (TWO_52 <= d.m < TWO_53 && LOWEST <= d.e <= HIGHEST)
    || (d.m < TWO_52 && d.e == LOWEST)
  }

  function Value(d: Double): real { Scale(d.m, Pow2(d.e)) }

  function Gap(x: real, y: real): real { if x < y then y - x else x - y }

  /** `d` is x rounded to nearest, ties to even. */
  ghost predicate RoundsTo(x: real, d: Double) {
    && Finite(d)
    && forall c: Double :: Finite(c) ==>
         Gap(x, Value(d)) < Gap(x, Value(c)) || Value(c) == Value(d) || (Gap(x, Value(d)) == Gap(x, Value(c)) && d.m % 2 == 0)
  }

  // ----- printed decimals

  /** The number a decimal literal denotes: `coefficient` times ten to the `exponent`. */
  datatype Decimal = Decimal(coefficient: nat, exponent: int)

  function DecimalValue(t: Decimal): real { Scale(t.coefficient, Pow10(t.exponent)) }

  function Digits(c: nat): nat { if c < 10 then 1 else 1 + Digits(c / 10) }

  /** A shortest decimal that rounds to d and, of those, one nearest to d. */
  ghost predicate Prints(d: Double, t: Decimal) {
    && RoundsTo(DecimalValue(t), d)
    && forall other: Decimal :: RoundsTo(DecimalValue(other), d) ==>
         || Digits(t.coefficient) < Digits(other.coefficient)
         || (Digits(t.coefficient) == Digits(other.coefficient) && Gap(DecimalValue(t), Value(d)) <= Gap(DecimalValue(other), Value(d)))
  }

  function Amount(cents: nat): real { cents as real / 100.0 }

  predicate IsAmount(cents: nat) { 1 <= cents < AMOUNT_LIMIT }

  lemma AmountDecimal(cents: nat)
    ensures DecimalValue(Decimal(cents, -2)) == Amount(cents)
  {
    ScaleIsProduct(cents, Pow10(-2));
    Pow10Next(-1);
    Pow10Next(-2);
  }

  // ----- digits

  function TenTo(k: nat): nat { if k == 0 then 1 else 10 * TenTo(k - 1) }

  lemma {:induction false} DigitsBound(c: nat, k: nat)
    requires k >= 1
    ensures Digits(c) <= k <==> c < TenTo(k)
  {
    if k == 1 {
      assert TenTo(1) == 10;
    } else if c >= 10 {
      DigitsBound(c / 10, k - 1);
    } else {
      DigitsBound(c, k - 1);
    }
  }

  lemma TwelveDigits(c: nat)
    ensures Digits(c) <= 12 <==> c < AMOUNT_LIMIT
  {
    DigitsBound(c, 12);
    assert TenTo(4) == 10000;
    assert TenTo(8) == 100000000;
    assert TenTo(12) == AMOUNT_LIMIT;
  }

  // ----- amounts lie well inside the range of doubles

  const BOTTOM: int := -59
  const TOP: int := -18

  lemma Pow2Ten(k: int)
    ensures Pow2(k) == 1024.0 * Pow2(k - 10)
  {
    Pow2Next(k - 1);
    Pow2Next(k - 2);
    Pow2Next(k - 3);
    Pow2Next(k - 4);
    Pow2Next(k - 5);
    Pow2Next(k - 6);
    Pow2Next(k - 7);
    Pow2Next(k - 8);
    Pow2Next(k - 9);
    Pow2Next(k - 10);
  }

  lemma RangeEnds(low: Double, high: Double)
    requires low == Double(TWO_52, BOTTOM) && high == Double(TWO_52, TOP)
    ensures Value(low) == 0.0078125 && Value(high) == 17179869184.0
  {
    Pow2Ten(0);
    Pow2Ten(-10);
    Pow2Ten(-20);
    Pow2Ten(-30);
    Pow2Ten(-40);
    Pow2Ten(-50);
    Pow2Next(-60);
    Pow2Next(-19);
    Pow2Next(-20);
    ScaleIsProduct(low.m, Pow2(low.e));
    ScaleIsProduct(high.m, Pow2(high.e));
  }

  /** Values order like exponents. */
  lemma ExponentAtLeast(d: Double, low: Double)
    requires Finite(d) && low.m == TWO_52 && LOWEST < low.e
    requires Value(low) <= Value(d)
    ensures TWO_52 <= d.m && low.e <= d.e
  {
    if d.e < low.e {
      BinadeBelow(d, low);
      assert false;
    }
  }

  lemma BinadeBelow(d: Double, low: Double)
    requires Finite(d) && low.m == TWO_52 && d.e < low.e
    ensures Value(d) < Value(low)
  {
    var half := Pow2(low.e - 1);
    Pow2Grows(d.e, low.e - 1);
    Pow2Next(low.e - 1);
    ScaleOrder(d.m, TWO_53, Pow2(d.e));
    ScaleGrows(TWO_53, Pow2(d.e), half);
    ScaleTwice(TWO_52, half);
  }

  // ----- half an ulp

  predicate Inner(d: Double) { TWO_52 <= d.m < TWO_53 && LOWEST < d.e < HIGHEST }

  lemma NeighbourAbove(d: Double) returns (c: Double)
    requires Inner(d)
    ensures Finite(c) && Value(c) == Value(d) + Pow2(d.e)
  {
    c := if d.m + 1 < TWO_53 then Double(d.m + 1, d.e) else Double(TWO_52, d.e + 1);
    Pow2Next(d.e);
    ScaleTwice(TWO_52, Pow2(d.e));
  }

  lemma NeighbourBelow(d: Double) returns (c: Double)
    requires Inner(d)
    ensures Finite(c) && Value(d) - Pow2(d.e) <= Value(c) < Value(d)
  {
    c := if d.m > TWO_52 then Double(d.m - 1, d.e) else Double(TWO_53 - 1, d.e - 1);
    Pow2Next(d.e - 1);
    ScaleTwice(TWO_52, Pow2(d.e - 1));
  }

  lemma WithinHalfUlp(x: real, d: Double)
    requires RoundsTo(x, d) && Inner(d)
    ensures Gap(x, Value(d)) <= Pow2(d.e) / 2.0
  {
    var above := NeighbourAbove(d);
    var below := NeighbourBelow(d);
  }

  lemma Squeezed(x: real, d: Double, low: Double, high: Double)
    requires RoundsTo(x, d) && Finite(low) && Finite(high)
    requires Value(low) <= x <= Value(high)
    ensures Value(low) <= Value(d) <= Value(high)
  {
  }

  /** The double an amount rounds to is nowhere near the ends of the range. */
  lemma AmountIsInner(cents: nat, d: Double)
    requires IsAmount(cents) && RoundsTo(Amount(cents), d)
    ensures Inner(d)
  {
    var low, high := Double(TWO_52, BOTTOM), Double(TWO_52, TOP);
    RangeEnds(low, high);
    Squeezed(Amount(cents), d, low, high);
    ExponentAtLeast(d, low);
    if d.e > TOP {
      BinadeBelow(high, Double(TWO_52, d.e));
      ScaleOrder(TWO_52, d.m, Pow2(d.e));
      assert false;
    }
  }

  // ----- two short decimals near one double are equal

  function Shifted(c: nat, k: nat): nat { if k == 0 then c else 10 * Shifted(c, k - 1) }

  /** A decimal is a whole number of any smaller power of ten. */
  lemma {:induction false} WholeMultiple(t: Decimal, k: nat)
    ensures DecimalValue(t) == Scale(Shifted(t.coefficient, k), Pow10(t.exponent - k))
  {
    if k > 0 {
      WholeMultiple(t, k - 1);
      Pow10Next(t.exponent - k);
      ScaleTen(Shifted(t.coefficient, k - 1), Pow10(t.exponent - k));
    }
  }

  /** Distinct decimals differ by at least the unit of the one with the smaller exponent. */
  lemma DecimalsApart(s: Decimal, t: Decimal)
    requires s.exponent <= t.exponent && DecimalValue(s) != DecimalValue(t)
    ensures Gap(DecimalValue(s), DecimalValue(t)) >= Pow10(s.exponent)
  {
    WholeMultiple(t, t.exponent - s.exponent);
    var c := Shifted(t.coefficient, t.exponent - s.exponent);
    var unit := Pow10(s.exponent);
    if s.coefficient < c {
      ScaleOrder(s.coefficient, c, unit);
    } else {
      ScaleOrder(c, s.coefficient, unit);
    }
  }

  lemma ShortDecimalsAgree(s: Decimal, t: Decimal, d: Double)
    requires s.coefficient < AMOUNT_LIMIT && s.exponent <= t.exponent
    requires Inner(d) && RoundsTo(DecimalValue(s), d) && RoundsTo(DecimalValue(t), d)
    ensures DecimalValue(s) == DecimalValue(t)
  {
    if DecimalValue(s) != DecimalValue(t) {
      var unit, ulp := Pow10(s.exponent), Pow2(d.e);
      DecimalsApart(s, t);
      WithinHalfUlp(DecimalValue(s), d);
      WithinHalfUlp(DecimalValue(t), d);
      assert unit <= ulp;
      ScaleGrows(s.coefficient, unit, ulp);
      ScaleOrder(s.coefficient, d.m, ulp);
      assert false;
    }
  }

  // ----- the trip

  /** Whatever double the amount rounds to and whatever shortest text is printed for it, the text denotes the amount. */
  lemma AmountSurvives(cents: nat, d: Double, t: Decimal)
    requires IsAmount(cents) && RoundsTo(Amount(cents), d) && Prints(d, t)
    ensures DecimalValue(t) == Amount(cents)
  {
    var exact := Decimal(cents, -2);
    AmountDecimal(cents);
    AmountIsInner(cents, d);
    TwelveDigits(cents);
    TwelveDigits(t.coefficient);
    assert RoundsTo(DecimalValue(exact), d);
    if t.exponent <= -2 {
      ShortDecimalsAgree(t, exact, d);
    } else {
      ShortDecimalsAgree(exact, t, d);
    }
  }

  // ----- such a double and such a text exist

  /** The exponent of the binade that holds x. */
  function Binade(x: real, e: int): (r: int)
    requires e <= TOP && Scale(TWO_52, Pow2(e)) <= x < Scale(TWO_53, Pow2(TOP))
    ensures e <= r <= TOP && Scale(TWO_52, Pow2(r)) <= x < Scale(TWO_53, Pow2(r))
    decreases TOP - e
  {
    if x < Scale(TWO_53, Pow2(e)) then e
    else
      ScaleTwice(TWO_52, Pow2(e));
      Binade(x, e + 1)
  }

  /** The last multiple of p in a binade that is not above x. */
  function LastBelow(x: real, p: real, m: nat): (r: nat)
    requires p > 0.0 && m < TWO_53 && Scale(m, p) <= x < Scale(TWO_53, p)
    ensures m <= r < TWO_53 && Scale(r, p) <= x < Scale(r, p) + p
    decreases TWO_53 - m
  {
    if x < Scale(m, p) + p then m else LastBelow(x, p, m + 1)
  }

  /** The multiple of p nearest to x, given the last one that is not above x; ties to even. */
  function NearestMultiple(x: real, p: real, m: nat): nat {
    var rest := x - Scale(m, p);
    if rest < p / 2.0 || (rest == p / 2.0 && m % 2 == 0) then m else m + 1
  }

  predicate InRange(x: real) { Value(Double(TWO_52, BOTTOM)) <= x < Value(Double(TWO_53, TOP)) }

  /** n ulps of the binade e, as a normal double. */
  function Normal(n: nat, e: int): Double {
    if n < TWO_53 then Double(n, e) else Double(TWO_52, e + 1)
  }

  lemma NormalMeans(n: nat, e: int)
    requires TWO_52 <= n <= TWO_53 && LOWEST < e < HIGHEST - 1
    ensures Inner(Normal(n, e)) && Value(Normal(n, e)) == Scale(n, Pow2(e))
    ensures n % 2 == 0 ==> Normal(n, e).m % 2 == 0
  {
    Pow2Next(e);
    ScaleTwice(TWO_52, Pow2(e));
  }

  function Rounded(x: real): Double
    requires InRange(x)
  {
    var e := Binade(x, BOTTOM);
    Normal(NearestMultiple(x, Pow2(e), LastBelow(x, Pow2(e), TWO_52)), e)
  }

  lemma NearestOnGrid(x: real, p: real, m: nat, k: nat)
    requires p > 0.0 && Scale(m, p) <= x < Scale(m, p) + p
    ensures var n := NearestMultiple(x, p, m);
      k == n || Gap(x, Scale(n, p)) < Gap(x, Scale(k, p)) || (Gap(x, Scale(n, p)) == Gap(x, Scale(k, p)) && n % 2 == 0)
  {
    if k <= m {
      ScaleOrder(k, m, p);
    } else {
      ScaleOrder(m + 1, k, p);
    }
  }

  function Doubled(m: nat, k: nat): nat { if k == 0 then m else 2 * Doubled(m, k - 1) }

  lemma {:induction false} WholeUlps(d: Double, k: nat)
    ensures Value(d) == Scale(Doubled(d.m, k), Pow2(d.e - k))
  {
    if k > 0 {
      WholeUlps(d, k - 1);
      Pow2Next(d.e - k);
      ScaleTwice(Doubled(d.m, k - 1), Pow2(d.e - k));
    }
  }

  /** A finite double is a multiple of p == 2^e or lies below the binade of x. */
  lemma NotNearer(x: real, e: int, m: nat, c: Double)
    requires Finite(c) && TWO_52 <= m && Scale(m, Pow2(e)) <= x < Scale(m, Pow2(e)) + Pow2(e)
    ensures var n := NearestMultiple(x, Pow2(e), m);
      var nearest := Scale(n, Pow2(e));
      Value(c) == nearest || Gap(x, nearest) < Gap(x, Value(c)) || (Gap(x, nearest) == Gap(x, Value(c)) && n % 2 == 0)
  {
    if c.e >= e {
      WholeUlps(c, c.e - e);
      NearestOnGrid(x, Pow2(e), m, Doubled(c.m, c.e - e));
    } else {
      BinadeBelow(c, Double(TWO_52, e));
      ScaleOrder(TWO_52, m, Pow2(e));
      NearestOnGrid(x, Pow2(e), m, m);
    }
  }

  /** The rounding computed here is the rounding to nearest, ties to even, among all finite doubles. */
  lemma RoundedIsNearest(x: real)
    requires InRange(x)
    ensures RoundsTo(x, Rounded(x))
  {
    var e := Binade(x, BOTTOM);
    var m := LastBelow(x, Pow2(e), TWO_52);
    var n := NearestMultiple(x, Pow2(e), m);
    NormalMeans(n, e);
    forall c: Double | Finite(c)
      ensures Gap(x, Scale(n, Pow2(e))) < Gap(x, Value(c)) || Value(c) == Scale(n, Pow2(e))
           || (Gap(x, Scale(n, Pow2(e))) == Gap(x, Value(c)) && n % 2 == 0)
    {
      NotNearer(x, e, m, c);
    }
  }

  function Stripped(t: Decimal): Decimal
    decreases t.coefficient
  {
    if t.coefficient > 0 && t.coefficient % 10 == 0 then Stripped(Decimal(t.coefficient / 10, t.exponent + 1)) else t
  }

  lemma {:induction false} StrippedMeans(t: Decimal)
    requires t.coefficient > 0
    ensures DecimalValue(Stripped(t)) == DecimalValue(t)
    ensures 0 < Stripped(t).coefficient <= t.coefficient && Stripped(t).coefficient % 10 != 0
    decreases t.coefficient
  {
    if t.coefficient % 10 == 0 {
      Pow10Next(t.exponent);
      ScaleTen(t.coefficient / 10, Pow10(t.exponent));
      StrippedMeans(Decimal(t.coefficient / 10, t.exponent + 1));
    }
  }

  lemma {:induction false} ShiftedAtLeast(c: nat, k: nat)
    ensures Shifted(c, k) >= c
    ensures k > 0 ==> Shifted(c, k) % 10 == 0
  {
    if k > 0 {
      ShiftedAtLeast(c, k - 1);
    }
  }

  lemma {:induction false} DigitsGrow(a: nat, b: nat)
    requires a <= b
    ensures Digits(a) <= Digits(b)
  {
    if a >= 10 {
      DigitsGrow(a / 10, b / 10);
    }
  }

  lemma SameScale(a: nat, b: nat, p: real)
    requires p > 0.0 && Scale(a, p) == Scale(b, p)
    ensures a == b
  {
    if a < b { ScaleOrder(a, b, p); }
    if b < a { ScaleOrder(b, a, p); }
  }

  /** Without trailing zeros a decimal has the fewest digits of all decimals with its value. */
  lemma StrippedIsShortest(t: Decimal, other: Decimal)
    requires t.coefficient % 10 != 0 && DecimalValue(t) == DecimalValue(other)
    ensures Digits(t.coefficient) <= Digits(other.coefficient)
  {
    if other.exponent <= t.exponent {
      var k := t.exponent - other.exponent;
      WholeMultiple(t, k);
      SameScale(Shifted(t.coefficient, k), other.coefficient, Pow10(other.exponent));
      ShiftedAtLeast(t.coefficient, k);
      DigitsGrow(t.coefficient, other.coefficient);
    } else {
      var k := other.exponent - t.exponent;
      WholeMultiple(other, k);
      SameScale(Shifted(other.coefficient, k), t.coefficient, Pow10(t.exponent));
      ShiftedAtLeast(other.coefficient, k);
      assert false;
    }
  }

  /** Every amount has a nearest double, and its own digits are what is printed for that double. */
  lemma AmountPrintsItself(cents: nat)
    requires IsAmount(cents)
    ensures InRange(Amount(cents)) && RoundsTo(Amount(cents), Rounded(Amount(cents)))
    ensures Prints(Rounded(Amount(cents)), Stripped(Decimal(cents, -2)))
  {
    AmountInRange(cents);
    var d, t := Rounded(Amount(cents)), Stripped(Decimal(cents, -2));
    RoundedIsNearest(Amount(cents));
    AmountDecimal(cents);
    StrippedMeans(Decimal(cents, -2));
    forall other: Decimal | RoundsTo(DecimalValue(other), d)
      ensures || Digits(t.coefficient) < Digits(other.coefficient)
              || (Digits(t.coefficient) == Digits(other.coefficient) && Gap(DecimalValue(t), Value(d)) <= Gap(DecimalValue(other), Value(d)))
    {
      NoShorter(cents, d, t, other);
    }
  }

  lemma AmountInRange(cents: nat)
    requires IsAmount(cents)
    ensures InRange(Amount(cents))
  {
    var low, high := Double(TWO_52, BOTTOM), Double(TWO_52, TOP);
    RangeEnds(low, high);
    ScaleOrder(TWO_52, TWO_53, Pow2(TOP));
  }

  lemma NoShorter(cents: nat, d: Double, t: Decimal, other: Decimal)
    requires IsAmount(cents) && RoundsTo(Amount(cents), d) && RoundsTo(DecimalValue(other), d)
    requires t.coefficient <= cents && t.coefficient % 10 != 0 && DecimalValue(t) == Amount(cents)
    ensures Digits(t.coefficient) < Digits(other.coefficient)
         || (Digits(t.coefficient) <= Digits(other.coefficient) && DecimalValue(other) == DecimalValue(t))
  {
    TwelveDigits(t.coefficient);
    TwelveDigits(other.coefficient);
    if other.coefficient < AMOUNT_LIMIT {
      AmountIsInner(cents, d);
      if other.exponent <= t.exponent {
        ShortDecimalsAgree(other, t, d);
      } else {
        ShortDecimalsAgree(t, other, d);
      }
      StrippedIsShortest(t, other);
    }
  }
}
