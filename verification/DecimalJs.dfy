/**
 decimal.js with its defaults, which the pricing code never overrides: every
 operation keeps 20 significant digits, halves away from zero. Amounts here are
 in rupees, as in the code.
 */
module DecimalJs {
  import opened Rounding
  import opened Pricing
  import opened Tables

  const TEN_TO_19: real := 10000000000000000000.0
  const TEN_TO_20: real := 100000000000000000000.0

  function Digits20(x: real): real
    requires x >= 0.0
    decreases if x >= TEN_TO_20 then x.Floor else 0, if 0.0 < x < TEN_TO_19 then (TEN_TO_19 / x).Floor else 0
  {
    if x == 0.0 then 0.0
    else if x >= TEN_TO_20 then 10.0 * Digits20(x / 10.0)
    else if x < TEN_TO_19 then
      FewerSteps(x);
      Digits20(10.0 * x) / 10.0
    else RoundHalfUp(x) as real
  }

  lemma FewerSteps(x: real)
    requires 0.0 < x < TEN_TO_19
    ensures 0 <= (TEN_TO_19 / (10.0 * x)).Floor < (TEN_TO_19 / x).Floor
  {
    var y := TEN_TO_19 / x;
    assert y * x == TEN_TO_19;
    assert y > 1.0 by { if y <= 1.0 { ScaleMonotone(y, 1.0, x); assert false; } }
    assert TEN_TO_19 / (10.0 * x) == y / 10.0;
  }

  /** `x` to 20 significant digits: what every arithmetic operation returns of its exact result. */
  function Sig20(x: real): real {
    if x < 0.0 then -Digits20(-x) else Digits20(x)
  }

  /** `toDecimalPlaces(2)`, as a number of paise. */
  function ToPaise(rupees: real): Paise {
    RoundHalfUp(100.0 * rupees)
  }

  function Rupees(p: Paise): real {
    p as real / 100.0
  }

  function Times20(x: real, y: real): real {
    Sig20(x * y)
  }

  function DividedBy20(x: real, y: real): real
    requires y != 0.0
  {
    Sig20(x / y)
  }

  /** The interest before the last division. */
  function Accrued20(bearing: Paise, t: Terms): real {
    Times20(DividedBy20(Times20(Rupees(bearing), t.annualRate as real / 100.0), 100.0), t.interestDays as real)
  }

  function Interest20(bearing: Paise, t: Terms): Paise {
    ToPaise(DividedBy20(Accrued20(bearing, t), 365.0))
  }

  function Charge20(rupees: real, rate: nat): Paise {
    ToPaise(Times20(rupees, rate as real / 10000.0))
  }

  function Total20(principal: Paise, interest: Paise, fee: Paise, gst: Paise): Paise {
    ToPaise(Sig20(Sig20(Sig20(Rupees(principal) + Rupees(interest)) + Rupees(fee)) + Rupees(gst)))
  }

  /** `computeRepaymentBreakdown` as the chain of decimal.js operations it is. */
  function Breakdown20(principal: Paise, t: Terms): Breakdown {
    var free := ToPaise(Min(Rupees(principal), Rupees(t.threshold)));
    var bearing := ToPaise(Sig20(Rupees(principal) - Rupees(free)));
    var interest := Interest20(bearing, t);
    var fee := Charge20(Rupees(principal), t.feeRate);
    var gst := Charge20(Sig20(Rupees(interest) + Rupees(fee)), t.gstRate);
    Breakdown(free, bearing, interest, fee, gst, Total20(principal, interest, fee, gst))
  }
}

/** Rounding to 20 digits on the way never shows in the paise. */
module DecimalJsLaws {
  import opened Rounding
  import opened Pricing
  import opened PricingLaws
  import opened Tables
  import opened DecimalJs

  /** `x` with the decimal point moved `j` places. */
  function Scale(x: real, j: nat): real {
    x * Pow10(j) as real
  }

  lemma ScaleNone(x: real)
    ensures Scale(x, 0) == x
  {
  }

  lemma ScaleMore(x: real, j: nat)
    ensures Scale(x, j + 1) == Scale(10.0 * x, j)
  {
    var p := Pow10(j);
    assert Pow10(j + 1) as real == 10.0 * p as real;
  }

  lemma ScaleAtLeast(x: real, j: nat)
    requires x >= 0.0
    ensures Scale(x, j) >= x
  {
    Pow10Positive(j);
    ScaleMonotone(1.0, Pow10(j) as real, x);
  }

  /** A value with at most 20 digits in all is kept as it is. */
  lemma {:induction false} Exact(x: real, c: nat, j: nat)
    requires x >= 0.0 && Scale(x, j) == c as real && c as real < TEN_TO_20
    ensures Digits20(x) == x
    decreases if 0.0 < x < TEN_TO_19 then (TEN_TO_19 / x).Floor else 0
  {
    hide Scale;
    ScaleNone(x);
    if j > 0 { ScaleMore(x, j - 1); }
    if x == 0.0 {
    } else if x < TEN_TO_19 {
      FewerSteps(x);
      ScaleNone(10.0 * x);
      if j == 0 { Exact(10.0 * x, 10 * c, 0); } else { Exact(10.0 * x, c, j - 1); }
    } else if j == 0 {
      RoundWhole(c);
    } else {
      ScaleAtLeast(10.0 * x, j - 1);
      assert false;
    }
  }

  /** Below 10^20 the 20 digits are a rounding to some number of decimals. */
  lemma {:induction false} Scaled(x: real) returns (s: nat)
    requires 0.0 < x < TEN_TO_20
    ensures Scale(Digits20(x), s) == RoundHalfUp(Scale(x, s)) as real
    ensures Scale(x, s) >= TEN_TO_19
    decreases if x < TEN_TO_19 then (TEN_TO_19 / x).Floor else 0
  {
    hide Scale;
    if x < TEN_TO_19 {
      FewerSteps(x);
      s := Scaled(10.0 * x);
      ScaleMore(x, s);
      ScaleMore(Digits20(x), s);
      s := s + 1;
    } else {
      s := 0;
      ScaleNone(x);
      ScaleNone(Digits20(x));
    }
  }

  // The steps of the chain

  /** The column ranges: Decimal(12, 2), Decimal(5, 2), Decimal(5, 4), and at most 61 days of interest. */
  predicate InColumns(principal: Paise, t: Terms) {
    && 0 <= principal < 1000000000000 && t.threshold < 1000000000000
    && t.annualRate < 100000 && t.feeRate < 100000 && t.gstRate < 100000 && t.interestDays <= 61
  }

  /** A sum or a single amount in rupees keeps its two decimals. */
  lemma RupeesExact(p: Paise)
    requires 0 <= p < 1000000000000000000
    ensures Sig20(Rupees(p)) == Rupees(p) && ToPaise(Rupees(p)) == p
  {
    assert Pow10(2) == 100;
    assert Scale(Rupees(p), 2) == p as real;
    Exact(Rupees(p), p, 2);
    RoundWhole(p);
  }

  lemma SixDecimals(x: real, c: nat)
    requires x * 1000000.0 == c as real && c < 100000000000000000000
    ensures Sig20(x) == x
  {
    assert Pow10(6) == 1000000;
    Exact(x, c, 6);
  }

  /** Every step of the interest before the division by 365 is exact. */
  lemma AccruedExact(bearing: Paise, t: Terms)
    requires 0 <= bearing < 1000000000000 && t.annualRate < 100000 && t.interestDays <= 61
    ensures Accrued20(bearing, t) == (bearing * t.annualRate * t.interestDays) as real / 1000000.0
    ensures 0 <= bearing * t.annualRate * t.interestDays < 6200000000000000000
  {
    hide Times20, DividedBy20, Sig20;
    InterestBounds(bearing, t.annualRate, t.interestDays);
    var n := bearing * t.annualRate;
    MicroExact(n, 10000.0, 100);
    TimesExact(bearing, t.annualRate, 100.0, 100.0, 10000.0);
    DividedExact(n);
    MicroExact(n * t.interestDays, 1000000.0, 1);
    TimesExact(n, t.interestDays, 1000000.0, 1.0, 1000000.0);
  }

  lemma InterestBounds(bearing: nat, annual: nat, days: nat)
    requires bearing < 1000000000000 && annual < 100000 && days <= 61
    ensures 0 <= bearing * annual < 100000000000000000
    ensures 0 <= bearing * annual * days < 6200000000000000000
    ensures (bearing * annual * days) as real == (bearing * annual) as real * days as real
  {
    BoundedProduct(bearing, annual, 1000000000000, 100000);
    BoundedProduct(bearing * annual, days, 100000000000000000, 62);
    WholeProduct(bearing * annual, days);
  }

  /** A product with at most 20 digits is not rounded. */
  lemma TimesExact(x: nat, y: nat, a: real, b: real, ab: real)
    requires a > 0.0 && b > 0.0 && ab == a * b
    requires Sig20((x * y) as real / ab) == (x * y) as real / ab
    ensures Times20(x as real / a, y as real / b) == (x * y) as real / ab
  {
    hide Sig20;
    ExactProduct(x, y, a, b, ab);
  }

  lemma MicroExact(m: nat, ab: real, k: nat)
    requires ab > 0.0 && ab * k as real == 1000000.0 && k * m < 100000000000000000000
    ensures Sig20(m as real / ab) == m as real / ab
  {
    InMillionths(m, ab, k);
    SixDecimals(m as real / ab, k * m);
  }

  lemma ExactProduct(x: nat, y: nat, a: real, b: real, ab: real)
    requires a > 0.0 && b > 0.0 && ab == a * b
    ensures (x as real / a) * (y as real / b) == (x * y) as real / ab
  {
    WholeProduct(x, y);
    ProductOfQuotients(x as real, y as real, a, b);
  }

  lemma InMillionths(m: nat, ab: real, k: nat)
    requires ab > 0.0 && ab * k as real == 1000000.0
    ensures m as real / ab * 1000000.0 == (k * m) as real
  {
    WholeProduct(k, m);
    assert m as real / ab * ab == m as real;
  }

  lemma DividedExact(n: nat)
    requires n < 100000000000000000
    ensures DividedBy20(n as real / 10000.0, 100.0) == n as real / 1000000.0
  {
    SixDecimals(n as real / 1000000.0, n);
  }

  lemma ProductOfQuotients(x: real, y: real, a: real, b: real)
    requires a > 0.0 && b > 0.0
    ensures (x / a) * (y / b) == (x * y) / (a * b)
  {
  }

  lemma BoundedProduct(x: nat, y: nat, a: nat, b: nat)
    requires x < a && y < b
    ensures 0 <= x * y < a * b
  {
  }

  /** Rounding a quotient by 365 to 20 digits and then to paise is rounding it once. */
  lemma QuotientRoundsOnce(n: nat)
    requires n < 6200000000000000000
    ensures ToPaise(Sig20(n as real / 1000000.0 / 365.0)) == RoundHalfUp(n as real / 3650000.0)
  {
    if n > 0 {
      hide Digits20, Scale, Pow10, RoundHalfUp;
      var x := n as real / 365000000.0;
      assert n as real / 1000000.0 / 365.0 == x;
      var s := Scaled(x);
      ManyDecimals(n, s);
      var p, q := DigitsOfQuotient(n, x, Digits20(x), s);
      QuotientInWhole(n, p, q);
    }
  }

  lemma DigitsOfQuotient(n: nat, x: real, d: real, s: nat) returns (p: nat, q: int)
    requires s >= 9 && x == n as real / 365000000.0 && Scale(d, s) == RoundHalfUp(Scale(x, s)) as real
    ensures p > 365 && q == RoundHalfUp((n * p) as real / 365.0) && 100.0 * d == q as real / (10000 * p) as real
  {
    hide RoundHalfUp, Scale, Pow10;
    TenMillion(s);
    p := Pow10(s - 6);
    var power := Pow10(s);
    ScaleIs(x, s, power);
    ScaleIs(d, s, power);
    ScaledQuotient(n, p, power, x);
    q := RoundHalfUp(Scale(x, s));
    Unscaled(d, p, power, q);
  }

  lemma ScaleIs(x: real, s: nat, power: nat)
    requires Pow10(s) == power
    ensures Scale(x, s) == x * power as real
  {
  }

  lemma QuotientInWhole(n: nat, p: nat, q: int)
    requires p > 365 && q == RoundHalfUp((n * p) as real / 365.0)
    ensures RoundHalfUp(q as real / (10000 * p) as real) == RoundHalfUp(n as real / 3650000.0)
  {
    hide RoundHalfUp;
    var m := RoundHalfUp(n as real / 3650000.0);
    RoundFraction(n * p, 365, q);
    RoundFraction(n, 3650000, m);
    TwiceRounded(n, p, q, m);
    RoundFraction(q, 10000 * p, m);
  }

  lemma TenMillion(s: nat)
    requires s >= 9
    ensures Pow10(s) == 1000000 * Pow10(s - 6) && Pow10(s - 6) >= 1000
  {
    Pow10Positive(s - 9);
    assert Pow10(s - 8) == 10 * Pow10(s - 9) && Pow10(s - 7) == 10 * Pow10(s - 8) && Pow10(s - 6) == 10 * Pow10(s - 7);
    assert Pow10(s - 5) == 10 * Pow10(s - 6) && Pow10(s - 4) == 10 * Pow10(s - 5) && Pow10(s - 3) == 10 * Pow10(s - 4);
    assert Pow10(s - 2) == 10 * Pow10(s - 3) && Pow10(s - 1) == 10 * Pow10(s - 2) && Pow10(s) == 10 * Pow10(s - 1);
  }

  lemma {:induction false} Pow10Below(s: nat)
    requires s <= 8
    ensures Pow10(s) <= 100000000
  {
    assert Pow10(0) == 1 && Pow10(1) == 10 && Pow10(2) == 100 && Pow10(3) == 1000 && Pow10(4) == 10000;
    assert Pow10(5) == 100000 && Pow10(6) == 1000000 && Pow10(7) == 10000000 && Pow10(8) == 100000000;
  }

  lemma SmallScale(x: real, s: nat)
    requires x >= 0.0 && s <= 8
    ensures Scale(x, s) <= 100000000.0 * x
  {
    Pow10Below(s);
    ScaleMonotone(Pow10(s) as real, 100000000.0, x);
  }

  /** Amounts of this size leave at least nine decimals of a rupee in 20 digits. */
  lemma ManyDecimals(n: nat, s: nat)
    requires n < 6200000000000000000 && Scale(n as real / 365000000.0, s) >= TEN_TO_19
    ensures s >= 9
  {
    var x := n as real / 365000000.0;
    assert 0.0 <= x < 17000000000.0;
    if s <= 8 { SmallScale(x, s); }
  }

  lemma ScaledQuotient(n: nat, p: nat, power: nat, x: real)
    requires power == 1000000 * p && x == n as real / 365000000.0
    ensures x * power as real == (n * p) as real / 365.0
  {
    WholeProduct(n, p);
    assert power as real == 1000000.0 * p as real;
  }

  lemma Unscaled(d: real, p: nat, power: nat, q: int)
    requires p > 0 && power == 1000000 * p && d * power as real == q as real
    ensures 100.0 * d == q as real / (10000 * p) as real
  {
    var k := (10000 * p) as real;
    assert power as real == 100.0 * k;
    assert 100.0 * d * k == q as real;
    DividedBack(100.0 * d, k, q as real);
  }

  lemma DividedBack(y: real, k: real, q: real)
    requires k > 0.0 && y * k == q
    ensures y == q / k
  {
  }

  /** The gap that makes double rounding harmless: a fraction over 3650000 that is not a half is at least
      1/7300000 away from one. */
  lemma TwiceRounded(n: nat, p: nat, q: int, m: int)
    requires p > 365
    requires 2 * 365 * q - 365 <= 2 * (n * p) < 2 * 365 * q + 365
    requires 2 * 3650000 * m - 3650000 <= 2 * n < 2 * 3650000 * m + 3650000
    ensures q >= 0 && 2 * (10000 * p) * m - 10000 * p <= 2 * q < 2 * (10000 * p) * m + 10000 * p
  {
    var k, l := p * (2 * m - 1), p * (2 * m + 1);
    Times(p, 3650000 * (2 * m - 1), 2 * n);
    Times(p, 2 * n, 3650000 * (2 * m + 1) - 1);
    Expand(n, p, m);
    Between(n * p, p, q, k, l);
  }

  lemma Between(np: nat, p: nat, q: int, k: int, l: int)
    requires p > 365 && 3650000 * k <= 2 * np <= 3650000 * l - p
    requires 2 * 365 * q - 365 <= 2 * np < 2 * 365 * q + 365
    ensures q >= 0 && 10000 * k <= 2 * q < 10000 * l
  {
  }

  lemma Expand(n: nat, p: nat, m: int)
    ensures p * (2 * n) == 2 * (n * p) && n * p >= 0
    ensures p * (3650000 * (2 * m - 1)) == 3650000 * (p * (2 * m - 1))
    ensures p * (3650000 * (2 * m + 1) - 1) == 3650000 * (p * (2 * m + 1)) - p
    ensures 2 * (10000 * p) * m - 10000 * p == 10000 * (p * (2 * m - 1))
    ensures 2 * (10000 * p) * m + 10000 * p == 10000 * (p * (2 * m + 1))
  {
  }

  lemma Times(p: nat, x: int, y: int)
    requires x <= y
    ensures p * x <= p * y
  {
  }

  // The whole breakdown

  lemma InterestColumns(bearing: Paise, t: Terms)
    requires bearing >= 0
    ensures ExactInterest(bearing as real, FromColumns(t))
         == (bearing * t.annualRate * t.interestDays) as real / 3650000.0
  {
    WholeProduct(bearing, t.annualRate);
    WholeProduct(bearing * t.annualRate, t.interestDays);
    DividedProduct(bearing as real, t.annualRate as real, t.interestDays as real);
  }

  lemma DividedProduct(b: real, r: real, d: real)
    ensures b * (r / 100.0) / 100.0 * d / 365.0 == b * r * d / 3650000.0
  {
    assert b * (r / 100.0) == b * r / 100.0;
    var n := b * r;
    assert n / 10000.0 * d == n * d / 10000.0;
  }

  lemma InterestRefined(bearing: Paise, t: Terms)
    requires 0 <= bearing < 1000000000000 && t.annualRate < 100000 && t.interestDays <= 61
    ensures Interest20(bearing, t) == Interest(bearing, FromColumns(t))
    ensures 0 <= Interest20(bearing, t) < 2000000000000
  {
    hide Accrued20, ExactInterest, Sig20, FromColumns, ToPaise;
    var n := bearing * t.annualRate * t.interestDays;
    AccruedExact(bearing, t);
    InterestColumns(bearing, t);
    QuotientRoundsOnce(n);
    RoundedBelow(n as real / 3650000.0, 1999999999999);
  }

  lemma RoundedBelow(x: real, bound: nat)
    requires 0.0 <= x <= bound as real
    ensures 0 <= RoundHalfUp(x) <= bound
  {
  }

  lemma ChargeRefined(amount: Paise, rate: nat)
    requires 0 <= amount < 1000000000000000 && rate < 100000
    ensures Charge20(Rupees(amount), rate) == Charge(amount, rate as real / 10000.0)
    ensures 0 <= Charge20(Rupees(amount), rate) <= 10 * amount
  {
    hide Sig20, Times20;
    BoundedProduct(amount, rate, 1000000000000000, 100000);
    MicroExact(amount * rate, 1000000.0, 1);
    TimesExact(amount, rate, 100.0, 10000.0, 1000000.0);
    var m := amount * rate;
    WholeProduct(amount, rate);
    assert ExactCharge(amount as real, rate as real / 10000.0) == m as real / 10000.0;
    Tens(amount, rate);
    RoundedBelow(m as real / 10000.0, 10 * amount);
  }

  lemma Tens(amount: nat, rate: nat)
    requires rate < 100000
    ensures 0.0 <= (amount * rate) as real / 10000.0 <= (10 * amount) as real
  {
    assert amount * rate <= amount * 100000;
  }

  lemma TotalRefined(principal: Paise, interest: Paise, fee: Paise, gst: Paise)
    requires 0 <= principal && 0 <= interest && 0 <= fee && 0 <= gst
    requires principal + interest + fee + gst < 1000000000000000000
    ensures Total20(principal, interest, fee, gst) == principal + interest + fee + gst
  {
    hide Sig20, ToPaise;
    assert Rupees(principal) + Rupees(interest) == Rupees(principal + interest);
    assert Rupees(principal + interest) + Rupees(fee) == Rupees(principal + interest + fee);
    assert Rupees(principal + interest + fee) + Rupees(gst) == Rupees(principal + interest + fee + gst);
    RupeesExact(principal + interest);
    RupeesExact(principal + interest + fee);
    RupeesExact(principal + interest + fee + gst);
  }

  lemma FreeRefined(principal: Paise, t: Terms)
    requires 0 <= principal < 1000000000000
    ensures ToPaise(Min(Rupees(principal), Rupees(t.threshold))) == FreePart(principal, t.threshold as real)
    ensures 0 <= FreePart(principal, t.threshold as real) <= principal
    ensures ToPaise(Sig20(Rupees(principal) - Rupees(FreePart(principal, t.threshold as real))))
            == principal - FreePart(principal, t.threshold as real)
  {
    hide Sig20;
    FreeIsWhole(principal, t.threshold);
    var free := FreePart(principal, t.threshold as real);
    assert Rupees(principal) - Rupees(free) == Rupees(principal - free);
    RupeesExact(principal - free);
  }

  /** decimal.js and exact arithmetic rounded once a step give the same breakdown, on every column value. */
  lemma BreakdownRefined(principal: Paise, t: Terms)
    requires InColumns(principal, t)
    ensures Breakdown20(principal, t) == ComputeRepaymentBreakdown(principal, FromColumns(t))
  {
    hide Interest20, Charge20, Total20, ToPaise, Sig20, Min, FreePart, Interest, Charge;
    FreeRefined(principal, t);
    var bearing := principal - FreePart(principal, t.threshold as real);
    InterestRefined(bearing, t);
    ChargeRefined(principal, t.feeRate);
    var interest, fee := Interest20(bearing, t), Charge20(Rupees(principal), t.feeRate);
    assert Rupees(interest) + Rupees(fee) == Rupees(interest + fee);
    RupeesExact(interest + fee);
    ChargeRefined(interest + fee, t.gstRate);
    TotalRefined(principal, interest, fee, Charge20(Rupees(interest + fee), t.gstRate));
    RoundWhole(bearing);
    RoundWhole(principal + interest + fee + Charge20(Rupees(interest + fee), t.gstRate));
  }
}
