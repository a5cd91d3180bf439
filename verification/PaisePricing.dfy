/** The price of an advance from its stored terms in whole numbers only, and one calculated by hand. */
module PaisePricing {
  import opened Tables
  import opened Rounding
  import opened Pricing

  /** To the nearest, halves up. */
  function Nearest(n: nat, d: nat): nat
    requires d > 0
  {
    (2 * n + d) / (2 * d)
  }

  /** Free up to the threshold; on the rest simple interest at `annualRate` hundredths of a percent for the days out
      of 365; a fee of `feeRate` ten-thousandths of the whole; GST of `gstRate` ten-thousandths of both charges. */
  function PriceInPaise(principal: nat, t: Terms): Breakdown {
    var free := if principal <= t.threshold then principal else t.threshold;
    var bearing := principal - free;
    var interest := Nearest(bearing * t.annualRate * t.interestDays, 10_000 * 365);
    var fee := Nearest(principal * t.feeRate, 10_000);
    var gst := Nearest((interest + fee) * t.gstRate, 10_000);
    Breakdown(free, bearing, interest, fee, gst, principal + interest + fee + gst)
  }

  lemma NearestRounds(n: nat, d: nat)
    requires d > 0
    ensures Nearest(n, d) == RoundHalfUp(n as real / d as real)
  {
    hide RoundHalfUp;
    var q := Nearest(n, d);
    DivisionBounds(2 * n + d, 2 * d);
    assert 2 * d * q <= 2 * n + d < 2 * d * q + 2 * d;
    RoundFraction(n, d, q);
  }

  lemma DivisionBounds(n: nat, d: nat)
    requires d > 0
    ensures d * (n / d) <= n < d * (n / d) + d
  {
  }

  lemma ChargeInPaise(amount: nat, rate: nat)
    ensures Charge(amount, rate as real / 10000.0) == Nearest(amount * rate, 10_000)
  {
    hide RoundHalfUp, Nearest;
    assert amount as real * (rate as real / 10000.0) == (amount * rate) as real / 10000.0 by {
      WholeProduct(amount, rate);
    }
    NearestRounds(amount * rate, 10_000);
  }

  lemma InterestInPaise(bearing: nat, t: Terms)
    ensures Interest(bearing, FromColumns(t)) == Nearest(bearing * t.annualRate * t.interestDays, 10_000 * 365)
  {
    hide RoundHalfUp, Nearest;
    var b, r, d := bearing as real, t.annualRate as real, t.interestDays as real;
    WholeProduct(bearing, t.annualRate);
    WholeProduct(bearing * t.annualRate, t.interestDays);
    var n := bearing * t.annualRate * t.interestDays;
    assert n as real == b * r * d;
    InterestFraction(b, r, d);
    NearestRounds(n, 10_000 * 365);
  }

  lemma InterestFraction(b: real, r: real, d: real)
    ensures b * (r / 100.0) / 100.0 * d / 365.0 == b * r * d / 3650000.0
  {
    var x := b * r;
    assert b * (r / 100.0) == x / 100.0;
    assert x / 100.0 / 100.0 * d == x * d / 10000.0;
  }

  /** Pricing from stored terms is this whole-number arithmetic, to the paisa. */
  lemma PricedInPaise(principal: nat, t: Terms)
    ensures ComputeRepaymentBreakdown(principal, FromColumns(t)) == PriceInPaise(principal, t)
  {
    hide RoundHalfUp, Nearest, Interest, Charge;
    var s := FromColumns(t);
    var free := if principal <= t.threshold then principal else t.threshold;
    RoundWhole(free);
    RoundWhole(principal - free);
    InterestInPaise(principal - free, t);
    ChargeInPaise(principal, t.feeRate);
    var charges := Interest(principal - free, s) + Charge(principal, s.feeRate);
    ChargeInPaise(charges, t.gstRate);
    RoundWhole(principal + charges + Charge(charges, s.gstRate));
  }

  /** 5,000 rupees for 19 days at 36 percent a year, the first 500 free, with a fee of 2 percent and GST of 18
      percent: 84.33 interest, 100.00 fee, 33.18 GST, 5,217.51 in all. */
  lemma HandCalculated(recoveryDate: Instant)
    ensures ComputeRepaymentBreakdown(500_000, FromColumns(Terms(3600, 50_000, 200, 1800, 19, recoveryDate)))
            == Breakdown(50_000, 450_000, 8_433, 10_000, 3_318, 521_751)
  {
    hide ComputeRepaymentBreakdown, FromColumns;
    PricedInPaise(500_000, Terms(3600, 50_000, 200, 1800, 19, recoveryDate));
  }
}
