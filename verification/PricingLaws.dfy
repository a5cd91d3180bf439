/** What the price of an advance satisfies, for every non-negative principal and every non-negative rate. */
module PricingLaws {
  import opened Rounding
  import opened Pricing
  import opened Tables

  lemma BreakdownBalances(principal: Paise, s: Rates)
    ensures var b := ComputeRepaymentBreakdown(principal, s);
            && b.interestFree + b.interestBearing == principal
            && b.total == principal + b.interest + b.processingFee + b.gst
  {
  }

  predicate NonNegative(s: Rates) {
    s.annualRate >= 0.0 && s.threshold >= 0.0 && s.feeRate >= 0.0 && s.gstRate >= 0.0 && s.interestDays >= 0
  }

  // Order

  /** Interest on one paisa. */
  function Factor(s: Rates): real {
    s.annualRate * s.interestDays as real / 36500.0
  }

  lemma InterestByFactor(bearing: real, s: Rates)
    ensures ExactInterest(bearing, s) == bearing * Factor(s)
  {
    var r, n := s.annualRate, s.interestDays as real;
    assert bearing * r / 100.0 * n / 365.0 == bearing * (r * n / 36500.0) by {
      assert bearing * r * n == bearing * (r * n);
    }
  }

  lemma ProductMonotone(x: real, x': real, y: real, y': real)
    requires 0.0 <= x <= x' && 0.0 <= y <= y'
    ensures 0.0 <= x * y <= x' * y'
  {
    ScaleMonotone(x, x', y);
    ScaleMonotone(y, y', x');
    ScaleMonotone(0.0, x, y);
  }

  lemma FactorMonotone(s: Rates, s': Rates)
    requires NonNegative(s) && s.annualRate <= s'.annualRate && s.interestDays <= s'.interestDays
    ensures 0.0 <= Factor(s) <= Factor(s')
  {
    ProductMonotone(s.annualRate, s'.annualRate, s.interestDays as real, s'.interestDays as real);
  }

  predicate NoCheaper(s: Rates, s': Rates) {
    && s.annualRate <= s'.annualRate && s.interestDays <= s'.interestDays
    && s.feeRate <= s'.feeRate && s.gstRate <= s'.gstRate && s'.threshold <= s.threshold
  }

  lemma InterestMonotone(bearing: Paise, bearing': Paise, s: Rates, s': Rates)
    requires 0 <= bearing <= bearing' && NonNegative(s) && s.annualRate <= s'.annualRate
    requires s.interestDays <= s'.interestDays
    ensures 0 <= Interest(bearing, s) <= Interest(bearing', s')
  {
    hide ExactInterest, Factor;
    FactorMonotone(s, s');
    InterestByFactor(bearing as real, s);
    InterestByFactor(bearing' as real, s');
    ProductMonotone(bearing as real, bearing' as real, Factor(s), Factor(s'));
    RoundOrder(ExactInterest(bearing as real, s), ExactInterest(bearing' as real, s'));
  }

  lemma ChargeMonotone(amount: Paise, amount': Paise, rate: real, rate': real)
    requires 0 <= amount <= amount' && 0.0 <= rate <= rate'
    ensures 0 <= Charge(amount, rate) <= Charge(amount', rate')
  {
    ProductMonotone(amount as real, amount' as real, rate, rate');
    RoundOrder(ExactCharge(amount as real, rate), ExactCharge(amount' as real, rate'));
  }

  /** The charges never fall when the principal, the days or a rate rise, or the free threshold falls. */
  lemma ChargesMonotone(p: Paise, p': Paise, s: Rates, s': Rates)
    requires 0 <= p <= p' && NonNegative(s) && NonNegative(s') && NoCheaper(s, s')
    ensures var b, b' := ComputeRepaymentBreakdown(p, s), ComputeRepaymentBreakdown(p', s');
            && 0 <= b.interestBearing <= b'.interestBearing && 0 <= b.interest <= b'.interest
            && 0 <= b.processingFee <= b'.processingFee && 0 <= b.gst <= b'.gst
  {
    hide FreePart, Interest, Charge, ExactCharge;
    var b, b' := ComputeRepaymentBreakdown(p, s), ComputeRepaymentBreakdown(p', s');
    BearingMonotone(p, p', s.threshold, s'.threshold);
    InterestMonotone(b.interestBearing, b'.interestBearing, s, s');
    ChargeMonotone(p, p', s.feeRate, s'.feeRate);
    ChargeMonotone(b.interest + b.processingFee, b'.interest + b'.processingFee, s.gstRate, s'.gstRate);
  }

  lemma RoundOrder(x: real, y: real)
    requires 0.0 <= x <= y
    ensures 0 <= RoundHalfUp(x) <= RoundHalfUp(y)
  {
  }

  lemma BearingMonotone(p: Paise, p': Paise, threshold: real, threshold': real)
    requires 0 <= p <= p' && 0.0 <= threshold' <= threshold
    ensures 0 <= p - FreePart(p, threshold) <= p' - FreePart(p', threshold')
  {
    RoundWhole(p);
    RoundWhole(p');
    RoundOrder(Min(p as real, threshold), p as real);
    if p' as real <= threshold' {
    } else if p as real <= threshold {
      RoundOrder(threshold', p' as real);
    } else {
      RoundOrder(threshold', threshold);
    }
  }

  /** A larger advance always costs more in total, even after rounding. */
  lemma TotalStrictlyIncreases(p: Paise, q: Paise, s: Rates)
    requires 0 <= p < q && NonNegative(s)
    ensures ComputeRepaymentBreakdown(p, s).total < ComputeRepaymentBreakdown(q, s).total
  {
    hide ComputeRepaymentBreakdown;
    ChargesMonotone(p, q, s, s);
    BreakdownBalances(p, s);
    BreakdownBalances(q, s);
  }

  /** More days or higher rates never make an advance cheaper. */
  lemma TotalNeverFalls(p: Paise, s: Rates, s': Rates)
    requires 0 <= p && NonNegative(s) && NonNegative(s') && NoCheaper(s, s')
    ensures ComputeRepaymentBreakdown(p, s).total <= ComputeRepaymentBreakdown(p, s').total
  {
    hide ComputeRepaymentBreakdown;
    ChargesMonotone(p, p, s, s');
    BreakdownBalances(p, s);
    BreakdownBalances(p, s');
  }

  // Distance from the formula without rounding

  function ExactTotal(principal: real, s: Rates): real {
    var interest := ExactInterest(principal - Min(principal, s.threshold), s);
    var fee := ExactCharge(principal, s.feeRate);
    principal + interest + fee + ExactCharge(interest + fee, s.gstRate)
  }

  function Distance(x: real, y: real): real {
    if x < y then y - x else x - y
  }

  /** Three roundings cost at most one and a half paise, and GST on one of them. */
  lemma TotalNearExact(p: Paise, s: Rates, threshold: nat)
    requires p >= 0 && NonNegative(s) && s.threshold == threshold as real
    ensures Distance(ComputeRepaymentBreakdown(p, s).total as real, ExactTotal(p as real, s)) <= 1.5 + s.gstRate
  {
    hide Interest, Charge, ExactInterest, ExactCharge, Factor, FreePart;
    var b := ComputeRepaymentBreakdown(p, s);
    FreeIsWhole(p, threshold);
    BreakdownBalances(p, s);
    assert b.interestBearing as real == p as real - Min(p as real, s.threshold);
    ChargesMonotone(p, p, s, s);
    InterestDrift(b.interestBearing, s);
    ChargeDrift(p, s.feeRate);
    ChargeDrift(b.interest + b.processingFee, s.gstRate);
    var exact := ExactInterest(b.interestBearing as real, s) + ExactCharge(p as real, s.feeRate);
    GstDrift((b.interest + b.processingFee) as real, exact, s.gstRate);
  }

  lemma InterestDrift(bearing: Paise, s: Rates)
    requires bearing >= 0 && NonNegative(s)
    ensures Distance(Interest(bearing, s) as real, ExactInterest(bearing as real, s)) <= 0.5
  {
    hide ExactInterest;
    assert Interest(bearing, s) == RoundHalfUp(ExactInterest(bearing as real, s));
  }

  lemma ChargeDrift(amount: Paise, rate: real)
    requires amount >= 0 && rate >= 0.0
    ensures Distance(Charge(amount, rate) as real, ExactCharge(amount as real, rate)) <= 0.5
  {
    hide ExactCharge;
    assert Charge(amount, rate) == RoundHalfUp(ExactCharge(amount as real, rate));
  }

  lemma FreeIsWhole(p: Paise, threshold: nat)
    requires p >= 0
    ensures FreePart(p, threshold as real) as real == Min(p as real, threshold as real)
  {
    RoundWhole(p);
    RoundWhole(threshold);
  }

  lemma GstDrift(x: real, y: real, g: real)
    requires g >= 0.0 && Distance(x, y) <= 1.0
    ensures Distance(ExactCharge(x, g), ExactCharge(y, g)) <= g
  {
    var d := x - y;
    ScaleMonotone(-1.0, d, g);
    ScaleMonotone(d, 1.0, g);
    var u, v := x * g, y * g;
    assert d * g == u - v;
    assert -1.0 * g <= u - v <= 1.0 * g;
  }

  // The preview, and what is charged from the stored snapshot

  /** The snapshot as its columns hold it, each rounded to its scale. */
  function Stored(s: Rates, recoveryDate: Instant): Terms
    requires NonNegative(s)
  {
    Terms(RoundHalfUp(s.annualRate * 100.0), RoundHalfUp(s.threshold), RoundHalfUp(s.feeRate * 10000.0),
          RoundHalfUp(s.gstRate * 10000.0), s.interestDays, recoveryDate)
  }

  /** Half-up rounding commutes with the minimum with a whole number of paise. */
  lemma RoundedMinimum(p: Paise, threshold: real)
    requires p >= 0 && threshold >= 0.0
    ensures FreePart(p, threshold) == FreePart(p, RoundHalfUp(threshold) as real)
  {
    RoundWhole(p);
    RoundWhole(RoundHalfUp(threshold));
    if p as real <= threshold {
      RoundOrder(p as real, threshold);
    } else {
      RoundOrder(threshold, p as real);
    }
  }

  lemma SameFreePart(p: Paise, s: Rates, s': Rates)
    requires s' == s.(threshold := s'.threshold) && FreePart(p, s.threshold) == FreePart(p, s'.threshold)
    ensures ComputeRepaymentBreakdown(p, s) == ComputeRepaymentBreakdown(p, s')
  {
    hide FreePart, Charge;
  }
}
