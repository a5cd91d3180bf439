/** src/pricing/pricing.service.ts: the price of an advance. */
module Pricing {
  import opened Rounding
  import opened Tables

  /** The pricing inputs of a snapshot, before any column has rounded them. */
  datatype Rates = Rates(
    annualRate: real,     // percent a year
    threshold: real,      // paise
    feeRate: real,        // fraction
    gstRate: real,        // fraction
    interestDays: int)

  /** The same inputs read back from the snapshot columns. */
  function FromColumns(t: Terms): Rates {
    Rates(
      t.annualRate as real / 100.0,
      t.threshold as real,
      t.feeRate as real / 10000.0,
      t.gstRate as real / 10000.0,
      t.interestDays)
  }

  function Min(x: real, y: real): real {
    if y < x then y else x
  }

  /** Interest before rounding, in paise. */
  function ExactInterest(bearing: real, s: Rates): real {
    bearing * s.annualRate / 100.0 * s.interestDays as real / 365.0
  }

  function FreePart(principal: Paise, threshold: real): Paise {
    RoundHalfUp(Min(principal as real, threshold))
  }

  function Interest(bearing: Paise, s: Rates): Paise {
    RoundHalfUp(ExactInterest(bearing as real, s))
  }

  /** A charge at a rate on an amount: the processing fee and GST. */
  function ExactCharge(amount: real, rate: real): real {
    amount * rate
  }

  function Charge(amount: Paise, rate: real): Paise {
    RoundHalfUp(ExactCharge(amount as real, rate))
  }

  function ComputeRepaymentBreakdown(principal: Paise, s: Rates): Breakdown {
    var free := FreePart(principal, s.threshold);
    var bearing := RoundHalfUp((principal - free) as real);
    var interest := Interest(bearing, s);
    var fee := Charge(principal, s.feeRate);
    var gst := Charge(interest + fee, s.gstRate);
    var total := RoundHalfUp((principal + interest + fee + gst) as real);
    Breakdown(free, bearing, interest, fee, gst, total)
  }
}
