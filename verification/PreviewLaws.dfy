/** When the previewed price is the charged price: a rate with more decimals than its column tells them apart. */
module PreviewLaws {
  import opened Rounding
  import opened Pricing
  import opened PricingLaws
  import opened Tables

  /** At most `1 / unit` of a percent or of one: the scale of a rate column. */
  predicate Fits(rate: real, scale: real) {
    (rate * scale).Floor as real == rate * scale
  }

  /** No rate is changed by its column; a GST rate on nothing does not matter. */
  predicate SnapshotFits(s: Rates) {
    && Fits(s.annualRate, 100.0) && Fits(s.feeRate, 10000.0)
    && (Fits(s.gstRate, 10000.0) || (s.annualRate == 0.0 && s.feeRate == 0.0))
  }

  lemma ColumnKeeps(rate: real, scale: real)
    requires rate >= 0.0 && scale > 0.0
    ensures RoundHalfUp(rate * scale) as real / scale == rate <==> Fits(rate, scale)
  {
    var x := rate * scale;
    var r := RoundHalfUp(x) as real;
    if Fits(rate, scale) {
      RoundWhole(x.Floor);
      assert r / scale == rate;
    } else {
      assert r != x;
      assert r / scale * scale == r;
    }
  }

  /** Two rates that are at least a paisa apart on an amount charge differently for it. */
  lemma ChargesDiffer(amount: Paise, rate: real, rate': real)
    requires amount >= 0 && rate >= 0.0 && rate' >= 0.0
    requires Distance(ExactCharge(amount as real, rate), ExactCharge(amount as real, rate')) >= 1.0
    ensures Charge(amount, rate) != Charge(amount, rate')
  {
    var x, y := ExactCharge(amount as real, rate), ExactCharge(amount as real, rate');
    ProductMonotone(0.0, amount as real, 0.0, rate);
    ProductMonotone(0.0, amount as real, 0.0, rate');
    if x < y { RoundApart(x, y); } else { RoundApart(y, x); }
  }

  lemma InterestIsCharge(bearing: Paise, s: Rates)
    ensures Interest(bearing, s) == Charge(bearing, Factor(s))
  {
    hide ExactInterest, Factor;
    InterestByFactor(bearing as real, s);
  }

  lemma Parts(p: nat, s: Rates)
    ensures var b := ComputeRepaymentBreakdown(p, s);
            && b.interest == Charge(p - FreePart(p, s.threshold), Factor(s))
            && b.processingFee == Charge(p, s.feeRate)
            && b.gst == Charge(b.interest + b.processingFee, s.gstRate)
  {
    hide FreePart, Interest, Charge, Factor;
    RoundWhole(p - FreePart(p, s.threshold));
    InterestIsCharge(p - FreePart(p, s.threshold), s);
  }

  lemma BearingPart(p: nat, s: Rates)
    ensures ComputeRepaymentBreakdown(p, s).interestBearing == p - FreePart(p, s.threshold)
  {
    hide FreePart, Interest, Charge;
    RoundWhole(p - FreePart(p, s.threshold));
  }

  /** The largest amount of a `Decimal(12, 2)` column. */
  const LARGEST: nat := 999999999999

  /** Every amount the columns can hold is priced alike. */
  ghost predicate SamePrice(s: Rates, s': Rates) {
    forall p: nat :: p <= LARGEST ==> ComputeRepaymentBreakdown(p, s) == ComputeRepaymentBreakdown(p, s')
  }

  lemma FreeOfCharge(p: nat, s: Rates, g: real)
    requires s.annualRate == 0.0 && s.feeRate == 0.0
    ensures ComputeRepaymentBreakdown(p, s) == ComputeRepaymentBreakdown(p, s.(gstRate := g))
  {
    hide FreePart;
  }

  lemma StoredEffect(s: Rates, recoveryDate: Instant)
    requires NonNegative(s)
    ensures var s' := FromColumns(Stored(s, recoveryDate));
            && s'.threshold == RoundHalfUp(s.threshold) as real && s'.interestDays == s.interestDays && NonNegative(s')
            && (s'.annualRate == s.annualRate <==> Fits(s.annualRate, 100.0))
            && (s'.feeRate == s.feeRate <==> Fits(s.feeRate, 10000.0))
            && (s'.gstRate == s.gstRate <==> Fits(s.gstRate, 10000.0))
  {
    hide Fits, RoundHalfUp;
    ColumnKeeps(s.annualRate, 100.0);
    ColumnKeeps(s.feeRate, 10000.0);
    ColumnKeeps(s.gstRate, 10000.0);
  }

  lemma SameRatesSamePrice(p: nat, s: Rates, s': Rates)
    requires s'.annualRate == s.annualRate && s'.feeRate == s.feeRate && s'.interestDays == s.interestDays
    requires s'.gstRate == s.gstRate || (s.annualRate == 0.0 && s.feeRate == 0.0)
    requires FreePart(p, s.threshold) == FreePart(p, s'.threshold)
    ensures ComputeRepaymentBreakdown(p, s) == ComputeRepaymentBreakdown(p, s')
  {
    hide ComputeRepaymentBreakdown, FreePart;
    SameFreePart(p, s, s.(threshold := s'.threshold));
    if s'.gstRate != s.gstRate { FreeOfCharge(p, s.(threshold := s'.threshold), s'.gstRate); }
  }

  /** When no rate has more decimals than its column, every amount is charged as previewed, although only the preview
      saw the threshold before its column rounded it. */
  lemma PreviewIsCharge(p: nat, s: Rates, recoveryDate: Instant)
    requires NonNegative(s) && SnapshotFits(s)
    ensures ComputeRepaymentBreakdown(p, FromColumns(Stored(s, recoveryDate))) == ComputeRepaymentBreakdown(p, s)
  {
    hide ComputeRepaymentBreakdown, FreePart, Stored, Fits, FromColumns;
    StoredEffect(s, recoveryDate);
    RoundedMinimum(p, s.threshold);
    SameRatesSamePrice(p, s, FromColumns(Stored(s, recoveryDate)));
  }

  /** A column moves its rate by at least a paisa on the largest amount: in fee, in interest, or in GST. */
  predicate DriftsByAPaisa(s: Rates, s': Rates) {
    var b := ComputeRepaymentBreakdown(LARGEST, s);
    || Distance(ExactCharge(LARGEST as real, s.feeRate), ExactCharge(LARGEST as real, s'.feeRate)) >= 1.0
    || Distance(ExactCharge(b.interestBearing as real, Factor(s)),
                ExactCharge(b.interestBearing as real, Factor(s'))) >= 1.0
    || Distance(ExactCharge((b.interest + b.processingFee) as real, s.gstRate),
                ExactCharge((b.interest + b.processingFee) as real, s'.gstRate)) >= 1.0
  }

  /** Then the largest amount of all is charged differently. */
  lemma DriftShows(s: Rates, s': Rates)
    requires NonNegative(s) && NonNegative(s') && s.interestDays == s'.interestDays
    requires FreePart(LARGEST, s.threshold) == FreePart(LARGEST, s'.threshold)
    requires DriftsByAPaisa(s, s')
    ensures ComputeRepaymentBreakdown(LARGEST, s) != ComputeRepaymentBreakdown(LARGEST, s')
  {
    hide ComputeRepaymentBreakdown, FreePart, Charge, ExactCharge, Factor, Distance;
    var b, b' := ComputeRepaymentBreakdown(LARGEST, s), ComputeRepaymentBreakdown(LARGEST, s');
    Parts(LARGEST, s);
    Parts(LARGEST, s');
    ChargesMonotone(LARGEST, LARGEST, s, s);
    FactorMonotone(s, s);
    FactorMonotone(s', s');
    BearingPart(LARGEST, s);
    if Distance(ExactCharge(LARGEST as real, s.feeRate), ExactCharge(LARGEST as real, s'.feeRate)) >= 1.0 {
      ChargesDiffer(LARGEST, s.feeRate, s'.feeRate);
    } else if Distance(ExactCharge(b.interestBearing as real, Factor(s)),
                       ExactCharge(b.interestBearing as real, Factor(s'))) >= 1.0 {
      ChargesDiffer(b.interestBearing, Factor(s), Factor(s'));
    } else {
      ChargesDiffer(b.interest + b.processingFee, s.gstRate, s'.gstRate);
    }
  }

  // When the largest amount shows it

  /** Rates as they are configured, with at most 7, 11 and 5 decimals, and a free threshold of at most half the
      largest amount. */
  predicate Configured(s: Rates) {
    && Fits(s.annualRate, 10000000.0) && Fits(s.feeRate, 100000000000.0) && Fits(s.gstRate, 100000.0)
    && s.threshold <= 500000000000.0
  }

  lemma GridGap(x: real, y: real, scale: real)
    requires scale > 0.0 && Fits(x, scale) && Fits(y, scale) && x != y
    ensures Distance(x, y) * scale >= 1.0
  {
    var m, n := (x * scale).Floor, (y * scale).Floor;
    assert m as real - n as real == (x - y) * scale;
    assert m != n;
  }

  lemma WholeFits(rate: real, scale: real, m: int)
    requires rate * scale == m as real
    ensures Fits(rate, scale)
  {
  }

  lemma FinerGrid(n: int, scale: real, k: nat)
    requires scale > 0.0
    ensures Fits(n as real / scale, scale * k as real)
  {
    var x := n as real / scale;
    assert x * (scale * k as real) == x * scale * k as real;
    WholeProduct(n, k);
    WholeFits(x, scale * k as real, n * k);
  }

  /** The stored rates lie on the grids of the configured ones. */
  lemma StoredOnGrids(s: Rates, recoveryDate: Instant)
    requires NonNegative(s)
    ensures var s' := FromColumns(Stored(s, recoveryDate));
            Fits(s'.annualRate, 10000000.0) && Fits(s'.feeRate, 100000000000.0) && Fits(s'.gstRate, 100000.0)
  {
    hide Fits, RoundHalfUp;
    var t := Stored(s, recoveryDate);
    FinerGrid(t.annualRate, 100.0, 100000);
    FinerGrid(t.feeRate, 10000.0, 10000000);
    FinerGrid(t.gstRate, 10000.0, 10);
  }

  lemma ScaledDistance(amount: real, x: real, y: real, gap: real)
    requires amount >= 0.0 && Distance(x, y) >= gap >= 0.0
    ensures Distance(ExactCharge(amount, x), ExactCharge(amount, y)) >= amount * gap
  {
    ScaleMonotone(gap, Distance(x, y), amount);
    assert (x - y) * amount == amount * x - amount * y;
    if x > y { ScaleMonotone(y, x, amount); } else { ScaleMonotone(x, y, amount); }
  }

  lemma FactorDistance(s: Rates, s': Rates)
    requires s.interestDays == s'.interestDays >= 1
    ensures Distance(Factor(s), Factor(s')) >= Distance(s.annualRate, s'.annualRate) / 36500.0
  {
    var d, n := s.annualRate - s'.annualRate, s.interestDays as real;
    assert Factor(s) - Factor(s') == d * n / 36500.0;
    if d >= 0.0 { ScaleMonotone(1.0, n, d); } else { ScaleMonotone(1.0, n, -d); }
  }

  lemma LargestBearing(s: Rates)
    requires NonNegative(s) && s.threshold <= 500000000000.0
    ensures LARGEST - FreePart(LARGEST, s.threshold) >= 499999999999
  {
    RoundOrder(Min(LARGEST as real, s.threshold), 500000000000.0);
    RoundWhole(500000000000);
  }

  lemma FeeDrift(s: Rates, s': Rates)
    requires Fits(s.feeRate, 100000000000.0) && Fits(s'.feeRate, 100000000000.0) && s.feeRate != s'.feeRate
    ensures Distance(ExactCharge(LARGEST as real, s.feeRate), ExactCharge(LARGEST as real, s'.feeRate)) >= 1.0
  {
    hide Fits, ExactCharge;
    GridGap(s.feeRate, s'.feeRate, 100000000000.0);
    ScaledDistance(LARGEST as real, s.feeRate, s'.feeRate, 1.0 / 100000000000.0);
  }

  lemma InterestDrifts(bearing: nat, s: Rates, s': Rates)
    requires Fits(s.annualRate, 10000000.0) && Fits(s'.annualRate, 10000000.0) && s.annualRate != s'.annualRate
    requires bearing >= 499999999999 && s.interestDays == s'.interestDays >= 1
    ensures Distance(ExactCharge(bearing as real, Factor(s)), ExactCharge(bearing as real, Factor(s'))) >= 1.0
  {
    hide Fits, ExactCharge, Factor;
    GridGap(s.annualRate, s'.annualRate, 10000000.0);
    FactorDistance(s, s');
    ScaledDistance(bearing as real, Factor(s), Factor(s'), 1.0 / 10000000.0 / 36500.0);
  }

  lemma GstDrifts(charges: nat, s: Rates, s': Rates)
    requires Fits(s.gstRate, 100000.0) && Fits(s'.gstRate, 100000.0) && s.gstRate != s'.gstRate && charges >= 100000
    ensures Distance(ExactCharge(charges as real, s.gstRate), ExactCharge(charges as real, s'.gstRate)) >= 1.0
  {
    hide Fits, ExactCharge;
    GridGap(s.gstRate, s'.gstRate, 100000.0);
    ScaledDistance(charges as real, s.gstRate, s'.gstRate, 1.0 / 100000.0);
  }

  /** A fee or interest rate that fits its column and is not zero makes the largest amount cost something. */
  lemma LargestCharges(s: Rates)
    requires NonNegative(s) && s.interestDays >= 1 && s.threshold <= 500000000000.0
    requires Fits(s.annualRate, 100.0) && Fits(s.feeRate, 10000.0) && (s.annualRate > 0.0 || s.feeRate > 0.0)
    ensures var b := ComputeRepaymentBreakdown(LARGEST, s); b.interest + b.processingFee >= 100000
  {
    hide ComputeRepaymentBreakdown, FreePart, Charge, Factor;
    Parts(LARGEST, s);
    LargestBearing(s);
    ChargesMonotone(LARGEST, LARGEST, s, s);
    if s.feeRate > 0.0 {
      OnePerUnit(s.feeRate, 10000.0);
      ChargeMonotone(LARGEST, LARGEST, 1.0 / 10000.0, s.feeRate);
      SmallestFee();
    } else {
      OnePerUnit(s.annualRate, 100.0);
      FactorFloor(s);
      ChargeMonotone(499999999999, LARGEST - FreePart(LARGEST, s.threshold), 0.01 / 36500.0, Factor(s));
      SmallestInterest();
    }
  }

  lemma OnePerUnit(x: real, scale: real)
    requires x > 0.0 && scale > 0.0 && Fits(x, scale)
    ensures x >= 1.0 / scale
  {
    assert x * scale > 0.0;
    assert x * scale >= 1.0;
    if x < 1.0 / scale { ScaleStrict(x, 1.0 / scale, scale); }
  }

  lemma FactorFloor(s: Rates)
    requires s.annualRate >= 0.01 && s.interestDays >= 1
    ensures Factor(s) >= 0.01 / 36500.0
  {
    ProductMonotone(0.01, s.annualRate, 1.0, s.interestDays as real);
  }

  lemma SmallestFee()
    ensures Charge(LARGEST, 1.0 / 10000.0) >= 100000
  {
  }

  lemma SmallestInterest()
    ensures Charge(499999999999, 0.01 / 36500.0) >= 100000
  {
  }

  /** For configured rates, every amount of the columns is charged as previewed exactly when no rate has more
      decimals than its column. */
  lemma PreviewIsChargeIff(s: Rates, recoveryDate: Instant)
    requires NonNegative(s) && s.interestDays >= 1 && Configured(s)
    ensures SamePrice(s, FromColumns(Stored(s, recoveryDate))) <==> SnapshotFits(s)
  {
    hide ComputeRepaymentBreakdown, Fits, Stored, FromColumns;
    var s' := FromColumns(Stored(s, recoveryDate));
    if SnapshotFits(s) {
      forall p: nat | p <= LARGEST ensures ComputeRepaymentBreakdown(p, s) == ComputeRepaymentBreakdown(p, s') {
        PreviewIsCharge(p, s, recoveryDate);
      }
    } else {
      MisfitDrifts(s, recoveryDate);
      StoredEffect(s, recoveryDate);
      RoundedMinimum(LARGEST, s.threshold);
      DriftShows(s, s');
    }
  }

  lemma MisfitDrifts(s: Rates, recoveryDate: Instant)
    requires NonNegative(s) && s.interestDays >= 1 && Configured(s) && !SnapshotFits(s)
    ensures DriftsByAPaisa(s, FromColumns(Stored(s, recoveryDate)))
  {
    hide ComputeRepaymentBreakdown, Fits, Stored, FromColumns, ExactCharge, Factor, Distance, FreePart;
    var s' := FromColumns(Stored(s, recoveryDate));
    StoredEffect(s, recoveryDate);
    StoredOnGrids(s, recoveryDate);
    BearingPart(LARGEST, s);
    LargestBearing(s);
    if !Fits(s.feeRate, 10000.0) {
      FeeDrift(s, s');
    } else if !Fits(s.annualRate, 100.0) {
      InterestDrifts(LARGEST - FreePart(LARGEST, s.threshold), s, s');
    } else {
      LargestCharges(s);
      var b := ComputeRepaymentBreakdown(LARGEST, s);
      GstDrifts(b.interest + b.processingFee, s, s');
    }
  }

  // A rate that fails, and one that no amount betrays

  /** A fee rate of 1.25 per mille is stored as 1.3: an advance of 10,000 rupees is previewed with a fee of 12.50
      and charged 13.00, whatever the other terms. */
  lemma OddFeeIsSeen(s: Rates, recoveryDate: Instant)
    requires NonNegative(s) && s.feeRate == 0.00125
    ensures ComputeRepaymentBreakdown(1000000, s).processingFee == 1250
    ensures ComputeRepaymentBreakdown(1000000, FromColumns(Stored(s, recoveryDate))).processingFee == 1300
  {
    hide FreePart, Interest;
    RoundWhole(1250);
    RoundWhole(1300);
  }

  /** A fee rate can miss its column by so little that every amount of the columns is charged as previewed. */
  lemma TinyMisfitIsUnseen(s: Rates, recoveryDate: Instant)
    requires NonNegative(s) && s.feeRate == 0.02000000000001 && Fits(s.annualRate, 100.0) && Fits(s.gstRate, 10000.0)
    ensures !SnapshotFits(s) && SamePrice(s, FromColumns(Stored(s, recoveryDate)))
  {
    hide ComputeRepaymentBreakdown, Stored, FromColumns, Charge;
    var s', near := FromColumns(Stored(s, recoveryDate)), s.(feeRate := 0.02);
    StoredEffect(s, recoveryDate);
    TinyFee(s, recoveryDate);
    forall p: nat | p <= LARGEST ensures ComputeRepaymentBreakdown(p, s) == ComputeRepaymentBreakdown(p, s') {
      TinyCharge(p);
      SameFee(p, s, near);
      RoundedMinimum(p, s.threshold);
      SameRatesSamePrice(p, near, s');
    }
  }

  lemma TinyFee(s: Rates, recoveryDate: Instant)
    requires NonNegative(s) && s.feeRate == 0.02000000000001
    ensures !Fits(s.feeRate, 10000.0) && FromColumns(Stored(s, recoveryDate)).feeRate == 0.02
  {
    assert RoundHalfUp(s.feeRate * 10000.0) == 200;
  }

  lemma TinyCharge(p: nat)
    requires p <= LARGEST
    ensures Charge(p, 0.02000000000001) == Charge(p, 0.02)
  {
    var n := Charge(p, 0.02);
    assert p <= 50 * n + 24;
  }

  lemma SameFee(p: nat, s: Rates, s': Rates)
    requires s' == s.(feeRate := s'.feeRate) && Charge(p, s.feeRate) == Charge(p, s'.feeRate)
    ensures ComputeRepaymentBreakdown(p, s) == ComputeRepaymentBreakdown(p, s')
  {
    hide FreePart, Charge, Factor;
    Parts(p, s);
    Parts(p, s');
    hide Interest;
    assert Factor(s) == Factor(s') by { SameFactor(s, s'); }
  }

  lemma SameFactor(s: Rates, s': Rates)
    requires s' == s.(feeRate := s'.feeRate)
    ensures Factor(s) == Factor(s')
  {
  }
}
