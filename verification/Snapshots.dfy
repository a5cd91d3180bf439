/** The snapshot that preview and submission freeze: src/loan-applications/loan-applications.service.ts. */
module Snapshots {
  import opened Wrappers
  import opened Tables
  import opened Pricing
  import opened PricingLaws
  import opened PreviewLaws
  import opened Calendar
  import opened RecoveryDates

  /** The pricing and eligibility rules of the active product config. */
  datatype Config = Config(
    annualRate: real,
    feeRate: real,
    gstRate: real,
    advancePercentage: Option<real>,
    maxAdvance: Option<real>)

  datatype Payroll = Payroll(payrollDay: int, cutoff: int)

  /** Interest-free up to a share of salary or a platform maximum, whichever is less, in paise. */
  function InterestFreeThreshold(salary: Paise, config: Config): real {
    Min(salary as real * (config.advancePercentage.GetOr(10.0) / 100.0), 100.0 * config.maxAdvance.GetOr(5000.0))
  }

  function ComputeSnapshot(config: Config, salary: Paise, submission: Civil, time: int, payroll: Payroll): Rates {
    Rates(config.annualRate, InterestFreeThreshold(salary, config), config.feeRate, config.gstRate,
          InterestDays(submission, time, payroll.payrollDay, payroll.cutoff))
  }

  function RecoveryInstant(submission: Civil, payroll: Payroll): Instant {
    Milliseconds(ResolveRecoveryDate(submission, payroll.payrollDay, payroll.cutoff), 0)
  }

  /** The threshold is the lesser of a share of the salary, 10 percent of it when none is configured, and the platform
      maximum, 5,000 rupees when none is configured: neither is ever exceeded, and it is one of them. */
  lemma ThresholdIsTheLesser(salary: Paise, config: Config)
    ensures var threshold := InterestFreeThreshold(salary, config);
            var share := if config.advancePercentage.Some? then salary as real * config.advancePercentage.value / 100.0
                         else salary as real / 10.0;
            var most := if config.maxAdvance.Some? then config.maxAdvance.value * 100.0 else 500_000.0;
            threshold <= share && threshold <= most && (threshold == share || threshold == most)
  {
  }

  /** The snapshot takes the configured rates, that threshold, and at least one day, counted from the day of
      submission to the day of recovery, whose midnight is the recovery instant. */
  lemma SnapshotTakes(config: Config, salary: Paise, day: Civil, time: int, payroll: Payroll)
    requires 0 <= time < MS_PER_DAY
    ensures var s, recovery := ComputeSnapshot(config, salary, day, time, payroll), RecoveryInstant(day, payroll);
            && s == Rates(config.annualRate, InterestFreeThreshold(salary, config), config.feeRate, config.gstRate,
                          s.interestDays)
            && recovery % 86400000 == 0
            && (var days := recovery / 86400000 - DayNumber(day); s.interestDays == if days > 1 then days else 1)
  {
    hide InterestFreeThreshold, ResolveRecoveryDate, DayNumber, InterestDays;
    InterestDaysAreCivilDays(day, time, payroll.payrollDay, payroll.cutoff);
  }

  /** A salary of 30,000 rupees and no configuration give 3,000 rupees, one of 80,000 the 5,000. */
  lemma DefaultThresholds(config: Config)
    requires config.advancePercentage == None && config.maxAdvance == None
    ensures InterestFreeThreshold(3_000_000, config) == 300_000.0
    ensures InterestFreeThreshold(8_000_000, config) == 500_000.0
  {
  }

  /** A preview and a submission at any two times of the same day take the same snapshot, so when the configured
      rates fit their columns every advance is charged as previewed; rates as they are configured fit exactly when
      every amount of the columns is. */
  lemma PreviewedThatDay(config: Config, salary: Paise, day: Civil, previewed: int, submitted: int, payroll: Payroll)
    requires 0 <= previewed < MS_PER_DAY && 0 <= submitted < MS_PER_DAY
    requires NonNegative(ComputeSnapshot(config, salary, day, previewed, payroll))
    ensures var preview := ComputeSnapshot(config, salary, day, previewed, payroll);
            var stored := FromColumns(Stored(ComputeSnapshot(config, salary, day, submitted, payroll),
                                            RecoveryInstant(day, payroll)));
            && (SnapshotFits(preview) ==>
                  forall p: nat :: ComputeRepaymentBreakdown(p, preview) == ComputeRepaymentBreakdown(p, stored))
            && (Configured(preview) ==> (SamePrice(preview, stored) <==> SnapshotFits(preview)))
  {
    hide ComputeRepaymentBreakdown, Stored, SnapshotFits, FromColumns, InterestFreeThreshold, Configured, SamePrice;
    InterestDaysAreCivilDays(day, previewed, payroll.payrollDay, payroll.cutoff);
    InterestDaysAreCivilDays(day, submitted, payroll.payrollDay, payroll.cutoff);
    var preview := ComputeSnapshot(config, salary, day, previewed, payroll);
    if SnapshotFits(preview) {
      var stored := FromColumns(Stored(preview, RecoveryInstant(day, payroll)));
      forall p: nat
        ensures ComputeRepaymentBreakdown(p, preview) == ComputeRepaymentBreakdown(p, stored)
      {
        PreviewIsCharge(p, preview, RecoveryInstant(day, payroll));
      }
    }
    if Configured(preview) { PreviewIsChargeIff(preview, RecoveryInstant(day, payroll)); }
  }
}
