/** What paying out an advance and paying it back do with nothing beside them, written out row by row. */
module DisbursalEffects {
  import opened Wrappers
  import opened Tables
  import opened Steps
  import opened Lifecycle
  import opened ApplicationEffects
  import opened PaisePricing
  import Pricing

  /** Whether the employer's settlements allow a payout, and the fee is paid or waived. */
  ghost predicate PayoutAllowed(db: Db, a: Id)
    requires a in db.applications
  {
    && (db.applications[a].employer in db.risk ==> db.risk[db.applications[a].employer] != Blocked)
    && a in db.fees && (db.fees[a].status == FeePaid || db.fees[a].status == FeeWaived)
  }

  /** An existing disbursal is left alone; a new one is PENDING over the amounts of a READY_FOR_DISBURSAL application
      with a cleared fee and an unblocked employer. */
  lemma CreateDisbursalEffect(db: Db, a: Id, env: Env)
    ensures var after := Alone(db, Disbursals(CreateDisbursal(a)), env);
            if a !in db.applications then after == Finished(db, true)
            else if a in db.disbursals then after == Finished(db, false)
            else if db.applications[a].status != ReadyForDisbursal || !PayoutAllowed(db, a) then
              after == Finished(db, true)
            else
              var row := db.applications[a];
              var amount := if row.adminApproved.Some? then row.adminApproved.value else row.requested;
              var pending := Disbursal(row.requested, amount, Some(amount), Pending);
              after == Finished(db.(disbursals := db.disbursals[a := pending]), false)
  {
    hide Alone, ApplicationStep, FeeStep, RepaymentStep, PayrollStep, SettlementStep, JobStep;
    AloneStep(db, Disbursals(CreateDisbursal(a)), env);
    if a in db.applications {
      var row := db.applications[a];
      AloneStep(db, Disbursals(FindDisbursal(a, row)), env);
      AloneStep(db, Disbursals(DisbursalRisk(a, row)), env);
      AloneStep(db, Disbursals(DisbursalFee(a, row)), env);
      AloneStep(db, Disbursals(CreateDisbursalWrite(a, row)), env);
    }
  }

  /** A SUCCESS disbursal is left alone. A PENDING one is paid out behind every guard: it is SUCCESS over its amount,
      the repayment of that amount at the price of the frozen terms is created unless there is one, and the
      application moves on; all or nothing. */
  lemma DisburseEffect(db: Db, a: Id, env: Env)
    ensures var after := Alone(db, Disbursals(Disburse(a)), env);
            if a in db.disbursals && db.disbursals[a].status == Success then after == Finished(db, false)
            else if a !in db.disbursals || db.disbursals[a].status != Pending || a !in db.applications
                    || !PayoutAllowed(db, a) || !env.bankVerified || AnotherActive(db, a) then
              after == Finished(db, true)
            else
              var row, pending := db.applications[a], db.disbursals[a];
              var amount := if pending.disbursed.Some? then pending.disbursed.value else pending.approved;
              var price := Pricing.ComputeRepaymentBreakdown(amount, Pricing.FromColumns(row.terms));
              var owed := Repayment(amount, price, row.terms.recoveryDate, Scheduled);
              var paid := db.(disbursals := db.disbursals[a := pending.(status := Success, disbursed := Some(amount))],
                              repayments := if a in db.repayments then db.repayments else db.repayments[a := owed]);
              && after == Finished(Moved(paid, a, row.(status := RepaymentScheduled), Some(row.status)), false)
              && (amount >= 0 ==> price == PriceInPaise(amount, row.terms))
  {
    hide Alone, AnotherActive, IndexAllows, Pricing.ComputeRepaymentBreakdown, Pricing.FromColumns, PriceInPaise,
         DisburseCommit, ApplicationStep, FeeStep, RepaymentStep, PayrollStep, SettlementStep, JobStep;
    AloneStep(db, Disbursals(Disburse(a)), env);
    if a in db.disbursals && a in db.applications {
      var row, pending := db.applications[a], db.disbursals[a];
      var amount := pending.disbursed.GetOr(pending.approved);
      var price := Pricing.ComputeRepaymentBreakdown(amount, Pricing.FromColumns(row.terms));
      AloneStep(db, Disbursals(DisburseApplication(a, pending)), env);
      AloneStep(db, Disbursals(DisburseFee(a, pending, row)), env);
      AloneStep(db, Disbursals(DisburseWrite(a, amount, price, row)), env);
      if pending.status == Pending { PayoutWrites(db, a, amount, price); }
      if amount >= 0 { PricedInPaise(amount, row.terms); }
    } else if a in db.disbursals {
      AloneStep(db, Disbursals(DisburseApplication(a, db.disbursals[a])), env);
    }
  }

  lemma PayoutWrites(db: Db, a: Id, amount: Paise, price: Breakdown)
    requires a in db.disbursals && a in db.applications && db.disbursals[a].status == Pending
    ensures var row := db.applications[a];
            var owed := Repayment(amount, price, row.terms.recoveryDate, Scheduled);
            var success := db.disbursals[a].(status := Success, disbursed := Some(amount));
            var paid := db.(disbursals := db.disbursals[a := success],
                            repayments := if a in db.repayments then db.repayments else db.repayments[a := owed]);
            DisburseCommit(db, a, amount, price, row)
            == if AnotherActive(db, a) then Threw
               else Wrote(Moved(paid, a, row.(status := RepaymentScheduled), Some(row.status)), None)
  {
    hide IndexAllows, AnotherActive;
    var row := db.applications[a];
    var success := db.disbursals[a].(status := Success, disbursed := Some(amount));
    var claimed := db.(disbursals := db.disbursals[a := success]);
    var owed := Repayment(amount, price, row.terms.recoveryDate, Scheduled);
    var paid := if a in db.repayments then claimed else claimed.(repayments := db.repayments[a := owed]);
    IndexIsAnother(db, a, RepaymentScheduled);
    IndexIsAnother(paid, a, RepaymentScheduled);
    SameAnother(db, paid, a);
  }

  lemma SameAnother(db: Db, db': Db, a: Id)
    requires a in db.applications && db'.applications == db.applications
    ensures AnotherActive(db, a) == AnotherActive(db', a)
  {
  }

  /** A PAID repayment is left alone; any other becomes PAID and its application REPAID, all or nothing. */
  lemma PayEffect(db: Db, a: Id, env: Env)
    ensures var after := Alone(db, Repayments(Pay(a)), env);
            if a in db.repayments && db.repayments[a].status == Paid then after == Finished(db, false)
            else if a !in db.repayments || a !in db.applications then after == Finished(db, true)
            else
              var row := db.applications[a];
              var paid := db.(repayments := db.repayments[a := db.repayments[a].(status := Paid)]);
              after == Finished(Moved(paid, a, row.(status := Repaid), Some(row.status)), false)
  {
    hide Alone, ApplicationStep, FeeStep, DisbursalStep, PayrollStep, SettlementStep, JobStep;
    AloneStep(db, Repayments(Pay(a)), env);
    AloneStep(db, Repayments(PayWrite(a)), env);
  }

  /** A write that arrives when its work is done changes nothing: a second payout, a second payment, a second
      capture. */
  lemma DoneOnce(db: Db, a: Id, amount: Paise, price: Breakdown, seen: Application, order: Id, env: Env)
    ensures a in db.disbursals && db.disbursals[a].status != Pending ==>
              After(db, Advance(db, Disbursals(DisburseWrite(a, amount, price, seen)), env)) == db
    ensures a in db.repayments && db.repayments[a].status == Paid ==>
              After(db, Advance(db, Repayments(PayWrite(a)), env)) == db
    ensures order in db.orders && db.orders[order].status == Captured
            && a in db.fees && db.fees[a].status in {FeePaid, FeeWaived} ==>
              After(db, Advance(db, Fees(CaptureWrite(order, a)), env)) == db
  {
    if order in db.orders && db.orders[order].status == Captured {
      assert db.orders[order := db.orders[order].(status := Captured)] == db.orders;
    }
  }
}
