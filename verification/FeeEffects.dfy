/** What each operation on a platform fee does with nothing beside it, written out row by row. */
module FeeEffects {
  import opened Wrappers
  import opened Tables
  import opened Steps
  import opened Lifecycle
  import opened LedgerInvariant
  import opened ApplicationEffects

  /** The application awaits its fee, the caller is its employee, and the fee exists or has a configured price. */
  ghost predicate AwaitsPaymentBy(db: Db, a: Id, employee: Id, env: Env) {
    && a in db.applications && db.applications[a].employee == employee
    && db.applications[a].status == AwaitingPlatformFee
    && (a in db.fees || env.feeAmount.Some?)
  }

  /** The fee of an application that awaits it, created at the configured price when it is missing. */
  ghost function FeesWith(db: Db, a: Id, env: Env): map<Id, Fee>
    requires a in db.fees || env.feeAmount.Some?
  {
    if a in db.fees then db.fees else db.fees[a := Fee(env.feeAmount.value, PendingPayment)]
  }

  /** A CREATED order of the fee that has not expired. */
  ghost predicate HasOpenOrder(db: Db, a: Id, now: Instant) {
    exists o :: o in db.orders && db.orders[o].fee == a && db.orders[o].status == Created
                && now < db.orders[o].expiresAt
  }

  /** A refused caller changes nothing, a cleared fee is left alone, an open order is handed out again; otherwise a
      new order over the fee's amount is open for fifteen minutes, unless the gateway's id is taken. A missing fee is
      created in either case. */
  lemma InitiatePaymentEffect(db: Db, a: Id, employee: Id, env: Env)
    ensures var after := Alone(db, Fees(InitiatePayment(a, employee)), env);
            if !AwaitsPaymentBy(db, a, employee, env) then after == Finished(db, true)
            else if a in db.fees && (db.fees[a].status == FeePaid || db.fees[a].status == FeeWaived) then
              after == Finished(db, false)
            else
              var priced := db.(fees := FeesWith(db, a, env));
              if HasOpenOrder(db, a, env.now) then after == Finished(priced, false)
              else if env.gatewayOrder in db.orders then after == Finished(priced, true)
              else
                var order := Order(a, priced.fees[a].amount, Created, env.now + 900000);
                after == Finished(priced.(orders := db.orders[env.gatewayOrder := order]), false)
  {
    hide Alone, HasOpenOrder, FindOrderRead, CreateOrderCommit,
         ApplicationStep, DisbursalStep, RepaymentStep, PayrollStep, SettlementStep, JobStep;
    AloneStep(db, Fees(InitiatePayment(a, employee)), env);
    AloneStep(db, Fees(EnsureFee(a)), env);
    if AwaitsPaymentBy(db, a, employee, env) {
      var priced := db.(fees := FeesWith(db, a, env));
      if a !in db.fees { AloneStep(db, Fees(CreateFee(a, env.feeAmount.value)), env); }
      FindOrderEffect(priced, a, env);
      assert HasOpenOrder(priced, a, env.now) == HasOpenOrder(db, a, env.now) by { SameOrders(db, priced, a, env.now); }
    }
  }

  lemma SameOrders(db: Db, db': Db, a: Id, now: Instant)
    requires db'.orders == db.orders
    ensures HasOpenOrder(db, a, now) == HasOpenOrder(db', a, now)
  {
  }

  lemma FindOrderEffect(db: Db, a: Id, env: Env)
    requires a in db.fees
    ensures var after := Alone(db, Fees(FindOrder(a, db.fees[a].amount)), env);
            if HasOpenOrder(db, a, env.now) then after == Finished(db, false)
            else if env.gatewayOrder in db.orders then after == Finished(db, true)
            else
              var order := Order(a, db.fees[a].amount, Created, env.now + 900000);
              after == Finished(db.(orders := db.orders[env.gatewayOrder := order]), false)
  {
    hide Alone, ApplicationStep, DisbursalStep, RepaymentStep, PayrollStep, SettlementStep, JobStep;
    AloneStep(db, Fees(FindOrder(a, db.fees[a].amount)), env);
    AloneStep(db, Fees(CreateOrder(a, db.fees[a].amount)), env);
  }

  /** From every lawful state: a call that succeeds leaves the fee cleared, or a CREATED order over the fee's amount
      that is still open; and it adds an order if and only if the fee was unpaid, no order was open and the gateway's
      id was free, for exactly fifteen minutes. No older order changes. */
  lemma PaymentCanBeMade(db: Db, a: Id, employee: Id, env: Env)
    requires Inv(db)
    ensures var after := Alone(db, Fees(InitiatePayment(a, employee)), env);
            var db' := after.db;
            && (!after.threw ==>
                  a in db'.fees
                  && (db'.fees[a].status in {FeePaid, FeeWaived}
                      || exists o: Id :: o in db'.orders && db'.orders[o].fee == a && db'.orders[o].status == Created
                                         && db'.orders[o].expiresAt > env.now
                                         && db'.orders[o].amount == db'.fees[a].amount))
            && (forall o: Id :: o in db.orders ==> o in db'.orders && db'.orders[o] == db.orders[o])
            && (forall o: Id :: o in db'.orders && o !in db.orders <==>
                  && o == env.gatewayOrder && o !in db.orders && AwaitsPaymentBy(db, a, employee, env)
                  && !(a in db.fees && db.fees[a].status in {FeePaid, FeeWaived})
                  && !HasOpenOrder(db, a, env.now))
            && (forall o: Id :: o in db'.orders && o !in db.orders ==>
                  a in db'.fees && db'.orders[o] == Order(a, db'.fees[a].amount, Created, env.now + 15 * 60 * 1000))
  {
    hide Alone;
    InitiatePaymentEffect(db, a, employee, env);
  }

  /** An uncleared fee becomes WAIVED, and an application that awaits it EMPLOYER_APPROVED; all or nothing. */
  lemma WaiveEffect(db: Db, a: Id, env: Env)
    ensures var after := Alone(db, Fees(Waive(a)), env);
            if a !in db.fees || a !in db.applications then after == Finished(db, true)
            else if db.fees[a].status == FeePaid || db.fees[a].status == FeeWaived then after == Finished(db, false)
            else
              var row, waived := db.applications[a], db.(fees := db.fees[a := db.fees[a].(status := FeeWaived)]);
              if row.status != AwaitingPlatformFee then after == Finished(waived, false)
              else if AnotherActive(db, a) then after == Finished(db, true)
              else
                var moved := row.(status := EmployerApproved);
                after == Finished(Moved(waived, a, moved, Some(AwaitingPlatformFee)), false)
  {
    hide Alone, AnotherActive, IndexAllows,
         ApplicationStep, DisbursalStep, RepaymentStep, PayrollStep, SettlementStep, JobStep;
    AloneStep(db, Fees(Waive(a)), env);
    if a in db.fees && a in db.applications {
      AloneStep(db, Fees(WaiveWrite(a, db.applications[a])), env);
      var waived := db.(fees := db.fees[a := db.fees[a].(status := FeeWaived)]);
      SameIndex(db, waived, a, EmployerApproved);
      IndexIsAnother(db, a, EmployerApproved);
    }
  }

  lemma SameIndex(db: Db, db': Db, a: Id, s: Status)
    requires a in db.applications && db'.applications == db.applications
    ensures IndexAllows(db, a, s) == IndexAllows(db', a, s)
  {
  }

  /** The order is CAPTURED; an uncleared fee of its application becomes PAID, with one event if either was new, and
      an application that awaited it becomes EMPLOYER_APPROVED; all or nothing. */
  lemma CaptureEffect(db: Db, order: Id, env: Env)
    ensures var after := Alone(db, Fees(Capture(order)), env);
            if order !in db.orders then after == Finished(db, true)
            else
              var a := db.orders[order].fee;
              var unpaid := a in db.fees && db.fees[a].status != FeePaid && db.fees[a].status != FeeWaived;
              var orders := db.orders[order := db.orders[order].(status := Captured)];
              var fees := if unpaid then db.fees[a := db.fees[a].(status := FeePaid)] else db.fees;
              var event := if unpaid || db.orders[order].status != Captured then [Event(order, PaymentCaptured)]
                           else [];
              var captured := db.(orders := orders, fees := fees, events := db.events + event);
              if !(unpaid && a in db.applications && db.applications[a].status == AwaitingPlatformFee) then
                after == Finished(captured, false)
              else if AnotherActive(db, a) then after == Finished(db, true)
              else
                var moved := db.applications[a].(status := EmployerApproved);
                after == Finished(Moved(captured, a, moved, Some(AwaitingPlatformFee)), false)
  {
    hide Alone, AnotherActive, IndexAllows,
         ApplicationStep, DisbursalStep, RepaymentStep, PayrollStep, SettlementStep, JobStep;
    AloneStep(db, Fees(Capture(order)), env);
    if order in db.orders {
      var a := db.orders[order].fee;
      AloneStep(db, Fees(CaptureWrite(order, a)), env);
      assert db.events + [] == db.events;
      if a in db.applications && Finalizes(db.fees, a) {
        var paid := db.(orders := db.orders[order := db.orders[order].(status := Captured)],
                        fees := db.fees[a := db.fees[a].(status := FeePaid)],
                        events := db.events + [Event(order, PaymentCaptured)]);
        SameIndex(db, paid, a, EmployerApproved);
        IndexIsAnother(db, a, EmployerApproved);
      }
    }
  }

  /** A failure report takes the order back to ATTEMPTED with one event; an unknown order is ignored. */
  lemma FailPaymentEffect(db: Db, order: Id, env: Env)
    ensures var after := Alone(db, Fees(FailPayment(order)), env);
            && !after.threw
            && (order !in db.orders ==> after.db == db)
            && (order in db.orders ==>
                  after.db == db.(orders := db.orders[order := db.orders[order].(status := Attempted)],
                                  events := db.events + [Event(order, PaymentFailed)]))
  {
    hide Alone, ApplicationStep, DisbursalStep, RepaymentStep, PayrollStep, SettlementStep, JobStep;
    AloneStep(db, Fees(FailPayment(order)), env);
    AloneStep(db, Fees(FailPaymentWrite(order)), env);
  }

  /** Whoever is not the employee of an application neither cancels it nor pays its fee, and whoever is not its
      company neither approves nor rejects it: the call throws and nothing changes. */
  lemma StrangerRefused(db: Db, a: Id, caller: Id, env: Env)
    ensures (a in db.applications ==> db.applications[a].employee != caller) ==>
              && Alone(db, Applications(Cancel(a, caller)), env) == Finished(db, true)
              && Alone(db, Fees(InitiatePayment(a, caller)), env) == Finished(db, true)
    ensures (a in db.applications ==> db.applications[a].employer != caller) ==>
              && Alone(db, Applications(EmployerApprove(a, caller)), env) == Finished(db, true)
              && Alone(db, Applications(EmployerReject(a, caller)), env) == Finished(db, true)
  {
    hide Alone;
    CancelEffect(db, a, caller, env);
    InitiatePaymentEffect(db, a, caller, env);
    EmployerApproveEffect(db, a, caller, env);
    EmployerRejectEffect(db, a, caller, env);
  }
}
