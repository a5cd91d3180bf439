/** src/platform-fees/platform-fees.service.ts, statement by statement. */
module PlatformFeesService {
  import opened Wrappers
  import opened Tables
  import opened Steps
  import opened Lifecycle

  method IsFeeCleared(db: Database, a: Id) returns (cleared: bool)
    ensures cleared <==> Cleared(db.fees, a)
  {
    cleared := a in db.fees && (db.fees[a].status == FeePaid || db.fees[a].status == FeeWaived);
  }

  /** Called in a transaction: the caller rolls back when it throws. */
  method EnsureFee(db: Database, a: Id, feeAmount: Option<Paise>) returns (ok: bool)
    modifies db`fees
    ensures ok <==> !EnsureFeeForApplication(old(db.View()), a, feeAmount).Threw?
    ensures db.View() == After(old(db.View()), EnsureFeeForApplication(old(db.View()), a, feeAmount))
  {
    if a in db.fees { return true; }
    if feeAmount.None? { return false; }
    db.fees := db.fees[a := Fee(feeAmount.value, PendingPayment)];
    return true;
  }

  /** The whole call is the composition of its atomic steps. */
  method InitiatePayment(db: Database, a: Id, employee: Id, env: Env) returns (ok: bool)
    modifies db`fees, db`orders
    ensures Completes(old(db.View()), Fees(FeeCall.InitiatePayment(a, employee)), env, db.View(), ok)
  {
    hide Alone, ApplicationStep, DisbursalStep, RepaymentStep, PayrollStep, SettlementStep, JobStep;
    ghost var before := db.View();
    AloneStep(before, Fees(FeeCall.InitiatePayment(a, employee)), env);
    AloneStep(before, Fees(FeeCall.EnsureFee(a)), env);
    if a !in db.applications || db.applications[a].employee != employee { return false; }
    if db.applications[a].status != AwaitingPlatformFee { return false; }
    if a !in db.fees {
      if env.feeAmount.None? { return false; }
      AloneStep(before, Fees(CreateFee(a, env.feeAmount.value)), env);
      db.fees := db.fees[a := Fee(env.feeAmount.value, PendingPayment)];
    }
    var fee := db.fees[a];
    if fee.status == FeePaid || fee.status == FeeWaived { return true; }
    AloneStep(db.View(), Fees(FindOrder(a, fee.amount)), env);
    if exists o :: o in db.orders && db.orders[o].fee == a && db.orders[o].status == Created
                   && db.orders[o].expiresAt > env.now {
      return true;
    }
    AloneStep(db.View(), Fees(CreateOrder(a, fee.amount)), env);
    if env.gatewayOrder in db.orders { return false; }
    db.orders := db.orders[env.gatewayOrder := Order(a, fee.amount, Created, env.now + 15 * 60 * 1000)];
    return true;
  }

  method Waive(db: Database, a: Id, env: Env) returns (ok: bool)
    modifies db
    ensures Completes(old(db.View()), Fees(FeeCall.Waive(a)), env, db.View(), ok)
  {
    hide Alone, ApplicationStep, DisbursalStep, RepaymentStep, PayrollStep, SettlementStep, JobStep;
    var before := db.View();
    AloneStep(before, Fees(FeeCall.Waive(a)), env);
    if a !in db.fees || a !in db.applications { return false; }
    var fee, application := db.fees[a], db.applications[a];
    if fee.status == FeePaid || fee.status == FeeWaived { return true; }
    AloneStep(before, Fees(WaiveWrite(a, application)), env);
    db.fees := db.fees[a := fee.(status := FeeWaived)];
    if application.status == AwaitingPlatformFee {
      ok := db.UpdateStatus(a, application.status, EmployerApproved);
      if !ok { db.Restore(before); }
      return;
    }
    return true;
  }

  /** The transaction of a capture: two guarded updates, at most one event, and the application's move. */
  method CaptureTransaction(db: Database, order: Id, a: Id) returns (ok: bool)
    requires order in db.orders
    modifies db
    ensures ok <==> !CaptureCommit(old(db.View()), order, a).Threw?
    ensures db.View() == After(old(db.View()), CaptureCommit(old(db.View()), order, a))
  {
    var before := db.View();
    var orderCount, feeCount := 0, 0;
    if db.orders[order].status != Captured {
      db.orders, orderCount := db.orders[order := db.orders[order].(status := Captured)], 1;
    } else {
      assert db.orders[order := db.orders[order].(status := Captured)] == db.orders;
    }
    if a in db.fees && db.fees[a].status !in {FeePaid, FeeWaived} {
      db.fees, feeCount := db.fees[a := db.fees[a].(status := FeePaid)], 1;
    }
    if orderCount > 0 || feeCount > 0 {
      db.events := db.events + [Event(order, PaymentCaptured)];
    }
    if feeCount > 0 && a in db.applications && db.applications[a].status == AwaitingPlatformFee {
      ok := db.UpdateStatus(a, AwaitingPlatformFee, EmployerApproved);
      if !ok { db.Restore(before); }
      return;
    }
    return true;
  }

  /** A capture reported by checkout or by a webhook. */
  method MarkFeePaidFromOrder(db: Database, order: Id, env: Env) returns (ok: bool)
    modifies db
    ensures Completes(old(db.View()), Fees(Capture(order)), env, db.View(), ok)
  {
    hide Alone, CaptureCommit, ApplicationStep, DisbursalStep, RepaymentStep, PayrollStep, SettlementStep, JobStep;
    AloneStep(db.View(), Fees(Capture(order)), env);
    if order !in db.orders { return false; }
    var a := db.orders[order].fee;
    AloneStep(db.View(), Fees(CaptureWrite(order, a)), env);
    CaptureShape(db.View(), order, a);
    ok := CaptureTransaction(db, order, a);
  }

  lemma CaptureShape(db: Db, order: Id, a: Id)
    ensures var o := CaptureCommit(db, order, a); o.Threw? || (o.Wrote? && o.rest.None?)
  {
  }

  method HandleWebhookPaymentFailed(db: Database, order: Id, env: Env) returns (ok: bool)
    modifies db`orders, db`events
    ensures Completes(old(db.View()), Fees(FailPayment(order)), env, db.View(), ok)
  {
    hide Alone, ApplicationStep, DisbursalStep, RepaymentStep, PayrollStep, SettlementStep, JobStep;
    AloneStep(db.View(), Fees(FailPayment(order)), env);
    if order !in db.orders { return true; }
    AloneStep(db.View(), Fees(FailPaymentWrite(order)), env);
    db.orders := db.orders[order := db.orders[order].(status := Attempted)];
    db.events := db.events + [Event(order, PaymentFailed)];
    return true;
  }
}
