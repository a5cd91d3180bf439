/** What holds after any run, whatever calls are in progress and however they interleave. */
module InterleavedLaws {
  import opened Wrappers
  import opened Tables
  import opened Steps
  import opened Lifecycle
  import opened LedgerInvariant
  import opened LedgerSteps
  import opened Sums

  ghost predicate WorldInv(w: World) {
    && Inv(w.db)
    && forall t :: t in w.calls ==> CallOk(w.db, w.calls[t])
  }

  lemma StepKeeps(w: World, action: Action)
    requires WorldInv(w)
    ensures WorldInv(Step(w, action)) && Grows(w.db, Step(w, action).db)
  {
    hide Inv, Grows, CallOk, Advance;
    GrowsReflexive(w.db);
    match action
    case Begin(id, call) =>
      if id !in w.calls && IsRequest(call) {
        RequestReliesOnNothing(w.db, call);
      }
    case Resume(id, env) =>
      if id in w.calls {
        AdvanceKeeps(w.db, w.calls[id], env);
        var o := Advance(w.db, w.calls[id], env);
        if o.Wrote? {
          forall t | t in w.calls
            ensures CallOk(o.db, w.calls[t])
          {
            CallStable(w.db, o.db, w.calls[t]);
          }
        }
      }
  }

  lemma RequestReliesOnNothing(db: Db, c: Call)
    requires IsRequest(c)
    ensures CallOk(db, c)
  {
  }

  lemma {:induction false} RunKeeps(w: World, actions: seq<Action>)
    requires WorldInv(w)
    ensures WorldInv(Run(w, actions)) && Grows(w.db, Run(w, actions).db)
    decreases |actions|
  {
    hide Inv, Grows, CallOk, Step;
    if actions == [] {
      GrowsReflexive(w.db);
    } else {
      var init, last := actions[..|actions| - 1], actions[|actions| - 1];
      RunKeeps(w, init);
      StepKeeps(Run(w, init), last);
      GrowsTransitive(w.db, Run(w, init).db, Run(w, actions).db);
    }
  }

  lemma EmptyWorldKeeps()
    ensures WorldInv(EMPTY_WORLD)
  {
  }

  /** The invariant in every state reachable from an empty database. */
  lemma Reachable(actions: seq<Action>)
    ensures WorldInv(Run(EMPTY_WORLD, actions))
  {
    hide Inv, CallOk;
    EmptyWorldKeeps();
    RunKeeps(EMPTY_WORLD, actions);
  }

  lemma {:induction false} RunConcat(w: World, actions: seq<Action>, more: seq<Action>)
    ensures Run(w, actions + more) == Run(Run(w, actions), more)
    decreases |more|
  {
    hide Step;
    if more == [] {
      assert actions + more == actions;
    } else {
      assert (actions + more)[..|actions + more| - 1] == actions + more[..|more| - 1];
      RunConcat(w, actions, more[..|more| - 1]);
    }
  }

  lemma LaterGrows(actions: seq<Action>, more: seq<Action>)
    ensures Grows(Reached(actions), Reached(actions + more))
    ensures WorldInv(Run(EMPTY_WORLD, actions)) && WorldInv(Run(EMPTY_WORLD, actions + more))
  {
    hide Inv, Grows, CallOk, Step;
    Reachable(actions);
    RunKeeps(Run(EMPTY_WORLD, actions), more);
    RunConcat(EMPTY_WORLD, actions, more);
  }

  // Fees

  /** No advance passes employer approval, and none gets a disbursal, before its platform fee is paid or waived. */
  lemma FeeBeforeMoney(actions: seq<Action>, a: Id)
    ensures var db := Reached(actions);
            (a in db.applications
              && db.applications[a].status in {EmployerApproved, ReadyForDisbursal, RepaymentScheduled, Repaid})
            || a in db.disbursals
            ==> a in db.fees && db.fees[a].status in {FeePaid, FeeWaived}
  {
    Reachable(actions);
  }

  /** Cleared stays cleared: what makes the stale fee checks before approval and payout sound. */
  lemma ClearedForever(actions: seq<Action>, more: seq<Action>, a: Id)
    requires Cleared(Reached(actions).fees, a)
    ensures Cleared(Reached(actions + more).fees, a)
  {
    LaterGrows(actions, more);
  }

  // Payment orders

  /** The captures of a run that turned the fee of `a` into PAID. */
  function Finalizations(w: World, actions: seq<Action>, a: Id): nat {
    if actions == [] then 0
    else
      var before := Run(w, actions[..|actions| - 1]);
      Finalizations(w, actions[..|actions| - 1], a) + if FinalizesFee(before, actions[|actions| - 1], a) then 1 else 0
  }

  predicate FinalizesFee(w: World, action: Action, a: Id) {
    && action.Resume? && action.id in w.calls
    && w.calls[action.id].Fees? && w.calls[action.id].fee.CaptureWrite? && w.calls[action.id].fee.a == a
    && Finalizes(w.db.fees, a)
    && Advance(w.db, w.calls[action.id], action.env).Wrote?
  }

  lemma FinalizingClears(w: World, action: Action, a: Id)
    requires WorldInv(w) && FinalizesFee(w, action, a)
    ensures !Cleared(w.db.fees, a) && Cleared(Step(w, action).db.fees, a)
  {
    hide Inv, CallOk;
  }

  /** However often checkout and webhooks report a payment, on however many orders, one call at most finalizes the
      fee. */
  lemma {:induction false} FinalizedOnce(actions: seq<Action>, a: Id)
    ensures Finalizations(EMPTY_WORLD, actions, a) <= 1
    ensures !Cleared(Reached(actions).fees, a) ==> Finalizations(EMPTY_WORLD, actions, a) == 0
    decreases |actions|
  {
    hide Inv, CallOk, Step, FinalizesFee;
    if actions != [] {
      var init, last := actions[..|actions| - 1], actions[|actions| - 1];
      FinalizedOnce(init, a);
      Reachable(init);
      StepKeeps(Run(EMPTY_WORLD, init), last);
      if FinalizesFee(Run(EMPTY_WORLD, init), last, a) {
        FinalizingClears(Run(EMPTY_WORLD, init), last, a);
      }
    }
  }

  // What makes a fee cleared

  predicate WaivesFee(w: World, action: Action, a: Id) {
    && action.Resume? && action.id in w.calls
    && w.calls[action.id].Fees? && w.calls[action.id].fee.WaiveWrite? && w.calls[action.id].fee.a == a
    && Advance(w.db, w.calls[action.id], action.env).Wrote?
  }

  /** The waivers of the fee of `a` that committed in a run. */
  function Waivers(w: World, actions: seq<Action>, a: Id): nat {
    if actions == [] then 0
    else
      var before := Run(w, actions[..|actions| - 1]);
      Waivers(w, actions[..|actions| - 1], a) + if WaivesFee(before, actions[|actions| - 1], a) then 1 else 0
  }

  lemma WaivingClears(w: World, action: Action, a: Id)
    requires WaivesFee(w, action, a)
    ensures Cleared(Step(w, action).db.fees, a)
  {
    hide IndexAllows;
  }

  /** A fee row that appears is unpaid, and the others stay. */
  ghost predicate OnlyUnpaidFees(fees: map<Id, Fee>, fees': map<Id, Fee>) {
    forall a :: Cleared(fees', a) ==> Cleared(fees, a)
  }

  lemma ApplicationsClearNothing(db: Db, c: ApplicationCall, env: Env)
    ensures OnlyUnpaidFees(db.fees, After(db, ApplicationStep(db, c, env)).fees)
  {
    hide IndexAllows;
  }

  lemma DisbursalsClearNothing(db: Db, c: DisbursalCall, env: Env)
    ensures OnlyUnpaidFees(db.fees, After(db, DisbursalStep(db, c, env)).fees)
  {
    hide IndexAllows, Cleared;
  }

  lemma RepaymentsClearNothing(db: Db, c: RepaymentCall, env: Env)
    ensures OnlyUnpaidFees(db.fees, After(db, RepaymentStep(db, c, env)).fees)
  {
    hide IndexAllows, Cleared;
  }

  lemma PayrollClearsNothing(db: Db, c: PayrollCall, env: Env)
    ensures After(db, PayrollStep(db, c, env)).fees == db.fees
  {
  }

  lemma SettlementsClearNothing(db: Db, c: SettlementCall, env: Env)
    ensures After(db, SettlementStep(db, c, env)).fees == db.fees
  {
  }

  lemma JobsClearNothing(db: Db, c: JobCall, env: Env)
    ensures After(db, JobStep(db, c, env)).fees == db.fees
  {
  }

  lemma FeeWriteSteps(db: Db, c: FeeCall, env: Env)
    ensures c.WaiveWrite? ==> FeeStep(db, c, env) == WaiveCommit(db, c.a, c.seen)
    ensures c.CaptureWrite? ==> FeeStep(db, c, env) == CaptureCommit(db, c.order, c.a)
  {
    hide WaiveCommit, CaptureCommit;
  }

  lemma OtherFeeStepsClearNothing(db: Db, c: FeeCall, env: Env)
    requires !c.WaiveWrite? && !c.CaptureWrite?
    ensures OnlyUnpaidFees(db.fees, After(db, FeeStep(db, c, env)).fees)
  {
  }

  lemma WaivingFees(db: Db, b: Id, seen: Application)
    ensures var fees := After(db, WaiveCommit(db, b, seen)).fees;
            || fees == db.fees
            || (WaiveCommit(db, b, seen).Wrote? && b in db.fees
                && fees == db.fees[b := db.fees[b].(status := FeeWaived)])
  {
    hide IndexAllows;
  }

  lemma CapturingFees(db: Db, o: Id, b: Id)
    ensures var fees := After(db, CaptureCommit(db, o, b)).fees;
            || fees == db.fees
            || (CaptureCommit(db, o, b).Wrote? && Finalizes(db.fees, b)
                && fees == db.fees[b := db.fees[b].(status := FeePaid)])
  {
    hide IndexAllows, Finalizes, CaptureCommit;
    if o in db.orders { CaptureIs(db, o, b); } else { CaptureRefused(db, o, b); }
  }

  lemma CaptureRefused(db: Db, o: Id, b: Id)
    requires o !in db.orders
    ensures CaptureCommit(db, o, b).Threw?
  {
  }

  lemma OnlyCapturesAndWaiversClear(w: World, action: Action, a: Id)
    requires !Cleared(w.db.fees, a) && !FinalizesFee(w, action, a) && !WaivesFee(w, action, a)
    ensures !Cleared(Step(w, action).db.fees, a)
  {
    hide Advance;
    if action.Resume? && action.id in w.calls && Cleared(Step(w, action).db.fees, a) {
      StepClears(w.db, w.calls[action.id], action.env, a);
    }
  }

  lemma StepClears(db: Db, c: Call, env: Env, a: Id)
    requires !Cleared(db.fees, a) && Cleared(After(db, Advance(db, c, env)).fees, a)
    ensures c.Fees? && (c.fee.WaiveWrite? || (c.fee.CaptureWrite? && Finalizes(db.fees, a))) && c.fee.a == a
    ensures Advance(db, c, env).Wrote?
  {
    hide ApplicationStep, DisbursalStep, RepaymentStep, FeeStep, PayrollStep, SettlementStep, JobStep;
    match c
    case Applications(call) => ApplicationsClearNothing(db, call, env);
    case Fees(call) => FeeStepClears(db, call, env, a);
    case Disbursals(call) => DisbursalsClearNothing(db, call, env);
    case Repayments(call) => RepaymentsClearNothing(db, call, env);
    case Payroll(call) => PayrollClearsNothing(db, call, env);
    case Settlements(call) => SettlementsClearNothing(db, call, env);
    case Jobs(call) => JobsClearNothing(db, call, env);
  }

  lemma FeeStepClears(db: Db, c: FeeCall, env: Env, a: Id)
    requires !Cleared(db.fees, a) && Cleared(After(db, FeeStep(db, c, env)).fees, a)
    ensures (c.WaiveWrite? || (c.CaptureWrite? && Finalizes(db.fees, a))) && c.a == a && FeeStep(db, c, env).Wrote?
  {
    hide FeeStep, WaiveCommit, CaptureCommit;
    FeeWriteSteps(db, c, env);
    match c
    case WaiveWrite(b, seen) => WaivingFees(db, b, seen);
    case CaptureWrite(o, b) => CapturingFees(db, o, b);
    case _ => OtherFeeStepsClearNothing(db, c, env);
  }

  /** What `isFeeCleared` answers after any run: whether a capture that finalized the fee, or a waiver, has
      committed. */
  lemma {:induction false} ClearedIffPaidOrWaived(actions: seq<Action>, a: Id)
    ensures Cleared(Reached(actions).fees, a)
       <==> Finalizations(EMPTY_WORLD, actions, a) == 1 || Waivers(EMPTY_WORLD, actions, a) >= 1
    decreases |actions|
  {
    hide Inv, CallOk, Step, FinalizesFee, WaivesFee;
    FinalizedOnce(actions, a);
    if actions != [] {
      var init, last := actions[..|actions| - 1], actions[|actions| - 1];
      var w := Run(EMPTY_WORLD, init);
      ClearedIffPaidOrWaived(init, a);
      FinalizedOnce(init, a);
      Reachable(init);
      StepKeeps(w, last);
      if Cleared(w.db.fees, a) {
        ClearedStays(w.db, Step(w, last).db, a);
      } else if FinalizesFee(w, last, a) {
        FinalizingClears(w, last, a);
      } else if WaivesFee(w, last, a) {
        WaivingClears(w, last, a);
      } else {
        OnlyCapturesAndWaiversClear(w, last, a);
      }
    }
  }

  lemma ClearedStays(db: Db, db': Db, a: Id)
    requires Grows(db, db') && Cleared(db.fees, a)
    ensures Cleared(db'.fees, a)
  {
  }

  /** A captured order has a cleared fee and a capture event, and an order's captures never outnumber its failures by
      more than one. */
  lemma CapturesAccounted(actions: seq<Action>, o: Id)
    ensures var db := Reached(actions);
            o in db.orders ==>
              && (db.orders[o].status == Captured ==> Cleared(db.fees, db.orders[o].fee))
              && db.orders[o].fee in db.fees && db.orders[o].amount == db.fees[db.orders[o].fee].amount
              && multiset(db.events)[Event(o, PaymentCaptured)]
                 <= multiset(db.events)[Event(o, PaymentFailed)] + (if db.orders[o].status == Captured then 1 else 0)
              && (db.orders[o].status == Captured ==> Event(o, PaymentCaptured) in db.events)
  {
    Reachable(actions);
    var db := Reached(actions);
    assert o in db.orders ==> Count(db.events, o, PaymentCaptured) == multiset(db.events)[Event(o, PaymentCaptured)];
  }

  // Payouts

  /** The committed payouts of an advance in a run. */
  function Payouts(w: World, actions: seq<Action>, a: Id): nat {
    if actions == [] then 0
    else
      var before := Run(w, actions[..|actions| - 1]);
      Payouts(w, actions[..|actions| - 1], a) + if PaysOut(before, actions[|actions| - 1], a) then 1 else 0
  }

  predicate PaysOut(w: World, action: Action, a: Id) {
    && action.Resume? && action.id in w.calls
    && w.calls[action.id].Disbursals? && w.calls[action.id].disbursal.DisburseWrite?
    && w.calls[action.id].disbursal.a == a
    && Advance(w.db, w.calls[action.id], action.env).Wrote?
  }

  lemma PayingOut(w: World, action: Action, a: Id)
    requires PaysOut(w, action, a)
    ensures !PaidOut(w.db.disbursals, a) && PaidOut(Step(w, action).db.disbursals, a)
  {
  }

  lemma OtherServicesPayNothing(db: Db, c: Call, env: Env)
    requires !c.Disbursals?
    ensures After(db, Advance(db, c, env)).disbursals == db.disbursals
  {
    hide ApplicationStep, FeeStep, RepaymentStep, PayrollStep, SettlementStep, JobStep;
    match c
    case Applications(call) => ApplicationsPayNothing(db, call, env);
    case Fees(call) => FeesPayNothing(db, call, env);
    case Repayments(call) => RepaymentsPayNothing(db, call, env);
    case Payroll(call) => PayrollPaysNothing(db, call, env);
    case Settlements(call) => SettlementsPayNothing(db, call, env);
    case Jobs(call) => JobsPayNothing(db, call, env);
  }

  lemma RepaymentsPayNothing(db: Db, c: RepaymentCall, env: Env)
    ensures After(db, RepaymentStep(db, c, env)).disbursals == db.disbursals
  {
  }

  lemma PayrollPaysNothing(db: Db, c: PayrollCall, env: Env)
    ensures After(db, PayrollStep(db, c, env)).disbursals == db.disbursals
  {
  }

  lemma SettlementsPayNothing(db: Db, c: SettlementCall, env: Env)
    ensures After(db, SettlementStep(db, c, env)).disbursals == db.disbursals
  {
  }

  lemma JobsPayNothing(db: Db, c: JobCall, env: Env)
    ensures After(db, JobStep(db, c, env)).disbursals == db.disbursals
  {
  }

  lemma ApplicationsPayNothing(db: Db, c: ApplicationCall, env: Env)
    ensures After(db, ApplicationStep(db, c, env)).disbursals == db.disbursals
  {
  }

  lemma FeesPayNothing(db: Db, c: FeeCall, env: Env)
    ensures After(db, FeeStep(db, c, env)).disbursals == db.disbursals
  {
    hide IndexAllows, Cleared, WaiveCommit, CaptureCommit;
    if c.WaiveWrite? { WaivingPaysNothing(db, c.a, c.seen); }
    if c.CaptureWrite? { CapturingPaysNothing(db, c.order, c.a); }
  }

  lemma WaivingPaysNothing(db: Db, a: Id, seen: Application)
    ensures After(db, WaiveCommit(db, a, seen)).disbursals == db.disbursals
  {
    hide IndexAllows;
  }

  lemma CapturingPaysNothing(db: Db, o: Id, a: Id)
    ensures After(db, CaptureCommit(db, o, a)).disbursals == db.disbursals
  {
    hide IndexAllows;
    if o in db.orders { CaptureIs(db, o, a); }
  }

  lemma OtherStepsPayNothing(db: Db, a: Id, c: DisbursalCall, env: Env)
    requires !PaidOut(db.disbursals, a) && !(c.DisburseWrite? && c.a == a)
    ensures !PaidOut(After(db, DisbursalStep(db, c, env)).disbursals, a)
  {
  }

  lemma NotPayingOut(w: World, action: Action, a: Id)
    requires !PaidOut(w.db.disbursals, a) && !PaysOut(w, action, a)
    ensures !PaidOut(Step(w, action).db.disbursals, a)
  {
    if action.Resume? && action.id in w.calls {
      var c := w.calls[action.id];
      if !(c.Disbursals? && c.disbursal.DisburseWrite? && c.disbursal.a == a) {
        hide DisbursalStep;
        if c.Disbursals? {
          OtherStepsPayNothing(w.db, a, c.disbursal, action.env);
        } else {
          OtherServicesPayNothing(w.db, c, action.env);
        }
      }
    }
  }

  /** Money goes out at most once for an advance: exactly once when its disbursal is SUCCESS, and then there is a
      repayment. */
  lemma {:induction false} PaidOutOnce(actions: seq<Action>, a: Id)
    ensures var db := Reached(actions);
            && Payouts(EMPTY_WORLD, actions, a)
               == (if a in db.disbursals && db.disbursals[a].status == Success then 1 else 0)
            && (a in db.repayments <==> Payouts(EMPTY_WORLD, actions, a) == 1)
    decreases |actions|
  {
    hide Inv, CallOk, Step, PaysOut;
    Reachable(actions);
    RepaymentIffPaidOut(Reached(actions), a);
    if actions != [] {
      var init, last := actions[..|actions| - 1], actions[|actions| - 1];
      PaidOutOnce(init, a);
      Reachable(init);
      var w := Run(EMPTY_WORLD, init);
      StepKeeps(w, last);
      if PaysOut(w, last, a) {
        PayingOut(w, last, a);
      } else if !PaidOut(w.db.disbursals, a) {
        NotPayingOut(w, last, a);
      }
    }
  }

  lemma RepaymentIffPaidOut(db: Db, a: Id)
    requires Inv(db)
    ensures a in db.repayments <==> PaidOut(db.disbursals, a)
  {
  }

  // Amounts

  /** One amount all the way: requested, approved twice, disbursed, owed and deducted. */
  lemma OneAmount(actions: seq<Action>, a: Id)
    ensures var db := Reached(actions);
            a in db.applications ==>
              var amount := db.applications[a].requested;
              && db.applications[a].employerApproved in {None, Some(amount)}
              && db.applications[a].adminApproved in {None, Some(amount)}
              && (a in db.disbursals ==>
                    db.disbursals[a].requested == db.disbursals[a].approved == amount
                    && db.disbursals[a].disbursed == Some(amount))
              && (a in db.repayments ==> db.repayments[a].principal == amount)
              && (a in db.lineItems ==> db.lineItems[a].principal == amount && db.lineItems[a].application == a
                                        && a in db.repayments
                                        && db.lineItems[a].totalDeduction == db.repayments[a].amounts.total)
  {
    Reachable(actions);
  }

  /** Each column of a settlement is the sum of that column over its line items, and neither ever changes again. */
  lemma SettlementFrozen(actions: seq<Action>, more: seq<Action>, key: SettlementKey, part: Part)
    ensures var db, later := Reached(actions), Reached(actions + more);
            key in db.settlements ==>
              && key in later.settlements
              && SettlementPart(later.settlements[key], part) == SettlementPart(db.settlements[key], part)
                 == Sum(ItemColumn(db.lineItems, key, part))
              && ItemColumn(later.lineItems, key, part) == ItemColumn(db.lineItems, key, part)
  {
    hide Sum, ItemColumn;
    LaterGrows(actions, more);
    var db, later := Reached(actions), Reached(actions + more);
    if key in db.settlements {
      ItemsFrozen(db, later, key, part);
      assert SettlementTotals(db.settlements, db.lineItems);
    }
  }

  lemma ItemsFrozen(db: Db, later: Db, key: SettlementKey, part: Part)
    requires LineItemsGrow(db.lineItems, later.lineItems, db.settlements) && key in db.settlements
    ensures ItemColumn(later.lineItems, key, part) == ItemColumn(db.lineItems, key, part)
  {
  }

  /** A line item once written is never rewritten or moved to another settlement. */
  lemma LineItemFrozen(actions: seq<Action>, more: seq<Action>, r: Id)
    ensures var db, later := Reached(actions), Reached(actions + more);
            r in db.lineItems ==> r in later.lineItems && later.lineItems[r] == db.lineItems[r]
  {
    LaterGrows(actions, more);
  }

  // The books balance

  ghost function DisbursedAmount(db: Db): map<Id, Paise> {
    map a | a in db.disbursals && db.disbursals[a].status == Success :: db.disbursals[a].disbursed.GetOr(0)
  }

  ghost function Interest(db: Db): map<Id, Paise> {
    map r | r in db.repayments :: db.repayments[r].amounts.interest
  }

  ghost function ProcessingFees(db: Db): map<Id, Paise> {
    map r | r in db.repayments :: db.repayments[r].amounts.processingFee
  }

  ghost function Gst(db: Db): map<Id, Paise> {
    map r | r in db.repayments :: db.repayments[r].amounts.gst
  }

  ghost function Owed(db: Db): map<Id, Paise> {
    map r | r in db.repayments :: db.repayments[r].amounts.total
  }

  ghost function Recovered(db: Db): map<Id, Paise> {
    map r | r in db.repayments && db.repayments[r].status == Paid :: db.repayments[r].amounts.total
  }

  ghost function Outstanding(db: Db): map<Id, Paise> {
    map r | r in db.repayments && db.repayments[r].status in {Scheduled, Overdue} :: db.repayments[r].amounts.total
  }

  lemma RecoveredPlusOutstanding(db: Db)
    ensures Sum(Owed(db)) == Sum(Recovered(db)) + Sum(Outstanding(db))
  {
    var paid := map r | r in db.repayments :: if r in Recovered(db) then Recovered(db)[r] else 0;
    var open := map r | r in db.repayments :: if r in Outstanding(db) then Outstanding(db)[r] else 0;
    hide Sum;
    SumFilter(paid, Recovered(db));
    SumFilter(open, Outstanding(db));
    SumAdd(Owed(db), paid, open);
  }

  lemma DisbursedIsPrincipal(db: Db)
    requires RepaymentPerPayout(db.disbursals, db.repayments)
    requires DisbursedAmounts(db.disbursals, db.applications) && RepaymentAmounts(db.repayments, db.applications)
    ensures DisbursedAmount(db).Keys == db.repayments.Keys
    ensures forall r :: r in db.repayments ==> DisbursedAmount(db)[r] == db.repayments[r].principal
  {
    forall a: Id
      ensures a in DisbursedAmount(db) <==> a in db.repayments
    {
      assert a in db.repayments <==> PaidOut(db.disbursals, a);
    }
  }

  lemma PrincipalPlusCharges(db: Db)
    requires RepaymentPerPayout(db.disbursals, db.repayments)
    requires DisbursedAmounts(db.disbursals, db.applications) && RepaymentAmounts(db.repayments, db.applications)
    ensures Sum(Owed(db)) == Sum(DisbursedAmount(db)) + Sum(Interest(db)) + Sum(ProcessingFees(db)) + Sum(Gst(db))
  {
    DisbursedIsPrincipal(db);
    hide Sum;
    SumAdd4(Owed(db), DisbursedAmount(db), Interest(db), ProcessingFees(db), Gst(db));
  }

  /** Everything paid out plus everything charged on it is recovered or outstanding, to the paisa. */
  lemma BooksBalance(actions: seq<Action>)
    ensures var db := Reached(actions);
            Sum(DisbursedAmount(db)) + Sum(Interest(db)) + Sum(ProcessingFees(db)) + Sum(Gst(db))
            == Sum(Recovered(db)) + Sum(Outstanding(db))
  {
    Reachable(actions);
    var db := Reached(actions);
    RecoveredPlusOutstanding(db);
    PrincipalPlusCharges(db);
  }

  // History

  /** An application's status is the one its newest history entry records, and it is never DISBURSED. */
  lemma StatusIsRecorded(actions: seq<Action>, a: Id)
    ensures var db := Reached(actions);
            a in db.applications ==>
              Newest(db.history, a) == Some(db.applications[a].status) && db.applications[a].status != Disbursed
  {
    Reachable(actions);
  }

  /** An employee never has two active advances. */
  lemma OneActiveAdvanceEach(actions: seq<Action>, a: Id, b: Id)
    ensures var db := Reached(actions);
            a in db.applications && b in db.applications && a != b
            && db.applications[a].employee == db.applications[b].employee ==>
              !IsActive(db.applications[a].status) || !IsActive(db.applications[b].status)
  {
    Reachable(actions);
  }
}
