/** Every repayment is the price of its advance under the terms frozen at submission. */
module PricedRepayments {
  import opened Tables
  import opened Steps
  import opened Lifecycle
  import opened LedgerInvariant
  import opened InterleavedLaws
  import Pricing
  import PricingLaws
  import PreviewLaws

  function Price(requested: Paise, terms: Terms): Breakdown {
    Pricing.ComputeRepaymentBreakdown(requested, Pricing.FromColumns(terms))
  }

  ghost predicate PricedRow(db: Db, a: Id) {
    a in db.repayments ==>
      a in db.applications
      && db.repayments[a].dueDate == db.applications[a].terms.recoveryDate
      && db.repayments[a].amounts == Price(db.applications[a].requested, db.applications[a].terms)
  }

  ghost predicate PricedCall(c: Call) {
    c.Disbursals? && c.disbursal.DisburseWrite? ==>
      c.disbursal.amounts == Price(c.disbursal.amount, c.disbursal.seen.terms)
  }

  ghost predicate NextPriced(o: Outcome) {
    (o.Read? ==> PricedCall(o.next)) && (o.Wrote? && o.rest.Some? ==> PricedCall(o.rest.value))
  }

  /** The only step that prepares a payout prices it. */
  lemma AdvancePriced(db: Db, c: Call, env: Env)
    ensures NextPriced(Advance(db, c, env))
  {
    hide NextPriced, ApplicationStep, FeeStep, RepaymentStep, PayrollStep, SettlementStep, JobStep, DisbursalStep;
    match c
    case Applications(call) => ApplicationNext(db, call, env);
    case Fees(call) => FeeNext(db, call, env);
    case Disbursals(call) => DisbursalNext(db, call, env);
    case Repayments(call) => RepaymentNext(db, call, env);
    case Payroll(call) => PayrollNext(db, call, env);
    case Settlements(call) => SettlementNext(db, call, env);
    case Jobs(call) => JobNext(db, call, env);
  }

  lemma ApplicationNext(db: Db, c: ApplicationCall, env: Env)
    ensures NextPriced(ApplicationStep(db, c, env))
  {
    hide IndexAllows, Cleared, Pricing.ComputeRepaymentBreakdown, Pricing.FromColumns;
  }

  lemma FeeNext(db: Db, c: FeeCall, env: Env)
    ensures NextPriced(FeeStep(db, c, env))
  {
    hide Pricing.ComputeRepaymentBreakdown, Pricing.FromColumns;
  }

  lemma DisbursalNext(db: Db, c: DisbursalCall, env: Env)
    ensures NextPriced(DisbursalStep(db, c, env))
  {
    hide Pricing.ComputeRepaymentBreakdown, Pricing.FromColumns;
  }

  lemma RepaymentNext(db: Db, c: RepaymentCall, env: Env)
    ensures NextPriced(RepaymentStep(db, c, env))
  {
    hide Pricing.ComputeRepaymentBreakdown, Pricing.FromColumns;
  }

  lemma PayrollNext(db: Db, c: PayrollCall, env: Env)
    ensures NextPriced(PayrollStep(db, c, env))
  {
    hide Pricing.ComputeRepaymentBreakdown, Pricing.FromColumns;
  }

  lemma SettlementNext(db: Db, c: SettlementCall, env: Env)
    ensures NextPriced(SettlementStep(db, c, env))
  {
    hide Pricing.ComputeRepaymentBreakdown, Pricing.FromColumns;
  }

  lemma JobNext(db: Db, c: JobCall, env: Env)
    ensures NextPriced(JobStep(db, c, env))
  {
    hide Pricing.ComputeRepaymentBreakdown, Pricing.FromColumns;
  }

  lemma PayoutPriced(w: World, action: Action, a: Id)
    requires PaysOut(w, action, a) && CallOk(w.db, w.calls[action.id]) && PricedCall(w.calls[action.id])
    requires a !in w.db.repayments
    ensures PricedRow(Step(w, action).db, a)
  {
    hide Price;
  }

  lemma RowPriced(w: World, action: Action, a: Id)
    requires WorldInv(w) && PricedRow(w.db, a) && forall t :: t in w.calls ==> PricedCall(w.calls[t])
    ensures PricedRow(Step(w, action).db, a)
  {
    hide Inv, CallOk, Step, PricedCall, PaysOut, Price;
    StepKeeps(w, action);
    RepaymentIffPaidOut(w.db, a);
    RepaymentIffPaidOut(Step(w, action).db, a);
    if PaysOut(w, action, a) {
      PayingOut(w, action, a);
      PayoutRunning(w, action, a);
      PayoutPriced(w, action, a);
    } else if !PaidOut(w.db.disbursals, a) {
      NotPayingOut(w, action, a);
    } else {
      KeptPriced(w.db, Step(w, action).db, a);
    }
  }

  lemma PayoutRunning(w: World, action: Action, a: Id)
    requires PaysOut(w, action, a)
    ensures action.Resume? && action.id in w.calls
  {
    hide Advance;
  }

  lemma CallsPriced(w: World, action: Action)
    requires forall t :: t in w.calls ==> PricedCall(w.calls[t])
    ensures forall t :: t in Step(w, action).calls ==> PricedCall(Step(w, action).calls[t])
  {
    hide Advance, PricedCall;
    if action.Resume? && action.id in w.calls {
      AdvancePriced(w.db, w.calls[action.id], action.env);
    } else if action.Begin? && IsRequest(action.call) {
      RequestPriced(action.call);
    }
  }

  lemma KeptPriced(db: Db, db': Db, a: Id)
    requires RepaymentsGrow(db.repayments, db'.repayments) && ApplicationsGrow(db.applications, db'.applications)
    requires PricedRow(db, a) && a in db.repayments
    ensures PricedRow(db', a)
  {
    hide Price;
  }

  lemma RequestPriced(c: Call)
    requires IsRequest(c)
    ensures PricedCall(c)
  {
    hide Price;
  }

  lemma {:induction false} RunPriced(actions: seq<Action>, a: Id)
    ensures PricedRow(Reached(actions), a)
    ensures forall t :: t in Run(EMPTY_WORLD, actions).calls ==> PricedCall(Run(EMPTY_WORLD, actions).calls[t])
    decreases |actions|
  {
    hide Inv, CallOk, Step, PricedCall, Price;
    if actions != [] {
      RunPriced(actions[..|actions| - 1], a);
      Reachable(actions[..|actions| - 1]);
      RowPriced(Run(EMPTY_WORLD, actions[..|actions| - 1]), actions[|actions| - 1], a);
      CallsPriced(Run(EMPTY_WORLD, actions[..|actions| - 1]), actions[|actions| - 1]);
    }
  }

  /** What an employee owes is what the frozen terms say, due on the frozen recovery date. */
  lemma RepaymentIsPriceOfTerms(actions: seq<Action>, a: Id)
    ensures var db := Reached(actions);
            a in db.repayments ==>
              a in db.applications
              && db.repayments[a].dueDate == db.applications[a].terms.recoveryDate
              && db.repayments[a].amounts
                 == Pricing.ComputeRepaymentBreakdown(db.applications[a].requested,
                                                      Pricing.FromColumns(db.applications[a].terms))
  {
    hide Pricing.ComputeRepaymentBreakdown, Pricing.FromColumns;
    RunPriced(actions, a);
  }

  /** End to end: an advance submitted with the previewed snapshot is owed exactly as previewed. */
  lemma OwedAsPreviewed(actions: seq<Action>, a: Id, s: Pricing.Rates)
    requires PricingLaws.NonNegative(s) && PreviewLaws.SnapshotFits(s)
    ensures var db := Reached(actions);
            a in db.repayments && a in db.applications && db.applications[a].requested >= 0
            && db.applications[a].terms == PricingLaws.Stored(s, db.applications[a].terms.recoveryDate) ==>
              db.repayments[a].amounts == Pricing.ComputeRepaymentBreakdown(db.applications[a].requested, s)
  {
    hide Pricing.ComputeRepaymentBreakdown, Pricing.FromColumns, PricingLaws.Stored, PreviewLaws.SnapshotFits;
    RepaymentIsPriceOfTerms(actions, a);
    var db := Reached(actions);
    if a in db.applications && db.applications[a].requested >= 0 {
      PreviewLaws.PreviewIsCharge(db.applications[a].requested, s, db.applications[a].terms.recoveryDate);
    }
  }
}
