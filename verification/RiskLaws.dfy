/** What the risk assessment of `updateEmployerRiskStatus` means. */
module RiskLaws {
  import opened Wrappers
  import opened Tables
  import opened Steps
  import opened Lifecycle
  import opened LedgerInvariant
  import opened LedgerSteps
  import opened InterleavedLaws
  import Pricing

  predicate PastGrace(s: Settlement, env: Env) {
    env.now > s.dueDate + env.graceDays * DAY
  }

  /** BLOCKED with a settlement past its grace period, WARNING with one past due; the order of the rows does not
      matter. */
  lemma {:induction false} RiskMeaning(keys: seq<SettlementKey>, settlements: map<SettlementKey, Settlement>, env: Env,
                                       soFar: Risk)
    requires forall k :: k in keys ==> k in settlements
    requires soFar != Blocked
    ensures var (risk, late) := AssessRisk(keys, settlements, env, soFar);
            && (risk == Blocked <==> exists k :: k in keys && PastGrace(settlements[k], env))
            && (risk == Blocked <==> late.Some?)
            && (late.Some? ==> late.value in keys && PastGrace(settlements[late.value], env))
            && (risk == Warning <==>
                  (forall k :: k in keys ==> !PastGrace(settlements[k], env))
                  && (soFar == Warning || exists k :: k in keys && env.now > settlements[k].dueDate))
    decreases |keys|
  {
    if keys != [] && !PastGrace(settlements[keys[0]], env) {
      var next := if env.now > settlements[keys[0]].dueDate then Warning else soFar;
      RiskMeaning(keys[1..], settlements, env, next);
      assert forall k :: k in keys <==> k == keys[0] || k in keys[1..];
      var (risk, late) := AssessRisk(keys, settlements, env, soFar);
      assert (risk, late) == AssessRisk(keys[1..], settlements, env, next);
    } else if keys != [] {
      assert keys[0] in keys;
    }
  }

  /** What the call writes, given its assessment. */
  function Reassessed(db: Db, employer: Id, risk: Risk, late: Option<SettlementKey>): Db {
    var settlements := if late.Some? && late.value in db.settlements
                       then db.settlements[late.value := db.settlements[late.value].(status := SettlementOverdue)]
                       else db.settlements;
    db.(settlements := settlements, risk := db.risk[employer := risk])
  }

  lemma RiskRuns(db: Db, employer: Id, env: Env)
    requires IsListing(env.keys, OpenSettlements(db, employer))
    requires forall k :: k in env.keys ==> k in db.settlements && k.employer == employer
    ensures var (risk, late) := AssessRisk(env.keys, db.settlements, env, Good);
            && (late.Some? ==> late.value in env.keys && risk == Blocked)
            && Alone(db, Settlements(UpdateRisk(employer)), env)
               == Finished(Reassessed(db, employer, risk, late), false)
  {
    hide Alone, AssessRisk, IsListing, ApplicationStep, FeeStep, DisbursalStep, RepaymentStep, PayrollStep, JobStep;
    AloneStep(db, Settlements(UpdateRisk(employer)), env);
    RiskMeaning(env.keys, db.settlements, env, Good);
    var (risk, late) := AssessRisk(env.keys, db.settlements, env, Good);
    if late.Some? {
      AloneStep(db, Settlements(RiskOverdueWrite(late.value)), env);
      AloneStep(RiskOverdueCommit(db, late.value).db, Settlements(RiskWrite(employer, Blocked)), env);
    } else {
      AloneStep(db, Settlements(RiskWrite(employer, risk)), env);
    }
  }

  /** After a reassessment the employer is BLOCKED exactly when an open settlement is past its grace period, and no
      settlement but one such was touched. */
  lemma RiskRecorded(db: Db, employer: Id, env: Env)
    requires IsListing(env.keys, OpenSettlements(db, employer))
    ensures var done := Alone(db, Settlements(UpdateRisk(employer)), env);
            && !done.threw && employer in done.db.risk
            && (done.db.risk[employer] == Blocked
                <==> exists k :: k in OpenSettlements(db, employer) && PastGrace(db.settlements[k], env))
            && done.db == db.(risk := done.db.risk, settlements := done.db.settlements)
            && done.db.settlements.Keys == db.settlements.Keys
            && forall k :: k in db.settlements && done.db.settlements[k] != db.settlements[k] ==>
                 k in OpenSettlements(db, employer) && PastGrace(db.settlements[k], env)
                 && done.db.settlements[k] == db.settlements[k].(status := SettlementOverdue)
  {
    hide Alone, AssessRisk, IsListing, PastGrace;
    ListedKeys(db, employer, env.keys);
    RiskRuns(db, employer, env);
    RiskMeaning(env.keys, db.settlements, env, Good);
  }

  lemma ListedKeys(db: Db, employer: Id, keys: seq<SettlementKey>)
    requires IsListing(keys, OpenSettlements(db, employer))
    ensures forall k :: k in keys <==> k in OpenSettlements(db, employer)
    ensures forall k :: k in keys ==> k in db.settlements && k.employer == employer
  {
  }

  // Runs beside a blocked employer

  /** Neither past the risk guard for the employer nor on its way to a new assessment of it. */
  predicate Guarded(c: Call, employer: Id) {
    match c
    case Disbursals(DisbursalFee(_, seen)) => seen.employer != employer
    case Disbursals(CreateDisbursalWrite(_, seen)) => seen.employer != employer
    case Disbursals(DisburseFee(_, _, seen)) => seen.employer != employer
    case Disbursals(DisburseWrite(_, _, _, seen)) => seen.employer != employer
    case Settlements(MarkPaid(key)) => key.employer != employer
    case Settlements(MarkPaidWrite(key, _)) => key.employer != employer
    case Settlements(UpdateRisk(other)) => other != employer
    case Settlements(RiskOverdueWrite(key)) => key.employer != employer
    case Settlements(RiskWrite(other, _)) => other != employer
    case _ => true
  }

  /** The disbursals of the employer's employees are the ones there were. */
  ghost predicate NothingPaid(db: Db, db': Db, employer: Id) {
    forall a: Id :: a in db'.disbursals && a in db'.applications && db'.applications[a].employer == employer ==>
      a in db.disbursals && db'.disbursals[a] == db.disbursals[a]
  }

  ghost predicate StaysBlocked(db: Db, o: Outcome, employer: Id) {
    && IsBlocked(After(db, o), employer) && NothingPaid(db, After(db, o), employer)
    && (o.Read? ==> Guarded(o.next, employer))
    && (o.Wrote? && o.rest.Some? ==> Guarded(o.rest.value, employer))
  }

  lemma DisbursalsGuarded(db: Db, c: DisbursalCall, env: Env, employer: Id)
    requires IsBlocked(db, employer) && Guarded(Disbursals(c), employer) && DisbursalCallOk(db, c)
    ensures StaysBlocked(db, DisbursalStep(db, c, env), employer)
  {
    hide IndexAllows, Cleared, Pricing.ComputeRepaymentBreakdown;
  }

  lemma SettlementsGuarded(db: Db, c: SettlementCall, env: Env, employer: Id)
    requires IsBlocked(db, employer) && Guarded(Settlements(c), employer)
    ensures StaysBlocked(db, SettlementStep(db, c, env), employer)
  {
    hide AssessRisk, IsListing, MarkRepaymentsPaid, SetStatuses, Entries, PastGrace, ItemsOf;
    if c.UpdateRisk? && IsListing(env.keys, OpenSettlements(db, c.employer)) {
      ListedKeys(db, c.employer, env.keys);
      RiskMeaning(env.keys, db.settlements, env, Good);
    }
  }

  /** A step of a service that knows nothing of risk. */
  predicate LeavesRisk(db: Db, c: Call, o: Outcome) {
    && After(db, o).risk == db.risk
    && (o.Read? ==> SameService(c, o.next))
    && (o.Wrote? && o.rest.Some? ==> SameService(c, o.rest.value))
  }

  predicate SameService(c: Call, d: Call) {
    (c.Applications? && d.Applications?) || (c.Fees? && d.Fees?) || (c.Repayments? && d.Repayments?)
    || (c.Payroll? && d.Payroll?) || (c.Jobs? && d.Jobs?)
  }

  lemma ApplicationsLeaveRisk(db: Db, c: ApplicationCall, env: Env)
    ensures LeavesRisk(db, Applications(c), ApplicationStep(db, c, env))
  {
    hide IndexAllows, Cleared, ActiveOf, BlocksSubmission, InProgress, EmployerApproveCommit, AdminApproveCommit;
    if c.EmployerApproveWrite? { EmployerApprovalLeavesRisk(db, c.a, c.seen, env.feeAmount); }
    if c.AdminApproveWrite? { AdminApprovalLeavesRisk(db, c.a, c.seen); }
  }

  lemma EmployerApprovalLeavesRisk(db: Db, a: Id, seen: Application, feeAmount: Option<Paise>)
    ensures var o := EmployerApproveCommit(db, a, seen, feeAmount);
            !o.Read? && After(db, o).risk == db.risk && (o.Wrote? ==> o.rest.None?)
  {
    hide IndexAllows, EnsureFeeForApplication;
    if a in db.applications && IndexAllows(db, a, AwaitingPlatformFee) {
      var moved := Move(db, a, Some(Submitted), AwaitingPlatformFee);
      var approved := moved.applications[a].(employerApproved := Some(seen.requested));
      NewFeeLeavesRisk(moved.(applications := moved.applications[a := approved]), a, feeAmount);
    }
  }

  lemma NewFeeLeavesRisk(db: Db, a: Id, feeAmount: Option<Paise>)
    ensures var o := EnsureFeeForApplication(db, a, feeAmount);
            !o.Read? && After(db, o).risk == db.risk && (o.Wrote? ==> o.rest.None?)
  {
  }

  lemma AdminApprovalLeavesRisk(db: Db, a: Id, seen: Application)
    ensures var o := AdminApproveCommit(db, a, seen);
            !o.Read? && After(db, o).risk == db.risk && (o.Wrote? ==> o.rest.None?)
  {
    hide IndexAllows;
  }

  lemma FeesLeaveRisk(db: Db, c: FeeCall, env: Env)
    ensures LeavesRisk(db, Fees(c), FeeStep(db, c, env))
  {
    hide IndexAllows, Cleared, WaiveCommit, CaptureCommit;
    if c.WaiveWrite? { WaivingLeavesRisk(db, c.a, c.seen); }
    if c.CaptureWrite? { CapturingLeavesRisk(db, c.order, c.a); }
  }

  lemma WaivingLeavesRisk(db: Db, a: Id, seen: Application)
    ensures var o := WaiveCommit(db, a, seen); !o.Read? && After(db, o).risk == db.risk && (o.Wrote? ==> o.rest.None?)
  {
    hide IndexAllows;
  }

  lemma CapturingLeavesRisk(db: Db, order: Id, a: Id)
    ensures var o := CaptureCommit(db, order, a);
            !o.Read? && After(db, o).risk == db.risk && (o.Wrote? ==> o.rest.None?)
  {
    hide IndexAllows;
    if order in db.orders { CaptureIs(db, order, a); }
  }

  lemma RepaymentsLeaveRisk(db: Db, c: RepaymentCall, env: Env)
    ensures LeavesRisk(db, Repayments(c), RepaymentStep(db, c, env))
  {
    hide IndexAllows;
  }

  lemma PayrollLeavesRisk(db: Db, c: PayrollCall, env: Env)
    ensures LeavesRisk(db, Payroll(c), PayrollStep(db, c, env))
  {
    hide IsListing;
  }

  lemma JobsLeaveRisk(db: Db, c: JobCall, env: Env)
    ensures LeavesRisk(db, Jobs(c), JobStep(db, c, env))
  {
    hide IsListing;
  }

  lemma OthersGuarded(db: Db, c: Call, env: Env, employer: Id)
    requires IsBlocked(db, employer) && !c.Disbursals? && !c.Settlements?
    ensures StaysBlocked(db, Advance(db, c, env), employer)
  {
    hide ApplicationStep, FeeStep, RepaymentStep, PayrollStep, JobStep;
    OtherServicesPayNothing(db, c, env);
    match c
    case Applications(call) => ApplicationsLeaveRisk(db, call, env);
    case Fees(call) => FeesLeaveRisk(db, call, env);
    case Repayments(call) => RepaymentsLeaveRisk(db, call, env);
    case Payroll(call) => PayrollLeavesRisk(db, call, env);
    case Jobs(call) => JobsLeaveRisk(db, call, env);
  }

  lemma StepStaysBlocked(db: Db, c: Call, env: Env, employer: Id)
    requires IsBlocked(db, employer) && Guarded(c, employer) && CallOk(db, c)
    ensures StaysBlocked(db, Advance(db, c, env), employer)
  {
    hide StaysBlocked, Guarded, IsBlocked, ApplicationStep, FeeStep, DisbursalStep, RepaymentStep, PayrollStep,
         SettlementStep, JobStep;
    match c
    case Disbursals(call) => DisbursalsGuarded(db, call, env, employer);
    case Settlements(call) => SettlementsGuarded(db, call, env, employer);
    case _ => OthersGuarded(db, c, env, employer);
  }

  ghost predicate AllGuarded(w: World, employer: Id) {
    IsBlocked(w.db, employer) && forall t :: t in w.calls ==> Guarded(w.calls[t], employer)
  }

  lemma ActionStaysBlocked(w: World, action: Action, employer: Id)
    requires WorldInv(w) && AllGuarded(w, employer) && (action.Begin? ==> Guarded(action.call, employer))
    ensures AllGuarded(Step(w, action), employer) && NothingPaid(w.db, Step(w, action).db, employer)
  {
    hide Inv, CallOk, Guarded, IsBlocked, Advance, NothingPaid;
    SamePaid(w.db, employer);
    if action.Resume? && action.id in w.calls {
      StepStaysBlocked(w.db, w.calls[action.id], action.env, employer);
    }
  }

  lemma SamePaid(db: Db, employer: Id)
    ensures NothingPaid(db, db, employer)
  {
  }

  lemma NothingPaidTransitive(db: Db, db': Db, db'': Db, employer: Id)
    requires NothingPaid(db, db', employer) && NothingPaid(db', db'', employer)
    requires Inv(db') && Grows(db', db'')
    ensures NothingPaid(db, db'', employer)
  {
    assert DisbursedAmounts(db'.disbursals, db'.applications);
  }

  /** While an employer is blocked and no assessment of it runs, no interleaving of calls creates, pays or changes a
      disbursal of its employees, apart from calls that had already passed the risk guard. */
  lemma {:induction false} BlockedPaysNothing(w: World, actions: seq<Action>, employer: Id)
    requires WorldInv(w) && AllGuarded(w, employer)
    requires forall action :: action in actions && action.Begin? ==> Guarded(action.call, employer)
    ensures AllGuarded(Run(w, actions), employer) && NothingPaid(w.db, Run(w, actions).db, employer)
    decreases |actions|
  {
    hide Inv, CallOk, Guarded, IsBlocked, Step, NothingPaid, AllGuarded, Grows;
    if actions == [] {
      SamePaid(w.db, employer);
    } else {
      var init, last := actions[..|actions| - 1], actions[|actions| - 1];
      BlockedPaysNothing(w, init, employer);
      RunKeeps(w, init);
      StepKeeps(Run(w, init), last);
      ActionStaysBlocked(Run(w, init), last, employer);
      NothingPaidTransitive(w.db, Run(w, init).db, Run(w, actions).db, employer);
    }
  }
}
