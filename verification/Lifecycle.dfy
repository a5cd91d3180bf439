/**
 Runs of the services. Interleaved: any number of calls in progress, each taking
 one atomic step at a time. Serial: one call runs to its end before the next begins.
 */
module Lifecycle {
  import opened Tables
  import opened Steps

  // Interleaved runs

  datatype World = World(db: Db, calls: map<nat, Call>)

  datatype Action =
    | Begin(id: nat, call: Call)
    | Resume(id: nat, env: Env)

  /** The calls a client or the scheduler can make. */
  predicate IsRequest(c: Call) {
    match c
    case Applications(call) =>
      call.Submit? || call.Cancel? || call.EmployerApprove? || call.EmployerReject?
      || call.AdminApprove? || call.AdminReject?
    case Fees(call) => call.InitiatePayment? || call.Waive? || call.Capture? || call.FailPayment?
    case Disbursals(call) => call.CreateDisbursal? || call.Disburse?
    case Repayments(call) => call.Pay?
    case Payroll(call) => call.ProcessRecovery?
    case Settlements(call) => call.MarkPaid? || call.UpdateRisk?
    case Jobs(call) => call.ExpireStale? || call.RepaymentsOverdue? || call.SettlementsOverdue?
  }

  function Step(w: World, action: Action): World {
    match action
    case Begin(id, call) =>
      if id in w.calls || !IsRequest(call) then w else w.(calls := w.calls[id := call])
    case Resume(id, env) =>
      if id !in w.calls then w
      else
        match Advance(w.db, w.calls[id], env)
        case Read(next) => w.(calls := w.calls[id := next])
        case Wrote(db, Some(rest)) => World(db, w.calls[id := rest])
        case Wrote(db, None) => World(db, w.calls - {id})
        case Returned => w.(calls := w.calls - {id})
        case Threw => w.(calls := w.calls - {id})
  }

  function Run(w: World, actions: seq<Action>): World {
    if actions == [] then w
    else Step(Run(w, actions[..|actions| - 1]), actions[|actions| - 1])
  }

  const EMPTY_WORLD := World(EMPTY_DB, map[])

  /** The database a run from empty tables leads to. */
  function Reached(actions: seq<Action>): Db {
    Run(EMPTY_WORLD, actions).db
  }

  // Serial runs

  /** An upper bound on the steps a call still has to take. */
  function StepsLeft(c: Call): nat {
    match c
    case Applications(Submit(_, _, _, _, _)) => 2
    case Applications(Cancel(_, _)) => 2
    case Applications(EmployerApprove(_, _)) => 3
    case Applications(EmployerApproveCheck(_, _)) => 2
    case Applications(EmployerReject(_, _)) => 2
    case Applications(AdminApprove(_)) => 3
    case Applications(AdminApproveFee(_, _)) => 2
    case Applications(AdminReject(_)) => 2
    case Fees(InitiatePayment(_, _)) => 5
    case Fees(EnsureFee(_)) => 4
    case Fees(CreateFee(_, _)) => 3
    case Fees(FindOrder(_, _)) => 2
    case Fees(Waive(_)) => 2
    case Fees(Capture(_)) => 2
    case Fees(FailPayment(_)) => 2
    case Disbursals(CreateDisbursal(_)) => 5
    case Disbursals(FindDisbursal(_, _)) => 4
    case Disbursals(DisbursalRisk(_, _)) => 3
    case Disbursals(DisbursalFee(_, _)) => 2
    case Disbursals(Disburse(_)) => 4
    case Disbursals(DisburseApplication(_, _)) => 3
    case Disbursals(DisburseFee(_, _, _)) => 2
    case Repayments(Pay(_)) => 2
    case Payroll(ProcessRecovery(_, _)) => 3
    case Payroll(FindDueRepayments(_, _)) => 2
    case Settlements(MarkPaid(_)) => 5
    case Settlements(MarkPaidWrite(_, _)) => 4
    case Settlements(UpdateRisk(_)) => 3
    case Settlements(RiskOverdueWrite(_)) => 2
    case Jobs(ExpireStale) => 2
    case Jobs(RepaymentsOverdue) => 2
    case Jobs(SettlementsOverdue) => 2
    case _ => 1
  }

  predicate FewerLeft(c: Call, o: Outcome) {
    && (o.Read? ==> StepsLeft(o.next) < StepsLeft(c))
    && (o.Wrote? && o.rest.Some? ==> StepsLeft(o.rest.value) < StepsLeft(c))
  }

  lemma StepsDecrease(db: Db, c: Call, env: Env)
    ensures FewerLeft(c, Advance(db, c, env))
  {
    hide FewerLeft, ApplicationStep, FeeStep, DisbursalStep, RepaymentStep, PayrollStep, SettlementStep, JobStep;
    match c
    case Applications(call) => ApplicationStepsDecrease(db, call, env);
    case Fees(call) => FeeStepsDecrease(db, call, env);
    case Disbursals(call) => DisbursalStepsDecrease(db, call, env);
    case Repayments(call) => RepaymentStepsDecrease(db, call, env);
    case Payroll(call) => PayrollStepsDecrease(db, call, env);
    case Settlements(call) => SettlementStepsDecrease(db, call, env);
    case Jobs(call) => JobStepsDecrease(db, call, env);
  }

  lemma ApplicationStepsDecrease(db: Db, c: ApplicationCall, env: Env)
    ensures FewerLeft(Applications(c), ApplicationStep(db, c, env))
  {
  }

  lemma FeeStepsDecrease(db: Db, c: FeeCall, env: Env)
    ensures FewerLeft(Fees(c), FeeStep(db, c, env))
  {
  }

  lemma DisbursalStepsDecrease(db: Db, c: DisbursalCall, env: Env)
    ensures FewerLeft(Disbursals(c), DisbursalStep(db, c, env))
  {
  }

  lemma RepaymentStepsDecrease(db: Db, c: RepaymentCall, env: Env)
    ensures FewerLeft(Repayments(c), RepaymentStep(db, c, env))
  {
  }

  lemma PayrollStepsDecrease(db: Db, c: PayrollCall, env: Env)
    ensures FewerLeft(Payroll(c), PayrollStep(db, c, env))
  {
  }

  lemma SettlementStepsDecrease(db: Db, c: SettlementCall, env: Env)
    ensures FewerLeft(Settlements(c), SettlementStep(db, c, env))
  {
  }

  lemma JobStepsDecrease(db: Db, c: JobCall, env: Env)
    ensures FewerLeft(Jobs(c), JobStep(db, c, env))
  {
  }

  datatype Finished = Finished(db: Db, threw: bool)

  /** One call with nothing running beside it. */
  function Alone(db: Db, c: Call, env: Env): Finished
    decreases StepsLeft(c)
  {
    StepsDecrease(db, c, env);
    match Advance(db, c, env)
    case Read(next) => Alone(db, next, env)
    case Wrote(db', Some(rest)) => Alone(db', rest, env)
    case Wrote(db', None) => Finished(db', false)
    case Returned => Finished(db, false)
    case Threw => Finished(db, true)
  }

  /** One step of a call that runs alone. */
  lemma AloneStep(db: Db, c: Call, env: Env)
    ensures var o := Advance(db, c, env);
            Alone(db, c, env) ==
              match o
              case Read(next) => Alone(db, next, env)
              case Wrote(db', Some(rest)) => Alone(db', rest, env)
              case Wrote(db', None) => Finished(db', false)
              case Returned => Finished(db, false)
              case Threw => Finished(db, true)
  {
    hide Advance, StepsLeft;
  }

  /** Call `c`, alone, takes the database from `db` to `db'` and returns (`ok`) or throws. */
  ghost predicate Completes(db: Db, c: Call, env: Env, db': Db, ok: bool) {
    Alone(db, c, env) == Finished(db', !ok)
  }

  datatype Request = Request(call: Call, env: Env)

  function Serial(db: Db, requests: seq<Request>): Db {
    if requests == [] then db
    else
      var before := Serial(db, requests[..|requests| - 1]);
      var last := requests[|requests| - 1];
      if IsRequest(last.call) then Alone(before, last.call, last.env).db else before
  }
}
