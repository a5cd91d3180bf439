/** What holds when every call runs to its end before the next one begins. */
module SerialLaws {
  import opened Wrappers
  import opened Tables
  import opened Steps
  import opened Lifecycle
  import opened LedgerInvariant
  import opened LedgerSteps
  import opened SerialInvariant
  import opened SerialSteps

  // Reads are fresh

  lemma ApplicationReadsFresh(db: Db, a: Id, caller: Id)
    ensures SerialStepOk(db, CancelRead(db, a, caller)) && SerialStepOk(db, EmployerApproveRead(db, a, caller))
    ensures SerialStepOk(db, EmployerRejectRead(db, a, caller)) && SerialStepOk(db, AdminApproveRead(db, a))
    ensures SerialStepOk(db, AdminRejectRead(db, a)) && SerialStepOk(db, WaiveRead(db, a))
  {
    hide SerialInv;
  }

  lemma {:induction false} AssessedKey(keys: seq<SettlementKey>, settlements: map<SettlementKey, Settlement>, env: Env,
                                       soFar: Risk)
    requires forall k :: k in keys ==> k in settlements
    ensures var late := AssessRisk(keys, settlements, env, soFar).1; late.Some? ==> late.value in keys
    decreases |keys|
  {
    if keys != [] && !(env.now > settlements[keys[0]].dueDate + env.graceDays * DAY) {
      var next := if env.now > settlements[keys[0]].dueDate then Warning else soFar;
      AssessedKey(keys[1..], settlements, env, next);
    }
  }

  lemma SettlementReadsFresh(db: Db, key: SettlementKey, employer: Id, env: Env)
    ensures SerialStepOk(db, MarkPaidRead(db, key, env.rows)) && SerialStepOk(db, UpdateRiskRead(db, employer, env))
  {
    hide SerialInv;
    if IsListing(env.keys, OpenSettlements(db, employer)) {
      AssessedKey(env.keys, db.settlements, env, Good);
    }
  }

  lemma JobReadsFresh(db: Db, env: Env)
    ensures SerialStepOk(db, ExpireStaleRead(db, env))
    ensures SerialStepOk(db, RepaymentsOverdueRead(db, env.now))
    ensures SerialStepOk(db, SettlementsOverdueRead(db, env.now))
  {
    hide SerialInv;
    if ExpireStaleRead(db, env).Read? {
      assert forall a :: a in env.rows ==> a in StaleApplications(db, env.now);
    }
  }

  // Steps, service by service

  lemma SubmitSerial(db: Db, a: Id, employee: Id, employer: Id, requested: Paise, terms: Terms, now: Instant)
    requires SerialInv(db)
    ensures SerialStepOk(db, SubmitCommit(db, a, employee, employer, requested, terms, now))
  {
    InvOf(db);
    SubmitKeeps(db, a, employee, employer, requested, terms, now);
    if SubmitCommit(db, a, employee, employer, requested, terms, now).Wrote? {
      NewApplication(db, a);
      ChainedAppend(db.history, Entry(a, None, Submitted));
      SubmittedFits(db, a, Application(employee, employer, Submitted, requested, None, None, now, terms));
      StaysReflexive(db);
      hide Inv, Grows, StatusFits, Settled, Chained, Edges, RepaidStays, SettledStays;
    }
  }

  lemma {:induction false} NoHistory(history: seq<Entry>, a: Id)
    requires forall e :: e in history ==> e.application != a
    ensures Newest(history, a) == None
    decreases |history|
  {
    if history != [] {
      NoHistory(history[..|history| - 1], a);
    }
  }

  lemma NewApplication(db: Db, a: Id)
    requires Inv(db) && a !in db.applications
    ensures a !in db.disbursals && a !in db.repayments && Newest(db.history, a) == None
  {
    NoHistory(db.history, a);
  }

  lemma SubmittedFits(db: Db, a: Id, row: Application)
    requires StatusFits(db.applications, db.disbursals, db.repayments)
    requires a !in db.disbursals && a !in db.repayments && row.status == Submitted
    ensures StatusFits(db.applications[a := row], db.disbursals, db.repayments)
  {
  }

  lemma ApplicationStepSerial(db: Db, c: ApplicationCall, env: Env)
    requires SerialInv(db) && ApplicationCallOk(db, c) && Fresh(db, Applications(c))
    ensures SerialStepOk(db, ApplicationStep(db, c, env))
  {
    hide SerialInv, Inv, SubmitCommit, StatusWrite, EmployerApproveCommit, AdminApproveCommit,
         CancelRead, EmployerApproveRead, EmployerRejectRead, AdminApproveRead, AdminRejectRead;
    match c
    case SubmitWrite(a, employee, employer, requested, terms) =>
      SubmitSerial(db, a, employee, employer, requested, terms, env.now);
    case Cancel(a, employee) => ApplicationReadsFresh(db, a, employee);
    case CancelWrite(a) => StatusWriteSerial(db, a, Cancelled);
    case EmployerApprove(a, employer) => ApplicationReadsFresh(db, a, employer);
    case EmployerApproveWrite(a, seen) => EmployerApproveSerial(db, a, seen, env.feeAmount);
    case EmployerReject(a, employer) => ApplicationReadsFresh(db, a, employer);
    case EmployerRejectWrite(a) => StatusWriteSerial(db, a, EmployerRejected);
    case AdminApprove(a) => ApplicationReadsFresh(db, a, 0);
    case AdminApproveWrite(a, seen) => AdminApproveSerial(db, a, seen);
    case AdminReject(a) => ApplicationReadsFresh(db, a, 0);
    case AdminRejectWrite(a, seen) => StatusWriteSerial(db, a, AdminRejected);
    case _ =>
  }

  lemma FeeWritesSerial(db: Db, c: FeeCall, env: Env)
    requires SerialInv(db) && FeeCallOk(db, c) && (c.CreateFee? || c.CreateOrder? || c.FailPaymentWrite?)
    ensures SerialStepOk(db, FeeStep(db, c, env))
  {
    hide SerialInv, Inv, Grows;
    InvOf(db);
    FeeStepKeeps(db, c, env);
    if FeeStep(db, c, env).Wrote? {
      SideTablesSerial(db, FeeStep(db, c, env));
    }
  }

  lemma FeeStepSerial(db: Db, c: FeeCall, env: Env)
    requires SerialInv(db) && FeeCallOk(db, c) && Fresh(db, Fees(c))
    ensures SerialStepOk(db, FeeStep(db, c, env))
  {
    hide SerialInv, Inv, WaiveRead, WaiveCommit, CaptureCommit, CreateFeeCommit, CreateOrderCommit, FailPaymentCommit;
    match c
    case Waive(a) => ApplicationReadsFresh(db, a, 0);
    case WaiveWrite(a, seen) => WaiveSerial(db, a, seen);
    case CaptureWrite(o, a) => CaptureSerial(db, o, a);
    case CreateFee(_, _) => FeeWritesSerial(db, c, env);
    case CreateOrder(_, _) => FeeWritesSerial(db, c, env);
    case FailPaymentWrite(_) => FeeWritesSerial(db, c, env);
    case _ =>
  }

  lemma DisbursalStepSerial(db: Db, c: DisbursalCall, env: Env)
    requires SerialInv(db) && DisbursalCallOk(db, c) && Fresh(db, Disbursals(c))
    ensures SerialStepOk(db, DisbursalStep(db, c, env))
  {
    hide SerialInv, Inv, CreateDisbursalCommit, DisburseCommit;
    match c
    case CreateDisbursalWrite(a, seen) => CreateDisbursalSerial(db, a, seen);
    case DisburseWrite(a, amount, amounts, seen) => DisburseSerial(db, a, amount, amounts, seen);
    case _ =>
  }

  lemma RepaymentStepSerial(db: Db, c: RepaymentCall, env: Env)
    requires SerialInv(db) && RepaymentCallOk(db, c)
    ensures SerialStepOk(db, RepaymentStep(db, c, env))
  {
    hide SerialInv, Inv, PayCommit;
    match c
    case Pay(a) =>
    case PayWrite(a) => PaySerial(db, a);
  }

  lemma PayrollStepSerial(db: Db, c: PayrollCall, env: Env)
    requires SerialInv(db) && PayrollCallOk(db, c)
    ensures SerialStepOk(db, PayrollStep(db, c, env))
  {
    hide SerialInv, Inv, ProcessRecoveryCommit;
    match c
    case ProcessRecoveryWrite(key, ids, rows, dueDate) => RecoverySerial(db, key, ids, rows, dueDate);
    case _ =>
  }

  lemma SettlementStepSerial(db: Db, c: SettlementCall, env: Env)
    requires SerialInv(db) && SettlementCallOk(db, c) && Fresh(db, Settlements(c))
    ensures SerialStepOk(db, SettlementStep(db, c, env))
  {
    hide SerialInv, Inv, Grows, MarkPaidRead, UpdateRiskRead, MarkPaidCommit, RiskOverdueCommit;
    match c
    case MarkPaid(key) => SettlementReadsFresh(db, key, 0, env);
    case MarkPaidWrite(key, ids) => MarkPaidSerial(db, key, ids);
    case UpdateRisk(employer) => SettlementReadsFresh(db, SettlementKey(0, 0), employer, env);
    case RiskOverdueWrite(key) => RiskOverdueSerial(db, key);
    case RiskWrite(employer, risk) =>
      InvOf(db);
      RiskWriteKeeps(db, employer, risk);
      SideTablesSerial(db, RiskCommit(db, employer, risk));
  }

  lemma JobStepSerial(db: Db, c: JobCall, env: Env)
    requires SerialInv(db) && JobCallOk(db, c) && Fresh(db, Jobs(c))
    ensures SerialStepOk(db, JobStep(db, c, env))
  {
    hide SerialInv, Inv, ExpireStaleRead, RepaymentsOverdueRead, SettlementsOverdueRead,
         ExpireStaleCommit, RepaymentsOverdueCommit, SettlementsOverdueCommit;
    match c
    case ExpireStale => JobReadsFresh(db, env);
    case ExpireStaleWrite(ids) => ExpireSerial(db, ids);
    case RepaymentsOverdue => JobReadsFresh(db, env);
    case RepaymentsOverdueWrite(overdue) => RepaymentsOverdueSerial(db, overdue);
    case SettlementsOverdue => JobReadsFresh(db, env);
    case SettlementsOverdueWrite(late) => SettlementsOverdueSerial(db, late);
  }

  lemma AdvanceSerial(db: Db, c: Call, env: Env)
    requires SerialInv(db) && CallOk(db, c) && Fresh(db, c)
    ensures SerialStepOk(db, Advance(db, c, env))
  {
    hide SerialInv, SerialStepOk, Fresh,
         ApplicationStep, FeeStep, DisbursalStep, RepaymentStep, PayrollStep, SettlementStep, JobStep;
    match c
    case Applications(call) => ApplicationStepSerial(db, call, env);
    case Fees(call) => FeeStepSerial(db, call, env);
    case Disbursals(call) => DisbursalStepSerial(db, call, env);
    case Repayments(call) => RepaymentStepSerial(db, call, env);
    case Payroll(call) => PayrollStepSerial(db, call, env);
    case Settlements(call) => SettlementStepSerial(db, call, env);
    case Jobs(call) => JobStepSerial(db, call, env);
  }

  // Calls and runs

  ghost predicate PaidStays(db: Db, db': Db) {
    RepaidStays(db.repayments, db'.repayments) && SettledStays(db.settlements, db'.settlements)
  }

  lemma {:induction false} AloneSerial(db: Db, c: Call, env: Env)
    requires SerialInv(db) && CallOk(db, c) && Fresh(db, c)
    ensures SerialInv(Alone(db, c, env).db) && PaidStays(db, Alone(db, c, env).db)
    decreases StepsLeft(c)
  {
    hide SerialInv, Inv, Grows, CallOk, Fresh, Advance, StepsLeft;
    InvOf(db);
    AdvanceKeeps(db, c, env);
    AdvanceSerial(db, c, env);
    StepsDecrease(db, c, env);
    match Advance(db, c, env)
    case Read(next) => AloneSerial(db, next, env);
    case Wrote(db', Some(rest)) => AloneSerial(db', rest, env);
    case Wrote(_, None) =>
    case Returned =>
    case Threw =>
  }

  lemma RequestFresh(db: Db, c: Call)
    requires IsRequest(c)
    ensures CallOk(db, c) && Fresh(db, c)
  {
  }

  lemma EmptySerial()
    ensures SerialInv(EMPTY_DB)
  {
  }

  lemma {:induction false} SerialRun(db: Db, requests: seq<Request>)
    requires SerialInv(db)
    ensures SerialInv(Serial(db, requests)) && PaidStays(db, Serial(db, requests))
    decreases |requests|
  {
    hide SerialInv, Alone, CallOk, Fresh, IsRequest;
    if requests != [] {
      var init, last := requests[..|requests| - 1], requests[|requests| - 1];
      SerialRun(db, init);
      if IsRequest(last.call) {
        RequestFresh(Serial(db, init), last.call);
        AloneSerial(Serial(db, init), last.call, last.env);
      }
    }
  }

  lemma SerialReachable(requests: seq<Request>)
    ensures SerialInv(Serial(EMPTY_DB, requests))
  {
    hide SerialInv;
    EmptySerial();
    SerialRun(EMPTY_DB, requests);
  }

  lemma {:induction false} SerialConcat(db: Db, requests: seq<Request>, more: seq<Request>)
    ensures Serial(db, requests + more) == Serial(Serial(db, requests), more)
    decreases |more|
  {
    hide Alone, IsRequest;
    if more == [] {
      assert requests + more == requests;
    } else {
      assert (requests + more)[..|requests + more| - 1] == requests + more[..|more| - 1];
      SerialConcat(db, requests, more[..|more| - 1]);
    }
  }

  // The laws

  /** An application is REPAID exactly when its repayment is PAID. */
  lemma RepaidIffPaid(requests: seq<Request>, a: Id)
    ensures var db := Serial(EMPTY_DB, requests);
            a in db.applications ==>
              (db.applications[a].status == Repaid <==> a in db.repayments && db.repayments[a].status == Paid)
  {
    SerialReachable(requests);
  }

  /** A paid settlement owes nothing and every advance in it is repaid; any other settlement owes its whole total. */
  lemma SettlementPaidInFull(requests: seq<Request>, key: SettlementKey)
    ensures var db := Serial(EMPTY_DB, requests);
            key in db.settlements ==>
              if db.settlements[key].status == SettlementPaid then
                db.settlements[key].outstanding == 0
                && forall r :: r in ItemsOf(db, key) ==>
                     && r in db.repayments && db.repayments[r].status == Paid
                     && r in db.applications && db.applications[r].status == Repaid
              else db.settlements[key].outstanding == db.settlements[key].total
  {
    SerialReachable(requests);
  }

  /** No later call, job or risk assessment takes a payment back. */
  lemma PaidForever(requests: seq<Request>, more: seq<Request>)
    ensures var db, later := Serial(EMPTY_DB, requests), Serial(EMPTY_DB, requests + more);
            && (forall r :: r in db.repayments && db.repayments[r].status == Paid ==>
                  r in later.repayments && later.repayments[r].status == Paid
                  && r in later.applications && later.applications[r].status == Repaid)
            && (forall k :: k in db.settlements && db.settlements[k].status == SettlementPaid ==>
                  k in later.settlements && later.settlements[k].status == SettlementPaid
                  && later.settlements[k].outstanding == 0)
  {
    SerialReachable(requests);
    SerialConcat(EMPTY_DB, requests, more);
    SerialRun(Serial(EMPTY_DB, requests), more);
  }

  /** How far an application has come; every other status change only moves forward. */
  function Rank(s: Status): nat {
    match s
    case Submitted => 0
    case AwaitingPlatformFee => 1
    case EmployerApproved => 2
    case ReadyForDisbursal => 3
    case AdminRejected => 4
    case RepaymentScheduled => 5
    case Repaid => 6
    case _ => 7
  }

  /** History is one chain for each application, made of the services' own edges, and climbs the ranks. */
  lemma HistoryClimbs(requests: seq<Request>, i: nat)
    requires i < |Serial(EMPTY_DB, requests).history|
    ensures var h := Serial(EMPTY_DB, requests).history;
            && h[i].previous == Newest(h[..i], h[i].application)
            && Edge(h[i].previous, h[i].next)
            && h[i].next != Disbursed
            && (h[i].previous.Some? ==>
                  Rank(h[i].previous.value) < Rank(h[i].next) || (h[i].previous.value == Repaid && h[i].next == Repaid))
  {
    SerialReachable(requests);
    HistoryOf(Serial(EMPTY_DB, requests));
    hide SerialInv, Serial, Edge, Rank;
    var h := Serial(EMPTY_DB, requests).history;
    assert h[i] in h;
    EdgeClimbs(h[i].previous, h[i].next);
  }

  lemma HistoryOf(db: Db)
    requires SerialInv(db)
    ensures Chained(db.history) && Edges(db.history)
  {
  }

  lemma EdgeClimbs(previous: Option<Status>, next: Status)
    requires Edge(previous, next)
    ensures next != Disbursed
    ensures previous.Some? ==> Rank(previous.value) < Rank(next) || (previous.value == Repaid && next == Repaid)
  {
  }

  /** The gate's list and the index's list, kept in two places, name the same statuses. */
  lemma GateListsIndexStatuses(s: Status)
    ensures BlocksSubmission(s) <==> IsActive(s)
  {
  }

  /** Alone, a submission is refused exactly by the eligibility check: what the check lets through the index lets in. */
  lemma IndexAgreesWithGate(db: Db, a: Id, employee: Id, employer: Id, requested: Paise, terms: Terms, env: Env)
    requires a !in db.applications
    ensures Alone(db, Applications(Submit(a, employee, employer, requested, terms)), env).threw
       <==> SubmitRead(db, a, employee, employer, requested, terms, env).Threw?
  {
    hide Alone, BlocksSubmission, IsActive;
    AloneStep(db, Applications(Submit(a, employee, employer, requested, terms)), env);
    AloneStep(db, Applications(SubmitWrite(a, employee, employer, requested, terms)), env);
    forall b | b in db.applications { GateListsIndexStatuses(db.applications[b].status); }
    if ActiveOf(db, employee) != {} {
      var b :| b in ActiveOf(db, employee);
    }
  }
}
