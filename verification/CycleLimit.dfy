/**
 The per-cycle request limit of src/eligibility/eligibility.service.ts, over whole
 serial runs of the services. The gate counts repaid advances in the cycle of
 `calculateDueDate`; an advance is stored under the cycle of `resolveRecoveryDate`.
 */
module CycleLimit {
  import opened Tables
  import opened Lifecycle
  import opened Calendar
  import opened PayrollUtil
  import opened RecoveryDates
  import opened Rejections

  datatype Rules = Rules(payrollDay: int, cutoff: int, limit: nat)

  /** The calendar day of an instant in local time. */
  function CivilOf(t: Instant): Civil {
    MakeDay(0, t / MS_PER_DAY + 1)
  }

  function StoredCycle(day: Civil, rules: Rules): int {
    ResolveRecoveryDate(day, rules.payrollDay, rules.cutoff).month
  }

  function CountedCycle(day: Civil, rules: Rules): int {
    DueDate(day, rules.cutoff, rules.payrollDay).month
  }

  /** The payroll cycle stored with an application: the month of its recovery date. */
  function CycleOf(app: Application): int {
    CivilOf(app.terms.recoveryDate).month
  }

  function RepaidIn(db: Db, employee: Id, cycle: int): set<Id> {
    set a | a in db.applications && db.applications[a].employee == employee && db.applications[a].status == Repaid
            && CycleOf(db.applications[a]) == cycle
  }

  predicate Submits(r: Request, employee: Id) {
    r.call.Applications? && r.call.application.Submit? && r.call.application.employee == employee
  }

  /** A submission with its frozen recovery date, let through only below the limit. */
  predicate GateRead(db: Db, r: Request, employee: Id, rules: Rules) {
    Submits(r, employee) ==>
      var day := CivilOf(r.env.now);
      && r.call.application.terms.recoveryDate
         == Milliseconds(ResolveRecoveryDate(day, rules.payrollDay, rules.cutoff), 0)
      && (r.env.otherGates ==> |RepaidIn(db, employee, CountedCycle(day, rules))| < rules.limit)
  }

  /** The run's submissions by the employee all pass through that gate. */
  ghost predicate Gated(requests: seq<Request>, employee: Id, rules: Rules) {
    forall i :: 0 <= i < |requests| ==> GateRead(Serial(EMPTY_DB, requests[..i]), requests[i], employee, rules)
  }

  ghost predicate OnDays(requests: seq<Request>, employee: Id, days: iset<Civil>) {
    forall i :: 0 <= i < |requests| && Submits(requests[i], employee) ==> CivilOf(requests[i].env.now) in days
  }

  /** The employee has a rejected application whose disbursal is still PENDING. */
  predicate MayComeBack(db: Db, employee: Id) {
    exists a :: a in db.applications && db.applications[a].employee == employee
                && db.applications[a].status == AdminRejected
                && Waiting(db, a)
  }

  ghost predicate NoneMayComeBack(requests: seq<Request>, employee: Id) {
    forall i :: 0 <= i < |requests| && Submits(requests[i], employee) ==>
      !MayComeBack(Serial(EMPTY_DB, requests[..i]), employee)
  }

  /** The days on which both cycles are the same. */
  ghost function AgreeingDays(rules: Rules): iset<Civil> {
    iset c: Civil | StoredCycle(c, rules) == CountedCycle(c, rules)
  }
}

module CycleLimitLaws {
  import opened Wrappers
  import opened Tables
  import opened Steps
  import opened Lifecycle
  import opened LedgerInvariant
  import opened LedgerSteps
  import opened SerialInvariant
  import opened SerialSteps
  import opened SerialLaws
  import opened Calendar
  import opened CalendarLaws
  import opened RecoveryDates
  import opened Rejections
  import opened Progress
  import opened CycleLimit

  // Days and instants

  lemma CivilOfDay(c: Civil, time: int)
    requires IsDate(c) && 0 <= time < MS_PER_DAY
    ensures CivilOf(Milliseconds(c, time)) == c
  {
    hide MonthStart, MonthLength, MakeDay;
    var n := DayNumber(c);
    assert (n * MS_PER_DAY + time) / MS_PER_DAY == n;
    MakeDayIsDay(0, n + 1);
    MonthZero();
    DayNumberInjective(MakeDay(0, n + 1), c);
  }

  lemma MonthZero()
    ensures MonthStart(0) == 0
  {
  }

  // Which requests bring new applications

  lemma StepAddsNone(db: Db, c: Call, env: Env)
    requires !(c.Applications? && c.application.SubmitWrite?)
    ensures After(db, Advance(db, c, env)).applications.Keys == db.applications.Keys
  {
    hide ApplicationStep, FeeStep, DisbursalStep, RepaymentStep, PayrollStep, SettlementStep, JobStep;
    match c
    case Applications(call) => ApplicationsAddNone(db, call, env);
    case Fees(call) => FeesAddNone(db, call, env);
    case Disbursals(call) => DisbursalsAddNone(db, call, env);
    case Repayments(call) => RepaymentsAddNone(db, call, env);
    case Payroll(call) => PayrollAddsNone(db, call, env);
    case Settlements(call) => SettlementsAddNone(db, call, env);
    case Jobs(call) => JobsAddNone(db, call, env);
  }

  lemma StatusWriteAddsNone(db: Db, a: Id, previous: Status, next: Status)
    ensures After(db, StatusWrite(db, a, previous, next)).applications.Keys == db.applications.Keys
  {
    hide IndexAllows;
    if a in db.applications { SameKeys(db.applications, a, db.applications[a].(status := next)); }
  }

  lemma SameKeys<K, V>(m: map<K, V>, k: K, v: V)
    requires k in m
    ensures m[k := v].Keys == m.Keys
  {
  }

  lemma ApprovalsAddNone(db: Db, a: Id, seen: Application, feeAmount: Option<Paise>)
    ensures After(db, EmployerApproveCommit(db, a, seen, feeAmount)).applications.Keys == db.applications.Keys
    ensures After(db, AdminApproveCommit(db, a, seen)).applications.Keys == db.applications.Keys
  {
    hide IndexAllows, Cleared;
  }

  lemma ApplicationsAddNone(db: Db, c: ApplicationCall, env: Env)
    requires !c.SubmitWrite?
    ensures After(db, ApplicationStep(db, c, env)).applications.Keys == db.applications.Keys
  {
    hide IndexAllows, Cleared, StatusWrite, EmployerApproveCommit, AdminApproveCommit, IsActive, BlocksSubmission;
    match c
    case CancelWrite(a) => StatusWriteAddsNone(db, a, Submitted, Cancelled);
    case EmployerRejectWrite(a) => StatusWriteAddsNone(db, a, Submitted, EmployerRejected);
    case AdminRejectWrite(a, seen) => StatusWriteAddsNone(db, a, seen.status, AdminRejected);
    case EmployerApproveWrite(a, seen) => ApprovalsAddNone(db, a, seen, env.feeAmount);
    case AdminApproveWrite(a, seen) => ApprovalsAddNone(db, a, seen, None);
    case _ =>
  }

  lemma FeesAddNone(db: Db, c: FeeCall, env: Env)
    ensures After(db, FeeStep(db, c, env)).applications.Keys == db.applications.Keys
  {
    hide IndexAllows, Cleared, WaiveCommit, CaptureCommit;
    if c.WaiveWrite? { WaivingAddsNone(db, c.a, c.seen); }
    if c.CaptureWrite? { CapturingAddsNone(db, c.order, c.a); }
  }

  lemma WaivingAddsNone(db: Db, a: Id, seen: Application)
    ensures After(db, WaiveCommit(db, a, seen)).applications.Keys == db.applications.Keys
  {
    hide StatusWrite;
    if a in db.fees {
      StatusWriteAddsNone(db.(fees := db.fees[a := db.fees[a].(status := FeeWaived)]), a, seen.status,
                          EmployerApproved);
    }
  }

  lemma CapturingAddsNone(db: Db, o: Id, a: Id)
    ensures After(db, CaptureCommit(db, o, a)).applications.Keys == db.applications.Keys
  {
    hide IndexAllows;
    if o in db.orders { CaptureIs(db, o, a); }
  }

  lemma DisbursalsAddNone(db: Db, c: DisbursalCall, env: Env)
    ensures After(db, DisbursalStep(db, c, env)).applications.Keys == db.applications.Keys
  {
    hide IndexAllows, Cleared;
  }

  lemma RepaymentsAddNone(db: Db, c: RepaymentCall, env: Env)
    ensures After(db, RepaymentStep(db, c, env)).applications.Keys == db.applications.Keys
  {
    hide IndexAllows;
  }

  lemma PayrollAddsNone(db: Db, c: PayrollCall, env: Env)
    ensures After(db, PayrollStep(db, c, env)).applications.Keys == db.applications.Keys
  {
  }

  lemma SettlementsAddNone(db: Db, c: SettlementCall, env: Env)
    ensures After(db, SettlementStep(db, c, env)).applications.Keys == db.applications.Keys
  {
  }

  lemma JobsAddNone(db: Db, c: JobCall, env: Env)
    ensures After(db, JobStep(db, c, env)).applications.Keys == db.applications.Keys
  {
  }

  predicate NotSubmitting(c: Call) {
    !(c.Applications? && (c.application.Submit? || c.application.SubmitWrite?))
  }

  predicate GoesOn(o: Outcome) {
    (o.Read? ==> NotSubmitting(o.next)) && (o.Wrote? && o.rest.Some? ==> NotSubmitting(o.rest.value))
  }

  lemma ApplicationsGoOn(db: Db, c: ApplicationCall, env: Env)
    requires NotSubmitting(Applications(c))
    ensures GoesOn(ApplicationStep(db, c, env))
  {
    hide IndexAllows, Cleared;
  }

  lemma FeesGoOn(db: Db, c: FeeCall, env: Env)
    ensures GoesOn(FeeStep(db, c, env))
  {
    hide IndexAllows, Cleared;
  }

  lemma DisbursalsGoOn(db: Db, c: DisbursalCall, env: Env)
    ensures GoesOn(DisbursalStep(db, c, env))
  {
    hide IndexAllows, Cleared;
  }

  lemma RecoveriesGoOn(db: Db, c: RepaymentCall, d: PayrollCall, env: Env)
    ensures GoesOn(RepaymentStep(db, c, env)) && GoesOn(PayrollStep(db, d, env))
  {
    hide IndexAllows;
  }

  lemma SettlementsGoOn(db: Db, c: SettlementCall, env: Env)
    ensures GoesOn(SettlementStep(db, c, env))
  {
  }

  lemma JobsGoOn(db: Db, c: JobCall, env: Env)
    ensures GoesOn(JobStep(db, c, env))
  {
  }

  lemma GoesOnNotSubmitting(db: Db, c: Call, env: Env)
    requires NotSubmitting(c)
    ensures GoesOn(Advance(db, c, env))
  {
    hide GoesOn, NotSubmitting, ApplicationStep, FeeStep, DisbursalStep, RepaymentStep, PayrollStep, SettlementStep,
         JobStep;
    match c
    case Applications(call) => ApplicationsGoOn(db, call, env);
    case Fees(call) => FeesGoOn(db, call, env);
    case Disbursals(call) => DisbursalsGoOn(db, call, env);
    case Repayments(call) => RecoveriesGoOn(db, call, ProcessRecovery(SettlementKey(0, 0), 0), env);
    case Payroll(call) => RecoveriesGoOn(db, Pay(0), call, env);
    case Settlements(call) => SettlementsGoOn(db, call, env);
    case Jobs(call) => JobsGoOn(db, call, env);
  }

  /** What one call, alone, keeps of the interleaved world: rows only grow. */
  lemma {:induction false} AloneGrows(db: Db, c: Call, env: Env)
    requires Inv(db) && CallOk(db, c)
    ensures Grows(db, Alone(db, c, env).db)
    ensures NotSubmitting(c) ==> Alone(db, c, env).db.applications.Keys == db.applications.Keys
    decreases StepsLeft(c)
  {
    hide Inv, Grows, CallOk, Advance, StepsLeft, NotSubmitting;
    AdvanceKeeps(db, c, env);
    StepsDecrease(db, c, env);
    GrowsReflexive(db);
    if NotSubmitting(c) {
      GoesOnNotSubmitting(db, c, env);
      NotAWrite(c);
      StepAddsNone(db, c, env);
    }
    match Advance(db, c, env)
    case Read(next) => AloneGrows(db, next, env);
    case Wrote(db', Some(rest)) =>
      AloneGrows(db', rest, env);
      GrowsTransitive(db, db', Alone(db', rest, env).db);
    case Wrote(_, None) =>
    case Returned =>
    case Threw =>
  }

  lemma NotAWrite(c: Call)
    requires NotSubmitting(c)
    ensures !(c.Applications? && c.application.SubmitWrite?)
  {
  }

  // What counts against the limit

  predicate Live(db: Db, a: Id) {
    a in db.applications
    && (IsActive(db.applications[a].status) || (db.applications[a].status == AdminRejected && Waiting(db, a)))
  }

  /** Advances of a cycle that are repaid or may still be. */
  ghost function Taken(db: Db, employee: Id, cycle: int): set<Id> {
    set a | a in db.applications && db.applications[a].employee == employee && CycleOf(db.applications[a]) == cycle
            && (db.applications[a].status == Repaid || Live(db, a))
  }

  lemma TakenUnlessEnded(db: Db, a: Id)
    requires SerialInv(db) && a in db.applications
    ensures Ended(db, a) <==> !(db.applications[a].status == Repaid || Live(db, a))
  {
    if db.applications[a].status == AdminRejected { RejectedRows(db, a); }
  }

  lemma SubsetSize<T>(s: set<T>, t: set<T>)
    requires s <= t
    ensures |s| <= |t|
    decreases s
  {
    if s != {} {
      var x :| x in s;
      SubsetSize(s - {x}, t - {x});
    }
  }

  /** Without a new application of the employee nothing more can count. */
  lemma TakenShrinks(db: Db, db': Db, employee: Id, cycle: int)
    requires SerialInv(db) && SerialInv(db') && Grows(db, db')
    requires forall a :: a in db'.applications && db'.applications[a].employee == employee ==> a in db.applications
    requires forall a :: Ended(db, a) ==> Ended(db', a)
    ensures Taken(db', employee, cycle) <= Taken(db, employee, cycle)
    ensures |Taken(db', employee, cycle)| <= |Taken(db, employee, cycle)|
  {
    hide SerialInv, Grows, CycleOf, Ended, Live;
    forall a | a in Taken(db', employee, cycle)
      ensures a in Taken(db, employee, cycle)
    {
      TakenUnlessEnded(db', a);
      TakenUnlessEnded(db, a);
      SameTerms(db, db', a);
    }
    SubsetSize(Taken(db', employee, cycle), Taken(db, employee, cycle));
  }

  lemma SameTerms(db: Db, db': Db, a: Id)
    requires Grows(db, db') && a in db.applications
    ensures a in db'.applications && db'.applications[a].employee == db.applications[a].employee
    ensures CycleOf(db'.applications[a]) == CycleOf(db.applications[a])
  {
    hide CivilOf;
  }

  lemma SubmitOutcome(db: Db, a: Id, employee: Id, employer: Id, requested: Paise, terms: Terms, env: Env)
    ensures var row := Application(employee, employer, Submitted, requested, None, None, env.now, terms);
            var done := Alone(db, Applications(Submit(a, employee, employer, requested, terms)), env);
            done.db == db
            || (a !in db.applications && ActiveOf(db, employee) == {} && env.otherGates
                && done.db == db.(applications := db.applications[a := row], history := done.db.history))
  {
    hide Alone;
    AloneStep(db, Applications(Submit(a, employee, employer, requested, terms)), env);
    AloneStep(db, Applications(SubmitWrite(a, employee, employer, requested, terms)), env);
  }

  /** A submission that passes the gate on an agreeing day, with nothing waiting to come back, fits below the limit. */
  lemma SubmissionFits(db: Db, r: Request, employee: Id, rules: Rules, cycle: int)
    requires Submits(r, employee) && GateRead(db, r, employee, rules) && !MayComeBack(db, employee)
    requires CivilOf(r.env.now) in AgreeingDays(rules) && |Taken(db, employee, cycle)| <= rules.limit
    ensures |Taken(Alone(db, r.call, r.env).db, employee, cycle)| <= rules.limit
  {
    hide Alone, CycleOf, CivilOf, StoredCycle, CountedCycle, ResolveRecoveryDate;
    var c := r.call.application;
    SubmitOutcome(db, c.a, employee, c.employer, c.requested, c.terms, r.env);
    var db' := Alone(db, r.call, r.env).db;
    if db' != db {
      var day := CivilOf(r.env.now);
      NewCycle(db'.applications[c.a], day, rules);
      NothingLive(db, employee, cycle);
      if CycleOf(db'.applications[c.a]) == cycle {
        TakenOne(db, db', c.a, employee, cycle);
      } else {
        assert Taken(db', employee, cycle) <= Taken(db, employee, cycle);
        SubsetSize(Taken(db', employee, cycle), Taken(db, employee, cycle));
      }
    }
  }

  lemma NewCycle(row: Application, day: Civil, rules: Rules)
    requires row.terms.recoveryDate == Milliseconds(ResolveRecoveryDate(day, rules.payrollDay, rules.cutoff), 0)
    ensures CycleOf(row) == StoredCycle(day, rules)
  {
    hide CivilOf, ResolveRecoveryDate, Milliseconds;
    CivilOfDay(ResolveRecoveryDate(day, rules.payrollDay, rules.cutoff), 0);
  }

  lemma NothingLive(db: Db, employee: Id, cycle: int)
    requires ActiveOf(db, employee) == {} && !MayComeBack(db, employee)
    ensures Taken(db, employee, cycle) == RepaidIn(db, employee, cycle)
  {
    hide CycleOf;
    forall a | a in Taken(db, employee, cycle)
      ensures a in RepaidIn(db, employee, cycle)
    {
      assert IsActive(db.applications[a].status) ==> a in ActiveOf(db, employee);
    }
  }

  lemma TakenOne(db: Db, db': Db, a: Id, employee: Id, cycle: int)
    requires a !in db.applications && db'.disbursals == db.disbursals && a in db'.applications
    requires db'.applications == db.applications[a := db'.applications[a]]
    ensures |Taken(db', employee, cycle)| <= |Taken(db, employee, cycle)| + 1
  {
    hide CycleOf;
    assert Taken(db', employee, cycle) <= Taken(db, employee, cycle) + {a};
    SubsetSize(Taken(db', employee, cycle), Taken(db, employee, cycle) + {a});
  }

  lemma OtherRequestFits(db: Db, r: Request, employee: Id, cycle: int)
    requires SerialInv(db) && IsRequest(r.call) && !Submits(r, employee)
    ensures |Taken(Alone(db, r.call, r.env).db, employee, cycle)| <= |Taken(db, employee, cycle)|
  {
    hide SerialInv, Inv, Grows, CallOk, Fresh, Alone, Taken, Ended;
    var db' := Alone(db, r.call, r.env).db;
    RequestFresh(db, r.call);
    InvOf(db);
    AloneSerial(db, r.call, r.env);
    AloneGrows(db, r.call, r.env);
    if r.call.Applications? && r.call.application.Submit? {
      var c := r.call.application;
      SubmitOutcome(db, c.a, c.employee, c.employer, c.requested, c.terms, r.env);
    }
    forall a | Ended(db, a)
      ensures Ended(db', a)
    {
      AloneStaysEnded(db, r.call, r.env, a);
    }
    TakenShrinks(db, db', employee, cycle);
  }

  lemma GatedPrefix(requests: seq<Request>, employee: Id, rules: Rules, days: iset<Civil>)
    requires requests != [] && Gated(requests, employee, rules) && OnDays(requests, employee, days)
    requires NoneMayComeBack(requests, employee)
    ensures var init := requests[..|requests| - 1];
            Gated(init, employee, rules) && OnDays(init, employee, days) && NoneMayComeBack(init, employee)
  {
    hide Serial, GateRead, MayComeBack, Submits;
    var init := requests[..|requests| - 1];
    forall i | 0 <= i < |init|
      ensures init[..i] == requests[..i]
    {
    }
  }

  lemma {:induction false} TakenBounded(requests: seq<Request>, employee: Id, rules: Rules, cycle: int)
    requires Gated(requests, employee, rules) && OnDays(requests, employee, AgreeingDays(rules))
    requires NoneMayComeBack(requests, employee)
    ensures |Taken(Serial(EMPTY_DB, requests), employee, cycle)| <= rules.limit
    decreases |requests|
  {
    if requests == [] {
      assert Taken(EMPTY_DB, employee, cycle) == {};
    } else {
      hide Alone, Taken, IsRequest, GateRead, MayComeBack, SerialInv, CivilOf;
      var init, last := requests[..|requests| - 1], requests[|requests| - 1];
      GatedPrefix(requests, employee, rules, AgreeingDays(rules));
      TakenBounded(init, employee, rules, cycle);
      SerialReachable(init);
      if IsRequest(last.call) {
        if Submits(last, employee) {
          SubmissionFits(Serial(EMPTY_DB, init), last, employee, rules, cycle);
        } else {
          OtherRequestFits(Serial(EMPTY_DB, init), last, employee, cycle);
        }
      }
    }
  }

  /** Gated on days whose two cycles agree, and never while a rejected advance may come back, an employee's repaid
      advances stay within the limit in every cycle. */
  lemma LimitKept(requests: seq<Request>, employee: Id, rules: Rules, cycle: int)
    requires Gated(requests, employee, rules) && OnDays(requests, employee, AgreeingDays(rules))
    requires NoneMayComeBack(requests, employee)
    ensures |RepaidIn(Serial(EMPTY_DB, requests), employee, cycle)| <= rules.limit
  {
    hide Serial, CycleOf;
    TakenBounded(requests, employee, rules, cycle);
    SubsetSize(RepaidIn(Serial(EMPTY_DB, requests), employee, cycle),
               Taken(Serial(EMPTY_DB, requests), employee, cycle));
  }

  // Runs that go over the limit: employee 0 of employer 0, applications numbered from 0

  function TermsOn(day: Civil, rules: Rules): Terms {
    Terms(0, 0, 0, 0, 1, Milliseconds(ResolveRecoveryDate(day, rules.payrollDay, rules.cutoff), 0))
  }

  function EnvOn(day: Civil, a: Id): Env {
    Env(Milliseconds(day, 0), Some(0), a, true, true, 0, [], [])
  }

  /** After `n` applications: from number `first` on all repaid, and if `first` is 1, number 0 rejected with its
      disbursal PENDING. */
  ghost predicate Rows(db: Db, n: nat, first: nat, day: Civil, rules: Rules) {
    && (forall a: Id :: a in db.applications <==> a < n)
    && (forall a :: a in db.applications ==>
          && db.applications[a].employee == 0 && db.applications[a].terms == TermsOn(day, rules)
          && db.applications[a].status == if a >= first then Repaid else AdminRejected)
    && (forall a :: a in db.fees || a in db.disbursals || a in db.repayments ==> a < n)
    && (forall o :: o in db.orders ==> o < n && db.orders[o].fee < n)
    && db.risk == map[]
    && (first == 1 ==> 0 in db.applications && AwaitsPayout(db, 0, db.applications[0]))
  }

  lemma RowsClear(db: Db, n: nat, first: nat, day: Civil, rules: Rules)
    requires Rows(db, n, first, day, rules)
    ensures Clear(db, n, 0, 0, EnvOn(day, n))
  {
    hide TermsOn;
    assert ActiveOf(db, 0) == {};
  }

  function Round(a: Id, day: Civil, rules: Rules): seq<Request> {
    ToRepaid(a, 0, 0, 0, TermsOn(day, rules), EnvOn(day, a))
  }

  lemma RoundRows(db: Db, n: nat, first: nat, day: Civil, rules: Rules)
    requires Rows(db, n, first, day, rules) && first <= n
    ensures Rows(Serial(db, Round(n, day, rules)), n + 1, first, day, rules)
  {
    hide Serial, Accepted, ToRepaid, TermsOn;
    RowsClear(db, n, first, day, rules);
    AdvanceCanBeRepaid(db, n, 0, 0, 0, TermsOn(day, rules), EnvOn(day, n));
    var db' := Serial(db, Round(n, day, rules));
    if first == 1 { StillAwaits(db, db', n); }
  }

  lemma StillAwaits(db: Db, db': Db, n: nat)
    requires 0 in db.applications && AwaitsPayout(db, 0, db.applications[0]) && OnlyAbout(db, db', n) && n != 0
    requires n in db'.applications && db'.applications[n].status == Repaid
    ensures 0 in db'.applications && db'.applications[0] == db.applications[0]
    ensures AwaitsPayout(db', 0, db'.applications[0])
  {
  }

  ghost function Range(first: nat, n: nat): (s: set<Id>)
    requires first <= n
    ensures forall a :: a in s <==> first <= a < n
    ensures |s| == n - first
    decreases n
  {
    if n == first then {} else Range(first, n - 1) + {n - 1}
  }

  lemma RowsRepaid(db: Db, n: nat, first: nat, day: Civil, rules: Rules, cycle: int)
    requires Rows(db, n, first, day, rules) && first <= n
    ensures |RepaidIn(db, 0, cycle)| == if cycle == StoredCycle(day, rules) then n - first else 0
  {
    hide CycleOf, TermsOn, StoredCycle, AwaitsPayout;
    forall a | a in db.applications
      ensures CycleOf(db.applications[a]) == StoredCycle(day, rules)
    {
      TermsCycle(db.applications[a], day, rules);
    }
    if cycle == StoredCycle(day, rules) {
      assert RepaidIn(db, 0, cycle) == Range(first, n);
    } else {
      assert RepaidIn(db, 0, cycle) == {};
    }
  }

  lemma TermsCycle(app: Application, day: Civil, rules: Rules)
    requires app.terms == TermsOn(day, rules)
    ensures CycleOf(app) == StoredCycle(day, rules)
  {
    hide CivilOf;
    NewCycle(app, day, rules);
  }

  /** `n - first` rounds after `start`. */
  function Rounds(start: seq<Request>, first: nat, n: nat, day: Civil, rules: Rules): seq<Request>
    requires first <= n
    decreases n
  {
    if n == first then start else Rounds(start, first, n - 1, day, rules) + Round(n - 1, day, rules)
  }

  /** Only the first request of a round or of a rejection is a submission. */
  predicate OneSubmission(requests: seq<Request>, a: Id, day: Civil, rules: Rules) {
    && |requests| > 0 && requests[0] == Request(Applications(Submit(a, 0, 0, 0, TermsOn(day, rules))), EnvOn(day, a))
    && forall i :: 0 < i < |requests| ==> !Submits(requests[i], 0)
  }

  lemma RoundSubmitsOnce(a: Id, day: Civil, rules: Rules)
    ensures OneSubmission(Round(a, day, rules), a, day, rules)
    ensures OneSubmission(ToRejected(a, 0, 0, 0, TermsOn(day, rules), EnvOn(day, a)), a, day, rules)
  {
    hide TermsOn, EnvOn;
  }

  /** A gated run with submissions on one day, and unless `mayWait` none while a rejected advance may come back. */
  ghost predicate InPolicy(requests: seq<Request>, rules: Rules, day: Civil, mayWait: bool) {
    Gated(requests, 0, rules) && OnDays(requests, 0, iset{day}) && (mayWait || NoneMayComeBack(requests, 0))
  }

  /** Appending requests with one submission that passes the gate. */
  lemma PolicyAppend(requests: seq<Request>, more: seq<Request>, a: Id, rules: Rules, day: Civil, mayWait: bool)
    requires InPolicy(requests, rules, day, mayWait) && OneSubmission(more, a, day, rules) && IsDate(day)
    requires |RepaidIn(Serial(EMPTY_DB, requests), 0, CountedCycle(day, rules))| < rules.limit
    requires mayWait || !MayComeBack(Serial(EMPTY_DB, requests), 0)
    ensures InPolicy(requests + more, rules, day, mayWait)
  {
    hide Serial, CivilOf, RepaidIn, MayComeBack, ResolveRecoveryDate, Milliseconds, CountedCycle;
    CivilOfDay(day, 0);
    var all := requests + more;
    forall i | 0 <= i < |all|
      ensures GateRead(Serial(EMPTY_DB, all[..i]), all[i], 0, rules)
      ensures Submits(all[i], 0) ==> CivilOf(all[i].env.now) == day
      ensures Submits(all[i], 0) && !mayWait ==> !MayComeBack(Serial(EMPTY_DB, all[..i]), 0)
    {
      if i < |requests| {
        assert all[..i] == requests[..i] && all[i] == requests[i];
      } else {
        assert all[i] == more[i - |requests|];
        if i == |requests| { assert all[..i] == requests; }
      }
    }
  }

  /** Appending requests that submit nothing. */
  lemma PolicyQuiet(requests: seq<Request>, r: Request, rules: Rules, day: Civil, mayWait: bool)
    requires InPolicy(requests, rules, day, mayWait) && !Submits(r, 0)
    ensures InPolicy(requests + [r], rules, day, mayWait)
  {
    hide Serial, CivilOf, RepaidIn, MayComeBack, GateRead;
    var all := requests + [r];
    forall i | 0 <= i < |all|
      ensures GateRead(Serial(EMPTY_DB, all[..i]), all[i], 0, rules)
      ensures Submits(all[i], 0) ==> CivilOf(all[i].env.now) in iset{day}
      ensures Submits(all[i], 0) && !mayWait ==> !MayComeBack(Serial(EMPTY_DB, all[..i]), 0)
    {
      if i < |requests| {
        assert all[..i] == requests[..i] && all[i] == requests[i];
      } else {
        NoGate(Serial(EMPTY_DB, all[..i]), r, rules);
      }
    }
  }

  lemma NoGate(db: Db, r: Request, rules: Rules)
    requires !Submits(r, 0)
    ensures GateRead(db, r, 0, rules)
  {
  }

  lemma NoneBack(db: Db, n: nat, day: Civil, rules: Rules)
    requires Rows(db, n, 0, day, rules)
    ensures !MayComeBack(db, 0)
  {
  }

  /** The rounds all go through while the counted cycle stays below the limit. */
  lemma {:induction false} RoundsWork(start: seq<Request>, first: nat, n: nat, day: Civil, rules: Rules, mayWait: bool)
    requires first <= n && IsDate(day) && InPolicy(start, rules, day, mayWait)
    requires Rows(Serial(EMPTY_DB, start), first, first, day, rules)
    requires mayWait || first == 0
    requires StoredCycle(day, rules) == CountedCycle(day, rules) ==> n - first <= rules.limit
    requires rules.limit > 0
    ensures var requests := Rounds(start, first, n, day, rules);
            InPolicy(requests, rules, day, mayWait) && Rows(Serial(EMPTY_DB, requests), n, first, day, rules)
    decreases n
  {
    hide Serial, Rows, InPolicy, Round, StoredCycle, CountedCycle;
    if n > first {
      RoundsWork(start, first, n - 1, day, rules, mayWait);
      NextRound(Rounds(start, first, n - 1, day, rules), first, n - 1, day, rules, mayWait);
    }
  }

  lemma NextRound(requests: seq<Request>, first: nat, n: nat, day: Civil, rules: Rules, mayWait: bool)
    requires first <= n && IsDate(day) && InPolicy(requests, rules, day, mayWait)
    requires Rows(Serial(EMPTY_DB, requests), n, first, day, rules)
    requires mayWait || first == 0
    requires StoredCycle(day, rules) == CountedCycle(day, rules) ==> n - first < rules.limit
    requires rules.limit > 0
    ensures var next := requests + Round(n, day, rules);
            InPolicy(next, rules, day, mayWait) && Rows(Serial(EMPTY_DB, next), n + 1, first, day, rules)
  {
    hide Serial, Rows, InPolicy, Round, StoredCycle, CountedCycle, MayComeBack, RepaidIn, OneSubmission;
    var db := Serial(EMPTY_DB, requests);
    RowsRepaid(db, n, first, day, rules, CountedCycle(day, rules));
    if first == 0 { NoneBack(db, n, day, rules); }
    RoundSubmitsOnce(n, day, rules);
    PolicyAppend(requests, Round(n, day, rules), n, rules, day, mayWait);
    RoundRows(db, n, first, day, rules);
    SerialConcat(EMPTY_DB, requests, Round(n, day, rules));
  }

  lemma NoRequests(rules: Rules, day: Civil, mayWait: bool)
    ensures InPolicy([], rules, day, mayWait) && Rows(Serial(EMPTY_DB, []), 0, 0, day, rules)
  {
    hide Serial, AwaitsPayout, TermsOn;
    EmptyRun(EMPTY_DB);
    NoRows(day, rules);
  }

  lemma NoRows(day: Civil, rules: Rules)
    ensures Rows(EMPTY_DB, 0, 0, day, rules)
  {
    hide AwaitsPayout, TermsOn;
    assert EMPTY_DB.applications == map[] && EMPTY_DB.fees == map[] && EMPTY_DB.disbursals == map[];
    assert EMPTY_DB.repayments == map[] && EMPTY_DB.orders == map[] && EMPTY_DB.risk == map[];
  }

  /** On a day whose cycles disagree there is a gated run with one repaid advance too many in the stored cycle. */
  lemma DisagreeingDayFails(day: Civil, rules: Rules, mayWait: bool) returns (requests: seq<Request>)
    requires IsDate(day) && rules.limit > 0 && StoredCycle(day, rules) != CountedCycle(day, rules)
    ensures InPolicy(requests, rules, day, mayWait)
    ensures |RepaidIn(Serial(EMPTY_DB, requests), 0, StoredCycle(day, rules))| == rules.limit + 1
  {
    hide Serial, Rows, InPolicy, StoredCycle, CountedCycle, RepaidIn;
    NoRequests(rules, day, mayWait);
    requests := Rounds([], 0, rules.limit + 1, day, rules);
    RoundsWork([], 0, rules.limit + 1, day, rules, mayWait);
    RowsRepaid(Serial(EMPTY_DB, requests), rules.limit + 1, 0, day, rules, StoredCycle(day, rules));
  }

  /** On any day: an advance is rejected with its disbursal PENDING, as many as the limit allows are taken and repaid,
      and then the rejected one is paid out and repaid as well. */
  lemma RejectedComesBack(day: Civil, rules: Rules) returns (requests: seq<Request>)
    requires IsDate(day) && rules.limit > 0
    ensures InPolicy(requests, rules, day, true)
    ensures |RepaidIn(Serial(EMPTY_DB, requests), 0, StoredCycle(day, rules))| == rules.limit + 1
  {
    hide Serial, Rows, InPolicy, StoredCycle, CountedCycle, RepaidIn, ToRejected, At, Alone, OnlyAbout;
    var n := rules.limit + 1;
    var start := ToRejected(0, 0, 0, 0, TermsOn(day, rules), EnvOn(day, 0));
    StartsRejected(day, rules);
    requests := Rounds(start, 1, n, day, rules);
    RoundsWork(start, 1, n, day, rules, true);
    var db := Serial(EMPTY_DB, requests);
    LastPayout(db, n, day, rules);
    var env := EnvOn(day, 0);
    Then(EMPTY_DB, requests, Disbursals(Disburse(0)), env);
    PolicyQuiet(requests, Request(Disbursals(Disburse(0)), env), rules, day, true);
    requests := requests + [Request(Disbursals(Disburse(0)), env)];
    Then(EMPTY_DB, requests, Repayments(Pay(0)), env);
    PolicyQuiet(requests, Request(Repayments(Pay(0)), env), rules, day, true);
    requests := requests + [Request(Repayments(Pay(0)), env)];
  }

  lemma StartsRejected(day: Civil, rules: Rules)
    requires IsDate(day) && rules.limit > 0
    ensures var start := ToRejected(0, 0, 0, 0, TermsOn(day, rules), EnvOn(day, 0));
            InPolicy(start, rules, day, true) && Rows(Serial(EMPTY_DB, start), 1, 1, day, rules)
  {
    hide Serial, Accepted, ToRejected, TermsOn, InPolicy, StoredCycle, CountedCycle, CycleOf;
    NoRequests(rules, day, true);
    var start := ToRejected(0, 0, 0, 0, TermsOn(day, rules), EnvOn(day, 0));
    EmptyRun(EMPTY_DB);
    RowsRepaid(EMPTY_DB, 0, 0, day, rules, CountedCycle(day, rules));
    RowsClear(EMPTY_DB, 0, 0, day, rules);
    RejectionCanLeaveDisbursal(EMPTY_DB, 0, 0, 0, 0, TermsOn(day, rules), EnvOn(day, 0));
    RoundSubmitsOnce(0, day, rules);
    PolicyAppend([], start, 0, rules, day, true);
    assert [] + start == start;
  }

  lemma LastPayout(db: Db, n: nat, day: Civil, rules: Rules)
    requires Rows(db, n, 1, day, rules) && n >= 1
    ensures var paidOut := Alone(db, Disbursals(Disburse(0)), EnvOn(day, 0)).db;
            |RepaidIn(Alone(paidOut, Repayments(Pay(0)), EnvOn(day, 0)).db, 0, StoredCycle(day, rules))| == n
  {
    hide Alone, TermsOn, StoredCycle, CycleOf;
    var row := db.applications[0];
    DisburseWorks(db, 0, row, EnvOn(day, 0));
    var paidOut := Alone(db, Disbursals(Disburse(0)), EnvOn(day, 0)).db;
    PayWorks(paidOut, 0, row.(status := RepaymentScheduled), EnvOn(day, 0));
    var done := Alone(paidOut, Repayments(Pay(0)), EnvOn(day, 0)).db;
    forall a | a in done.applications
      ensures CycleOf(done.applications[a]) == StoredCycle(day, rules)
    {
      TermsCycle(done.applications[a], day, rules);
    }
    assert RepaidIn(done, 0, StoredCycle(day, rules)) == Range(0, n);
  }

  /** On any one day the limit holds in all gated runs if and only if that day's two cycles agree and no submission is
      let through while a rejected advance of the employee has its disbursal PENDING. */
  lemma LimitKeptIff(day: Civil, rules: Rules, mayWait: bool)
    requires IsDate(day) && IsDayOfMonth(rules.payrollDay) && IsDayOfMonth(rules.cutoff) && !TwoDigitYear(day)
    requires rules.limit > 0
    ensures (forall requests, cycle :: InPolicy(requests, rules, day, mayWait) ==>
               |RepaidIn(Serial(EMPTY_DB, requests), 0, cycle)| <= rules.limit)
       <==> !mayWait
            && (day.day < rules.cutoff || day.day <= MonthLength(day.month + 1)
                || rules.payrollDay > MonthLength(day.month + 1))
  {
    hide Serial, RepaidIn, MonthLength;
    CyclesAgreeIff(day, rules.payrollDay, rules.cutoff);
    if StoredCycle(day, rules) != CountedCycle(day, rules) {
      var requests := DisagreeingDayFails(day, rules, mayWait);
    } else if mayWait {
      var requests := RejectedComesBack(day, rules);
    } else {
      forall requests, cycle | InPolicy(requests, rules, day, mayWait)
        ensures |RepaidIn(Serial(EMPTY_DB, requests), 0, cycle)| <= rules.limit
      {
        assert OnDays(requests, 0, AgreeingDays(rules));
        LimitKept(requests, 0, rules, cycle);
      }
    }
  }
}
