/** An advance can go all the way: from any state, the ordinary requests in their order take it to REPAID. */
module Progress {
  import opened Wrappers
  import opened Tables
  import opened Steps
  import opened Lifecycle
  import Pricing

  ghost predicate SameBut<V>(m: map<Id, V>, m': map<Id, V>, a: Id) {
    forall b :: b != a ==> (b in m <==> b in m') && (b in m ==> m'[b] == m[b])
  }

  /** From `db` to `db'` only rows of application `a` changed. */
  ghost predicate OnlyAbout(db: Db, db': Db, a: Id) {
    && SameBut(db.applications, db'.applications, a) && SameBut(db.fees, db'.fees, a)
    && SameBut(db.disbursals, db'.disbursals, a) && SameBut(db.repayments, db'.repayments, a)
    && db'.risk == db.risk && db'.settlements == db.settlements && db'.lineItems == db.lineItems
    && forall o :: o in db'.orders ==>
         (o in db.orders && db'.orders[o].fee == db.orders[o].fee) || db'.orders[o].fee == a
  }

  lemma OnlyAboutTransitive(db: Db, db': Db, db'': Db, a: Id)
    requires OnlyAbout(db, db', a) && OnlyAbout(db', db'', a)
    ensures OnlyAbout(db, db'', a)
  {
  }

  /** Application `a`, in `db`, is `row`, and it is the employee's only active one. */
  ghost predicate At(db: Db, a: Id, row: Application) {
    && a in db.applications && db.applications[a] == row
    && forall b :: b in db.applications && b != a && db.applications[b].employee == row.employee ==>
         !IsActive(db.applications[b].status)
  }

  lemma IndexLets(db: Db, a: Id, row: Application, s: Status)
    requires At(db, a, row)
    ensures IndexAllows(db, a, s)
  {
  }

  lemma SubmitWorks(db: Db, a: Id, employee: Id, employer: Id, requested: Paise, terms: Terms, env: Env)
    requires a !in db.applications && ActiveOf(db, employee) == {} && env.otherGates
    ensures var row := Application(employee, employer, Submitted, requested, None, None, env.now, terms);
            var done := Alone(db, Applications(Submit(a, employee, employer, requested, terms)), env);
            && !done.threw && At(done.db, a, row)
            && done.db == db.(applications := db.applications[a := row], history := done.db.history)
    ensures OnlyAbout(db, Alone(db, Applications(Submit(a, employee, employer, requested, terms)), env).db, a)
  {
    hide Alone;
    AloneStep(db, Applications(Submit(a, employee, employer, requested, terms)), env);
    AloneStep(db, Applications(SubmitWrite(a, employee, employer, requested, terms)), env);
    assert forall b :: b in db.applications && db.applications[b].employee == employee
                       && IsActive(db.applications[b].status) ==>
      b in ActiveOf(db, employee);
  }

  lemma ApproveWorks(db: Db, a: Id, row: Application, env: Env)
    requires At(db, a, row) && row.status == Submitted && a !in db.fees && env.feeAmount.Some?
    ensures var row' := row.(status := AwaitingPlatformFee, employerApproved := Some(row.requested));
            var done := Alone(db, Applications(EmployerApprove(a, row.employer)), env);
            && !done.threw && At(done.db, a, row')
            && done.db == db.(applications := done.db.applications, history := done.db.history,
                              fees := db.fees[a := Fee(env.feeAmount.value, PendingPayment)])
    ensures OnlyAbout(db, Alone(db, Applications(EmployerApprove(a, row.employer)), env).db, a)
  {
    hide Alone, EmployerApproveCommit, IndexAllows;
    AloneStep(db, Applications(EmployerApprove(a, row.employer)), env);
    AloneStep(db, Applications(EmployerApproveCheck(a, row)), env);
    AloneStep(db, Applications(EmployerApproveWrite(a, row)), env);
    IndexLets(db, a, row, AwaitingPlatformFee);
    ApprovalWritten(db, a, row, env.feeAmount);
  }

  lemma ApprovalWritten(db: Db, a: Id, row: Application, feeAmount: Option<Paise>)
    requires At(db, a, row) && a !in db.fees && feeAmount.Some? && IndexAllows(db, a, AwaitingPlatformFee)
    ensures var row' := row.(status := AwaitingPlatformFee, employerApproved := Some(row.requested));
            var o := EmployerApproveCommit(db, a, row, feeAmount);
            && o.Wrote? && o.rest.None? && At(o.db, a, row')
            && o.db == db.(applications := o.db.applications, history := o.db.history,
                           fees := db.fees[a := Fee(feeAmount.value, PendingPayment)])
    ensures OnlyAbout(db, EmployerApproveCommit(db, a, row, feeAmount).db, a)
  {
    hide IndexAllows;
  }

  lemma PaymentWorks(db: Db, a: Id, row: Application, env: Env)
    requires At(db, a, row) && row.status == AwaitingPlatformFee && a in db.fees && db.fees[a].status == PendingPayment
    requires env.gatewayOrder !in db.orders
    requires forall o :: o in db.orders && db.orders[o].fee == a ==> db.orders[o].status != Created
    ensures var done := Alone(db, Fees(InitiatePayment(a, row.employee)), env);
            && !done.threw && done.db == db.(orders := done.db.orders)
            && env.gatewayOrder in done.db.orders && done.db.orders[env.gatewayOrder].fee == a
            && done.db.orders[env.gatewayOrder].status == Created
    ensures OnlyAbout(db, Alone(db, Fees(InitiatePayment(a, row.employee)), env).db, a)
    ensures Alone(db, Fees(InitiatePayment(a, row.employee)), env).db.orders.Keys == db.orders.Keys + {env.gatewayOrder}
  {
    hide Alone;
    AloneStep(db, Fees(InitiatePayment(a, row.employee)), env);
    AloneStep(db, Fees(FindOrder(a, db.fees[a].amount)), env);
    AloneStep(db, Fees(CreateOrder(a, db.fees[a].amount)), env);
  }

  lemma CaptureWorks(db: Db, a: Id, row: Application, order: Id, env: Env)
    requires At(db, a, row) && row.status == AwaitingPlatformFee && a in db.fees && db.fees[a].status == PendingPayment
    requires order in db.orders && db.orders[order].fee == a
    ensures var done := Alone(db, Fees(Capture(order)), env);
            && !done.threw && At(done.db, a, row.(status := EmployerApproved)) && Cleared(done.db.fees, a)
            && done.db == db.(applications := done.db.applications, history := done.db.history, fees := done.db.fees,
                              orders := done.db.orders, events := done.db.events)
    ensures OnlyAbout(db, Alone(db, Fees(Capture(order)), env).db, a)
    ensures Alone(db, Fees(Capture(order)), env).db.orders.Keys == db.orders.Keys
  {
    hide Alone, IndexAllows, CaptureCommit;
    AloneStep(db, Fees(Capture(order)), env);
    AloneStep(db, Fees(CaptureWrite(order, a)), env);
    CaptureWritten(db, a, row, order);
  }

  lemma CaptureWritten(db: Db, a: Id, row: Application, order: Id)
    requires At(db, a, row) && row.status == AwaitingPlatformFee && a in db.fees && db.fees[a].status == PendingPayment
    requires order in db.orders && db.orders[order].fee == a
    ensures var o := CaptureCommit(db, order, a);
            && o.Wrote? && o.rest.None? && At(o.db, a, row.(status := EmployerApproved)) && Cleared(o.db.fees, a)
            && o.db == db.(applications := o.db.applications, history := o.db.history, fees := o.db.fees,
                           orders := o.db.orders, events := o.db.events)
    ensures OnlyAbout(db, CaptureCommit(db, order, a).db, a)
    ensures CaptureCommit(db, order, a).db.orders.Keys == db.orders.Keys
  {
    var db1 := db.(orders := db.orders[order := db.orders[order].(status := Captured)],
                   fees := db.fees[a := db.fees[a].(status := FeePaid)],
                   events := db.events + [Event(order, PaymentCaptured)]);
    IndexLets(db1, a, row, EmployerApproved);
    hide IndexAllows;
    assert CaptureCommit(db, order, a) == StatusWrite(db1, a, AwaitingPlatformFee, EmployerApproved);
  }

  lemma AdminApproveWorks(db: Db, a: Id, row: Application, env: Env)
    requires At(db, a, row) && row.status == EmployerApproved && Cleared(db.fees, a)
    ensures var row' := row.(status := ReadyForDisbursal,
                             adminApproved := Some(row.employerApproved.GetOr(row.requested)));
            var done := Alone(db, Applications(AdminApprove(a)), env);
            && !done.threw && At(done.db, a, row')
            && done.db == db.(applications := done.db.applications, history := done.db.history)
    ensures OnlyAbout(db, Alone(db, Applications(AdminApprove(a)), env).db, a)
  {
    hide Alone, IndexAllows;
    AloneStep(db, Applications(AdminApprove(a)), env);
    AloneStep(db, Applications(AdminApproveFee(a, row)), env);
    AloneStep(db, Applications(AdminApproveWrite(a, row)), env);
    IndexLets(db, a, row, ReadyForDisbursal);
  }

  lemma CreateDisbursalWorks(db: Db, a: Id, row: Application, env: Env)
    requires At(db, a, row) && row.status == ReadyForDisbursal && Cleared(db.fees, a)
    requires a !in db.disbursals && !IsBlocked(db, row.employer)
    ensures var amount := row.adminApproved.GetOr(row.requested);
            Alone(db, Disbursals(CreateDisbursal(a)), env)
            == Finished(db.(disbursals := db.disbursals[a := Disbursal(row.requested, amount, Some(amount), Pending)]),
                        false)
    ensures OnlyAbout(db, Alone(db, Disbursals(CreateDisbursal(a)), env).db, a)
  {
    hide Alone;
    AloneStep(db, Disbursals(CreateDisbursal(a)), env);
    AloneStep(db, Disbursals(FindDisbursal(a, row)), env);
    AloneStep(db, Disbursals(DisbursalRisk(a, row)), env);
    AloneStep(db, Disbursals(DisbursalFee(a, row)), env);
    AloneStep(db, Disbursals(CreateDisbursalWrite(a, row)), env);
  }

  lemma DisburseWorks(db: Db, a: Id, row: Application, env: Env)
    requires At(db, a, row) && Cleared(db.fees, a) && !IsBlocked(db, row.employer) && env.bankVerified
    requires a in db.disbursals && db.disbursals[a].status == Pending && a !in db.repayments
    ensures var done := Alone(db, Disbursals(Disburse(a)), env);
            && !done.threw && At(done.db, a, row.(status := RepaymentScheduled))
            && a in done.db.disbursals && done.db.disbursals[a].status == Success
            && a in done.db.repayments && done.db.repayments[a].status == Scheduled
    ensures OnlyAbout(db, Alone(db, Disbursals(Disburse(a)), env).db, a)
    ensures Alone(db, Disbursals(Disburse(a)), env).db.orders == db.orders
  {
    hide Alone, DisburseCommit, Pricing.ComputeRepaymentBreakdown;
    var d := db.disbursals[a];
    var amount := d.disbursed.GetOr(d.approved);
    var amounts := Pricing.ComputeRepaymentBreakdown(amount, Pricing.FromColumns(row.terms));
    AloneStep(db, Disbursals(Disburse(a)), env);
    AloneStep(db, Disbursals(DisburseApplication(a, d)), env);
    AloneStep(db, Disbursals(DisburseFee(a, d, row)), env);
    AloneStep(db, Disbursals(DisburseWrite(a, amount, amounts, row)), env);
    PayoutWritten(db, a, row, amount, amounts);
  }

  lemma PayoutWritten(db: Db, a: Id, row: Application, amount: Paise, amounts: Breakdown)
    requires At(db, a, row) && a in db.disbursals && db.disbursals[a].status == Pending && a !in db.repayments
    ensures var o := DisburseCommit(db, a, amount, amounts, row);
            && o.Wrote? && o.rest.None? && At(o.db, a, row.(status := RepaymentScheduled))
            && a in o.db.disbursals && o.db.disbursals[a].status == Success
            && a in o.db.repayments && o.db.repayments[a].status == Scheduled
    ensures OnlyAbout(db, DisburseCommit(db, a, amount, amounts, row).db, a)
    ensures DisburseCommit(db, a, amount, amounts, row).db.orders == db.orders
  {
    hide IndexAllows;
    IndexLets(db.(disbursals := db.disbursals[a := db.disbursals[a].(status := Success, disbursed := Some(amount))],
                  repayments := db.repayments[a := Repayment(amount, amounts, row.terms.recoveryDate, Scheduled)]),
              a, row, RepaymentScheduled);
  }

  lemma PayWorks(db: Db, a: Id, row: Application, env: Env)
    requires At(db, a, row) && a in db.repayments && db.repayments[a].status == Scheduled
    ensures var done := Alone(db, Repayments(Pay(a)), env);
            && !done.threw && At(done.db, a, row.(status := Repaid))
            && a in done.db.repayments && done.db.repayments[a].status == Paid
            && OnlyAbout(db, done.db, a) && done.db.orders == db.orders
  {
    hide Alone;
    AloneStep(db, Repayments(Pay(a)), env);
    AloneStep(db, Repayments(PayWrite(a)), env);
  }

  lemma RejectWorks(db: Db, a: Id, row: Application, env: Env)
    requires At(db, a, row) && row.status in {Submitted, AwaitingPlatformFee, EmployerApproved, ReadyForDisbursal}
    ensures var done := Alone(db, Applications(AdminReject(a)), env);
            && !done.threw && At(done.db, a, row.(status := AdminRejected))
            && done.db == db.(applications := done.db.applications, history := done.db.history)
            && OnlyAbout(db, done.db, a)
  {
    hide Alone;
    AloneStep(db, Applications(AdminReject(a)), env);
    AloneStep(db, Applications(AdminRejectWrite(a, row)), env);
  }

  // Serial runs of these calls

  /** No request of the run is refused. */
  ghost predicate Accepted(db: Db, requests: seq<Request>)
    decreases |requests|
  {
    requests == [] ||
    (var init, last := requests[..|requests| - 1], requests[|requests| - 1];
     Accepted(db, init) && IsRequest(last.call) && !Alone(Serial(db, init), last.call, last.env).threw)
  }

  lemma Then(db: Db, requests: seq<Request>, call: Call, env: Env)
    requires IsRequest(call)
    ensures var r := requests + [Request(call, env)];
            && Serial(db, r) == Alone(Serial(db, requests), call, env).db
            && (Accepted(db, r) <==> Accepted(db, requests) && !Alone(Serial(db, requests), call, env).threw)
  {
    hide Alone;
    assert (requests + [Request(call, env)])[..|requests|] == requests;
  }

  /** Nothing about `a` or its order is in the database yet, and nothing stands in the way. */
  ghost predicate Clear(db: Db, a: Id, employee: Id, employer: Id, env: Env) {
    && a !in db.applications && a !in db.fees && a !in db.disbursals && a !in db.repayments
    && (forall o :: o in db.orders ==> db.orders[o].fee != a) && env.gatewayOrder !in db.orders
    && ActiveOf(db, employee) == {} && !IsBlocked(db, employer) && env.feeAmount.Some? && env.bankVerified
    && env.otherGates
  }

  /** An advance's rows when its disbursal has been created. */
  function ReadyRow(employee: Id, employer: Id, requested: Paise, terms: Terms, now: Instant): Application {
    Application(employee, employer, ReadyForDisbursal, requested, Some(requested), Some(requested), now, terms)
  }

  function ToCleared(a: Id, employee: Id, employer: Id, requested: Paise, terms: Terms, env: Env): seq<Request> {
    [Request(Applications(Submit(a, employee, employer, requested, terms)), env)]
    + [Request(Applications(EmployerApprove(a, employer)), env)]
    + [Request(Fees(InitiatePayment(a, employee)), env)]
    + [Request(Fees(Capture(env.gatewayOrder)), env)]
  }

  function ToDisbursal(a: Id, employee: Id, employer: Id, requested: Paise, terms: Terms, env: Env): seq<Request> {
    ToCleared(a, employee, employer, requested, terms, env)
    + [Request(Applications(AdminApprove(a)), env)] + [Request(Disbursals(CreateDisbursal(a)), env)]
  }

  function ClearedRow(employee: Id, employer: Id, requested: Paise, terms: Terms, now: Instant): Application {
    Application(employee, employer, EmployerApproved, requested, Some(requested), None, now, terms)
  }

  /** Submission, employer approval, checkout and capture in a row. */
  lemma FeeCanBePaid(db: Db, a: Id, employee: Id, employer: Id, requested: Paise, terms: Terms, env: Env)
    requires Clear(db, a, employee, employer, env)
    ensures var requests := ToCleared(a, employee, employer, requested, terms, env);
            var db' := Serial(db, requests);
            && Accepted(db, requests) && At(db', a, ClearedRow(employee, employer, requested, terms, env.now))
            && Cleared(db'.fees, a)
            && a !in db'.disbursals && a !in db'.repayments && db'.risk == db.risk
            && OnlyAbout(db, db', a) && db'.orders.Keys == db.orders.Keys + {env.gatewayOrder}
  {
    hide Alone, At, ActiveOf, Serial, Accepted, OnlyAbout;
    EmptyRun(db);
    var row := Application(employee, employer, Submitted, requested, None, None, env.now, terms);
    SubmitWorks(db, a, employee, employer, requested, terms, env);
    Then(db, [], Applications(Submit(a, employee, employer, requested, terms)), env);
    var s1 := [] + [Request(Applications(Submit(a, employee, employer, requested, terms)), env)];
    var d1 := Serial(db, s1);
    ApproveWorks(d1, a, row, env);
    Then(db, s1, Applications(EmployerApprove(a, employer)), env);
    var s2 := s1 + [Request(Applications(EmployerApprove(a, employer)), env)];
    var d2 := Serial(db, s2);
    OnlyAboutTransitive(db, d1, d2, a);
    var row1 := row.(status := AwaitingPlatformFee, employerApproved := Some(requested));
    PaymentWorks(d2, a, row1, env);
    Then(db, s2, Fees(InitiatePayment(a, employee)), env);
    var s3 := s2 + [Request(Fees(InitiatePayment(a, employee)), env)];
    var d3 := Serial(db, s3);
    OnlyAboutTransitive(db, d2, d3, a);
    SameApplications(d2, d3, a, row1);
    CaptureWorks(d3, a, row1, env.gatewayOrder, env);
    Then(db, s3, Fees(Capture(env.gatewayOrder)), env);
    var s4 := s3 + [Request(Fees(Capture(env.gatewayOrder)), env)];
    OnlyAboutTransitive(db, d3, Serial(db, s4), a);
    assert s4 == ToCleared(a, employee, employer, requested, terms, env);
  }

  ghost predicate AwaitsPayout(db: Db, a: Id, row: Application) {
    && At(db, a, row) && Cleared(db.fees, a) && a !in db.repayments
    && a in db.disbursals && db.disbursals[a].status == Pending
  }

  /** Submission, employer approval, checkout, capture, admin approval and the disbursal's creation, in a row. */
  lemma DisbursalCanBeCreated(db: Db, a: Id, employee: Id, employer: Id, requested: Paise, terms: Terms, env: Env)
    requires Clear(db, a, employee, employer, env)
    ensures var requests := ToDisbursal(a, employee, employer, requested, terms, env);
            var db' := Serial(db, requests);
            && Accepted(db, requests) && AwaitsPayout(db', a, ReadyRow(employee, employer, requested, terms, env.now))
            && OnlyAbout(db, db', a) && db'.orders.Keys == db.orders.Keys + {env.gatewayOrder}
  {
    hide Alone, At, ActiveOf, Serial, Accepted, OnlyAbout, ToCleared;
    FeeCanBePaid(db, a, employee, employer, requested, terms, env);
    var s4, row :=
      ToCleared(a, employee, employer, requested, terms, env),
      ClearedRow(employee, employer, requested, terms, env.now);
    var d4 := Serial(db, s4);
    AdminApproveWorks(d4, a, row, env);
    Then(db, s4, Applications(AdminApprove(a)), env);
    var s5 := s4 + [Request(Applications(AdminApprove(a)), env)];
    var d5 := Serial(db, s5);
    OnlyAboutTransitive(db, d4, d5, a);
    var row' := ReadyRow(employee, employer, requested, terms, env.now);
    CreateDisbursalWorks(d5, a, row', env);
    Then(db, s5, Disbursals(CreateDisbursal(a)), env);
    var s6 := s5 + [Request(Disbursals(CreateDisbursal(a)), env)];
    OnlyAboutTransitive(db, d5, Serial(db, s6), a);
    SameApplications(d5, Serial(db, s6), a, row');
  }

  lemma EmptyRun(db: Db)
    ensures Serial(db, []) == db && Accepted(db, [])
  {
  }

  /** Disbursal and repayment end what `ToDisbursal` began. */
  function ToRepaid(a: Id, employee: Id, employer: Id, requested: Paise, terms: Terms, env: Env): seq<Request> {
    ToDisbursal(a, employee, employer, requested, terms, env)
    + [Request(Disbursals(Disburse(a)), env)] + [Request(Repayments(Pay(a)), env)]
  }

  /** From any state the ordinary requests, in their order, are all accepted and take an advance to REPAID with its
      repayment PAID; no other application's rows change. */
  lemma AdvanceCanBeRepaid(db: Db, a: Id, employee: Id, employer: Id, requested: Paise, terms: Terms, env: Env)
    requires Clear(db, a, employee, employer, env)
    ensures var requests := ToRepaid(a, employee, employer, requested, terms, env);
            var db' := Serial(db, requests);
            && Accepted(db, requests)
            && At(db', a, ReadyRow(employee, employer, requested, terms, env.now).(status := Repaid))
            && a in db'.repayments && db'.repayments[a].status == Paid
            && OnlyAbout(db, db', a) && db'.orders.Keys == db.orders.Keys + {env.gatewayOrder}
  {
    hide Alone, At, ActiveOf, Serial, Accepted, OnlyAbout, ToDisbursal;
    DisbursalCanBeCreated(db, a, employee, employer, requested, terms, env);
    var s6, row :=
      ToDisbursal(a, employee, employer, requested, terms, env),
      ReadyRow(employee, employer, requested, terms, env.now);
    var d6 := Serial(db, s6);
    RiskKept(db, d6, a);
    DisburseWorks(d6, a, row, env);
    Then(db, s6, Disbursals(Disburse(a)), env);
    var s7 := s6 + [Request(Disbursals(Disburse(a)), env)];
    var d7 := Serial(db, s7);
    OnlyAboutTransitive(db, d6, d7, a);
    PayWorks(d7, a, row.(status := RepaymentScheduled), env);
    Then(db, s7, Repayments(Pay(a)), env);
    OnlyAboutTransitive(db, d7, Serial(db, s7 + [Request(Repayments(Pay(a)), env)]), a);
  }

  lemma RiskKept(db: Db, db': Db, a: Id)
    requires OnlyAbout(db, db', a)
    ensures forall employer :: IsBlocked(db', employer) <==> IsBlocked(db, employer)
  {
  }

  function ToRejected(a: Id, employee: Id, employer: Id, requested: Paise, terms: Terms, env: Env): seq<Request> {
    ToDisbursal(a, employee, employer, requested, terms, env) + [Request(Applications(AdminReject(a)), env)]
  }

  /** From any state, an advance can be rejected by the administrator with its disbursal left PENDING. */
  lemma RejectionCanLeaveDisbursal(db: Db, a: Id, employee: Id, employer: Id, requested: Paise, terms: Terms, env: Env)
    requires Clear(db, a, employee, employer, env)
    ensures var requests := ToRejected(a, employee, employer, requested, terms, env);
            var db' := Serial(db, requests);
            && Accepted(db, requests)
            && AwaitsPayout(db', a, ReadyRow(employee, employer, requested, terms, env.now).(status := AdminRejected))
            && OnlyAbout(db, db', a) && db'.orders.Keys == db.orders.Keys + {env.gatewayOrder}
  {
    hide Alone, At, ActiveOf, Serial, Accepted, OnlyAbout, ToDisbursal;
    DisbursalCanBeCreated(db, a, employee, employer, requested, terms, env);
    var s6, row :=
      ToDisbursal(a, employee, employer, requested, terms, env),
      ReadyRow(employee, employer, requested, terms, env.now);
    RejectWorks(Serial(db, s6), a, row, env);
    Then(db, s6, Applications(AdminReject(a)), env);
    OnlyAboutTransitive(db, Serial(db, s6), Serial(db, s6 + [Request(Applications(AdminReject(a)), env)]), a);
  }

  lemma SameApplications(db: Db, db': Db, a: Id, row: Application)
    requires At(db, a, row) && db'.applications == db.applications
    ensures At(db', a, row)
  {
  }
}
