/**
 The services as atomic steps.

 A call is a service method in progress. Every read made outside a transaction
 is one step that keeps the rows it saw; every `$transaction`, nested write or
 single write is one step that either commits as a whole or changes nothing.
 */
module Steps {
  import opened Wrappers
  import opened Tables
  import Pricing

  const DAY: Instant := 24 * 60 * 60 * 1000

  /** src/loan-applications/loan-applications.service.ts */
  datatype ApplicationCall =
    | Submit(a: Id, employee: Id, employer: Id, requested: Paise, terms: Terms)
    | SubmitWrite(a: Id, employee: Id, employer: Id, requested: Paise, terms: Terms)
    | Cancel(a: Id, employee: Id)
    | CancelWrite(a: Id)
    | EmployerApprove(a: Id, employer: Id)
    | EmployerApproveCheck(a: Id, seen: Application)
    | EmployerApproveWrite(a: Id, seen: Application)
    | EmployerReject(a: Id, employer: Id)
    | EmployerRejectWrite(a: Id)
    | AdminApprove(a: Id)
    | AdminApproveFee(a: Id, seen: Application)
    | AdminApproveWrite(a: Id, seen: Application)
    | AdminReject(a: Id)
    | AdminRejectWrite(a: Id, seen: Application)

  /** src/platform-fees/platform-fees.service.ts */
  datatype FeeCall =
    | InitiatePayment(a: Id, employee: Id)
    | EnsureFee(a: Id)
    | CreateFee(a: Id, amount: Paise)
    | FindOrder(a: Id, amount: Paise)
    | CreateOrder(a: Id, amount: Paise)
    | Waive(a: Id)
    | WaiveWrite(a: Id, seen: Application)
    | Capture(order: Id)
    | CaptureWrite(order: Id, a: Id)
    | FailPayment(order: Id)
    | FailPaymentWrite(order: Id)

  /** src/disbursals/disbursals.service.ts */
  datatype DisbursalCall =
    | CreateDisbursal(a: Id)
    | FindDisbursal(a: Id, seen: Application)
    | DisbursalRisk(a: Id, seen: Application)
    | DisbursalFee(a: Id, seen: Application)
    | CreateDisbursalWrite(a: Id, seen: Application)
    | Disburse(a: Id)
    | DisburseApplication(a: Id, disbursal: Disbursal)
    | DisburseFee(a: Id, disbursal: Disbursal, seen: Application)
    | DisburseWrite(a: Id, amount: Paise, amounts: Breakdown, seen: Application)

  /** src/repayments/repayments.service.ts */
  datatype RepaymentCall =
    | Pay(a: Id)
    | PayWrite(a: Id)

  /** src/payroll/payroll.service.ts */
  datatype PayrollCall =
    | ProcessRecovery(key: SettlementKey, today: Instant)
    | FindDueRepayments(key: SettlementKey, today: Instant)
    | ProcessRecoveryWrite(key: SettlementKey, ids: seq<Id>, rows: seq<Repayment>, dueDate: Instant)

  /** src/employer-settlements/employer-settlements.service.ts */
  datatype SettlementCall =
    | MarkPaid(key: SettlementKey)
    | MarkPaidWrite(key: SettlementKey, ids: seq<Id>)
    | UpdateRisk(employer: Id)
    | RiskOverdueWrite(key: SettlementKey)
    | RiskWrite(employer: Id, risk: Risk)

  /** src/business-jobs/business-jobs.service.ts */
  datatype JobCall =
    | ExpireStale
    | ExpireStaleWrite(ids: seq<Id>)
    | RepaymentsOverdue
    | RepaymentsOverdueWrite(overdue: set<Id>)
    | SettlementsOverdue
    | SettlementsOverdueWrite(late: set<SettlementKey>)

  /** A service method together with what it has read so far (`seen` rows may be stale). */
  datatype Call =
    | Applications(application: ApplicationCall)
    | Fees(fee: FeeCall)
    | Disbursals(disbursal: DisbursalCall)
    | Repayments(repayment: RepaymentCall)
    | Payroll(payroll: PayrollCall)
    | Settlements(settlement: SettlementCall)
    | Jobs(job: JobCall)

  /** What a step takes from outside the database. */
  datatype Env = Env(
    now: Instant,
    feeAmount: Option<Paise>,       // platform fee of the active product config, if it is configured
    gatewayOrder: Id,               // order id issued by the payment gateway
    bankVerified: bool,
    otherGates: bool,               // verdict of the eligibility gates other than the active-application one
    graceDays: int,                 // employer settlement policy
    rows: seq<Id>,                  // order in which a query returns its rows
    keys: seq<SettlementKey>)

  datatype Outcome =
    | Read(next: Call)                          // nothing written, the call goes on
    | Wrote(db: Db, rest: Option<Call>)         // committed; the call may go on
    | Returned                                  // finished without writing
    | Threw                                     // an exception: nothing written, or rolled back

  function After(db: Db, o: Outcome): Db {
    if o.Wrote? then o.db else db
  }

  // src/loan-applications/loan-applications.service.ts

  /** One status write with a nested history row, refused by the partial unique index. */
  function StatusWrite(db: Db, a: Id, previous: Status, next: Status): Outcome {
    if a !in db.applications || !IndexAllows(db, a, next) then Threw
    else Wrote(Move(db, a, Some(previous), next), None)
  }

  function ActiveOf(db: Db, employee: Id): set<Id> {
    set b | b in db.applications && db.applications[b].employee == employee && IsActive(db.applications[b].status)
  }

  /** The statuses that block a new submission, as src/eligibility/eligibility.service.ts lists them. */
  predicate BlocksSubmission(s: Status) {
    || s == Submitted
    || s == EmployerApproved
    || s == AwaitingPlatformFee
    || s == ReadyForDisbursal
    || s == Disbursed
    || s == RepaymentScheduled
  }

  /** The eligibility check: no application in a blocking status, and the other gates, which `env` answers for. */
  function SubmitRead(db: Db, a: Id, employee: Id, employer: Id, requested: Paise, terms: Terms, env: Env): Outcome {
    if exists b :: b in db.applications && db.applications[b].employee == employee
                   && BlocksSubmission(db.applications[b].status)
    then Threw
    else if !env.otherGates then Threw
    else Read(Applications(SubmitWrite(a, employee, employer, requested, terms)))
  }

  /** The insert: the primary key and the partial unique index may refuse it. */
  function SubmitCommit(db: Db, a: Id, employee: Id, employer: Id, requested: Paise, terms: Terms,
                        now: Instant): Outcome {
    if a in db.applications || ActiveOf(db, employee) != {} then Threw
    else
      var row := Application(employee, employer, Submitted, requested, None, None, now, terms);
      Wrote(db.(applications := db.applications[a := row], history := db.history + [Entry(a, None, Submitted)]), None)
  }

  function CancelRead(db: Db, a: Id, employee: Id): Outcome {
    if a !in db.applications || db.applications[a].employee != employee then Threw
    else if db.applications[a].status != Submitted then Threw
    else Read(Applications(CancelWrite(a)))
  }

  function EmployerApproveRead(db: Db, a: Id, employer: Id): Outcome {
    if a !in db.applications || db.applications[a].employer != employer then Threw
    else if db.applications[a].status != Submitted then Threw
    else Read(Applications(EmployerApproveCheck(a, db.applications[a])))
  }

  /** Statuses of an advance that blocks the approval of a second one. */
  predicate InProgress(s: Status) {
    s in {EmployerApproved, AwaitingPlatformFee, ReadyForDisbursal, Disbursed, RepaymentScheduled}
  }

  function EmployerApproveSecondRead(db: Db, a: Id, seen: Application): Outcome {
    if exists b :: b in db.applications && b != a && db.applications[b].employee == seen.employee
                   && InProgress(db.applications[b].status)
    then Threw
    else Read(Applications(EmployerApproveWrite(a, seen)))
  }

  function EmployerApproveCommit(db: Db, a: Id, seen: Application, feeAmount: Option<Paise>): Outcome {
    if a !in db.applications || !IndexAllows(db, a, AwaitingPlatformFee) then Threw
    else
      var moved := Move(db, a, Some(Submitted), AwaitingPlatformFee);
      var approved := moved.applications[a].(employerApproved := Some(seen.requested));
      EnsureFeeForApplication(moved.(applications := moved.applications[a := approved]), a, feeAmount)
  }

  function EmployerRejectRead(db: Db, a: Id, employer: Id): Outcome {
    if a !in db.applications || db.applications[a].employer != employer then Threw
    else if db.applications[a].status != Submitted then Threw
    else Read(Applications(EmployerRejectWrite(a)))
  }

  function AdminApproveRead(db: Db, a: Id): Outcome {
    if a !in db.applications || db.applications[a].status != EmployerApproved then Threw
    else Read(Applications(AdminApproveFee(a, db.applications[a])))
  }

  function AdminApproveFeeRead(db: Db, a: Id, seen: Application): Outcome {
    if !Cleared(db.fees, a) then Threw else Read(Applications(AdminApproveWrite(a, seen)))
  }

  function AdminApproveCommit(db: Db, a: Id, seen: Application): Outcome {
    if a !in db.applications || !IndexAllows(db, a, ReadyForDisbursal) then Threw
    else
      var moved := Move(db, a, Some(EmployerApproved), ReadyForDisbursal);
      var amount := seen.employerApproved.GetOr(seen.requested);
      var approved := moved.applications[a].(adminApproved := Some(amount));
      Wrote(moved.(applications := moved.applications[a := approved]), None)
  }

  function AdminRejectRead(db: Db, a: Id): Outcome {
    if a !in db.applications then Threw
    else if db.applications[a].status !in {Submitted, AwaitingPlatformFee, EmployerApproved, ReadyForDisbursal}
    then Threw
    else Read(Applications(AdminRejectWrite(a, db.applications[a])))
  }

  // src/platform-fees/platform-fees.service.ts

  /** Creates the fee of an application unless it exists; `feeAmount` is the configured price. */
  function EnsureFeeForApplication(db: Db, a: Id, feeAmount: Option<Paise>): Outcome {
    if a in db.fees then Wrote(db, None)
    else if feeAmount.None? then Threw
    else Wrote(db.(fees := db.fees[a := Fee(feeAmount.value, PendingPayment)]), None)
  }

  function InitiatePaymentRead(db: Db, a: Id, employee: Id): Outcome {
    if a !in db.applications || db.applications[a].employee != employee then Threw
    else if db.applications[a].status != AwaitingPlatformFee then Threw
    else if a !in db.fees then Read(Fees(EnsureFee(a)))
    else if Cleared(db.fees, a) then Returned
    else Read(Fees(FindOrder(a, db.fees[a].amount)))
  }

  function EnsureFeeRead(db: Db, a: Id, feeAmount: Option<Paise>): Outcome {
    if a in db.fees then (if Cleared(db.fees, a) then Returned else Read(Fees(FindOrder(a, db.fees[a].amount))))
    else if feeAmount.None? then Threw
    else Read(Fees(CreateFee(a, feeAmount.value)))
  }

  /** The insert outside a transaction: the unique application column refuses a second fee. */
  function CreateFeeCommit(db: Db, a: Id, amount: Paise): Outcome {
    if a in db.fees || a !in db.applications then Threw
    else Wrote(db.(fees := db.fees[a := Fee(amount, PendingPayment)]), Some(Fees(FindOrder(a, amount))))
  }

  function FindOrderRead(db: Db, a: Id, amount: Paise, now: Instant): Outcome {
    if exists o :: o in db.orders && db.orders[o].fee == a && db.orders[o].status == Created
                   && db.orders[o].expiresAt > now
    then Returned
    else Read(Fees(CreateOrder(a, amount)))
  }

  function CreateOrderCommit(db: Db, a: Id, amount: Paise, order: Id, now: Instant): Outcome {
    if order in db.orders || a !in db.fees then Threw
    else Wrote(db.(orders := db.orders[order := Order(a, amount, Created, now + 15 * 60 * 1000)]), None)
  }

  function WaiveRead(db: Db, a: Id): Outcome {
    if a !in db.fees || a !in db.applications then Threw
    else if Cleared(db.fees, a) then Returned
    else Read(Fees(WaiveWrite(a, db.applications[a])))
  }

  function WaiveCommit(db: Db, a: Id, seen: Application): Outcome {
    if a !in db.fees then Threw
    else
      var waived := db.(fees := db.fees[a := db.fees[a].(status := FeeWaived)]);
      if seen.status == AwaitingPlatformFee then StatusWrite(waived, a, seen.status, EmployerApproved)
      else Wrote(waived, None)
  }

  function CaptureRead(db: Db, order: Id): Outcome {
    if order !in db.orders then Threw
    else Read(Fees(CaptureWrite(order, db.orders[order].fee)))
  }

  /** Whether this capture is the one that turns the fee into PAID. */
  predicate Finalizes(fees: map<Id, Fee>, a: Id) {
    a in fees && !Cleared(fees, a)
  }

  function CaptureCommit(db: Db, order: Id, a: Id): Outcome
  {
    if order !in db.orders then Threw
    else
      var orderChanged := db.orders[order].status != Captured;
      var db1 := db.(orders := db.orders[order := db.orders[order].(status := Captured)]);
      var feeChanged := Finalizes(db1.fees, a);
      var db2 := if feeChanged then db1.(fees := db1.fees[a := db1.fees[a].(status := FeePaid)]) else db1;
      var db3 :=
        if orderChanged || feeChanged then db2.(events := db2.events + [Event(order, PaymentCaptured)]) else db2;
      if feeChanged && a in db3.applications && db3.applications[a].status == AwaitingPlatformFee then
        StatusWrite(db3, a, AwaitingPlatformFee, EmployerApproved)
      else Wrote(db3, None)
  }

  function FailPaymentRead(db: Db, order: Id): Outcome {
    if order !in db.orders then Returned else Read(Fees(FailPaymentWrite(order)))
  }

  function FailPaymentCommit(db: Db, order: Id): Outcome {
    if order !in db.orders then Threw
    else Wrote(db.(orders := db.orders[order := db.orders[order].(status := Attempted)],
                   events := db.events + [Event(order, PaymentFailed)]), None)
  }

  // src/disbursals/disbursals.service.ts

  function CreateDisbursalRead(db: Db, a: Id): Outcome {
    if a !in db.applications then Threw else Read(Disbursals(FindDisbursal(a, db.applications[a])))
  }

  function FindDisbursalRead(db: Db, a: Id, seen: Application): Outcome {
    if a in db.disbursals then Returned else Read(Disbursals(DisbursalRisk(a, seen)))
  }

  predicate IsBlocked(db: Db, employer: Id) {
    employer in db.risk && db.risk[employer] == Blocked
  }

  function DisbursalRiskRead(db: Db, a: Id, seen: Application): Outcome {
    if IsBlocked(db, seen.employer) then Threw
    else if seen.status != ReadyForDisbursal then Threw
    else Read(Disbursals(DisbursalFee(a, seen)))
  }

  function DisbursalFeeRead(db: Db, a: Id, seen: Application): Outcome {
    if !Cleared(db.fees, a) then Threw else Read(Disbursals(CreateDisbursalWrite(a, seen)))
  }

  /** An upsert that leaves an existing row alone. */
  function CreateDisbursalCommit(db: Db, a: Id, seen: Application): Outcome {
    if a in db.disbursals then Wrote(db, None)
    else
      var approved := seen.adminApproved.GetOr(seen.requested);
      Wrote(db.(disbursals := db.disbursals[a := Disbursal(seen.requested, approved, Some(approved), Pending)]), None)
  }

  function DisburseRead(db: Db, a: Id): Outcome {
    if a !in db.disbursals then Threw
    else if db.disbursals[a].status == Success then Returned
    else if db.disbursals[a].status != Pending then Threw
    else Read(Disbursals(DisburseApplication(a, db.disbursals[a])))
  }

  function DisburseApplicationRead(db: Db, a: Id, disbursal: Disbursal): Outcome {
    if a !in db.applications then Threw
    else if IsBlocked(db, db.applications[a].employer) then Threw
    else Read(Disbursals(DisburseFee(a, disbursal, db.applications[a])))
  }

  function DisburseFeeRead(db: Db, a: Id, disbursal: Disbursal, seen: Application, bankVerified: bool): Outcome {
    if !Cleared(db.fees, a) || !bankVerified then Threw
    else
      var amount := disbursal.disbursed.GetOr(disbursal.approved);
      var amounts := Pricing.ComputeRepaymentBreakdown(amount, Pricing.FromColumns(seen.terms));
      Read(Disbursals(DisburseWrite(a, amount, amounts, seen)))
  }

  /** Claims the pending disbursal, creates its repayment and moves the application, all or nothing. */
  function DisburseCommit(db: Db, a: Id, amount: Paise, amounts: Breakdown, seen: Application): Outcome {
    if a !in db.disbursals then Threw
    else if db.disbursals[a].status != Pending then Returned
    else
      var db1 := db.(disbursals := db.disbursals[a := db.disbursals[a].(status := Success, disbursed := Some(amount))]);
      var owed := Repayment(amount, amounts, seen.terms.recoveryDate, Scheduled);
      var db2 := if a in db1.repayments then db1 else db1.(repayments := db1.repayments[a := owed]);
      StatusWrite(db2, a, seen.status, RepaymentScheduled)
  }

  // src/repayments/repayments.service.ts

  function PayRead(db: Db, a: Id): Outcome {
    if a !in db.repayments then Threw
    else if db.repayments[a].status == Paid then Returned
    else Read(Repayments(PayWrite(a)))
  }

  function PayCommit(db: Db, a: Id): Outcome {
    if a !in db.repayments || a !in db.applications then Threw
    else if db.repayments[a].status == Paid then Returned
    else
      var paid := db.(repayments := db.repayments[a := db.repayments[a].(status := Paid)]);
      StatusWrite(paid, a, db.applications[a].status, Repaid)
  }

  // src/payroll/payroll.service.ts

  function ProcessRecoveryRead(db: Db, key: SettlementKey, today: Instant): Outcome {
    if key in db.settlements then Returned else Read(Payroll(FindDueRepayments(key, today)))
  }

  /** Scheduled repayments of the employer that are due and in no settlement yet. */
  function DueRepayments(db: Db, employer: Id, today: Instant): set<Id> {
    set r | r in db.repayments && db.repayments[r].status == Scheduled && r !in db.lineItems
            && db.repayments[r].dueDate <= today
            && r in db.applications && db.applications[r].employer == employer
  }

  function FindDueRepaymentsRead(db: Db, key: SettlementKey, today: Instant, rows: seq<Id>, graceDays: int): Outcome {
    if !IsListing(rows, DueRepayments(db, key.employer, today)) then Threw
    else if rows == [] then Returned
    else
      var found := seq(|rows|, i requires 0 <= i < |rows| => assert rows[i] in rows; db.repayments[rows[i]]);
      Read(Payroll(ProcessRecoveryWrite(key, rows, found, today + graceDays * DAY)))
  }

  function SumPrincipal(rows: seq<Repayment>): Paise {
    if rows == [] then 0 else SumPrincipal(rows[..|rows| - 1]) + rows[|rows| - 1].principal
  }

  function SumInterest(rows: seq<Repayment>): Paise {
    if rows == [] then 0 else SumInterest(rows[..|rows| - 1]) + rows[|rows| - 1].amounts.interest
  }

  function SumProcessingFee(rows: seq<Repayment>): Paise {
    if rows == [] then 0 else SumProcessingFee(rows[..|rows| - 1]) + rows[|rows| - 1].amounts.processingFee
  }

  function SumGst(rows: seq<Repayment>): Paise {
    if rows == [] then 0 else SumGst(rows[..|rows| - 1]) + rows[|rows| - 1].amounts.gst
  }

  function NewSettlement(rows: seq<Repayment>, dueDate: Instant): Settlement {
    var total := SumPrincipal(rows) + SumInterest(rows) + SumProcessingFee(rows) + SumGst(rows);
    Settlement(SumPrincipal(rows), SumInterest(rows), SumProcessingFee(rows), SumGst(rows),
               total, total, |rows|, dueDate, Generated)
  }

  function NewLineItem(key: SettlementKey, id: Id, r: Repayment): LineItem {
    LineItem(key, id, r.principal, r.amounts.interest, r.amounts.processingFee, r.amounts.gst, r.amounts.total)
  }

  /** `createMany` of the line items; the ids are distinct and free when this is reached. */
  function AddLineItems(items: map<Id, LineItem>, key: SettlementKey, ids: seq<Id>,
                        rows: seq<Repayment>): map<Id, LineItem>
    requires |ids| == |rows|
  {
    if ids == [] then items
    else
      var last := |ids| - 1;
      AddLineItems(items, key, ids[..last], rows[..last])[ids[last] := NewLineItem(key, ids[last], rows[last])]
  }

  predicate Distinct(ids: seq<Id>) {
    forall i, j :: 0 <= i < j < |ids| ==> ids[i] != ids[j]
  }

  function ProcessRecoveryCommit(db: Db, key: SettlementKey, ids: seq<Id>, rows: seq<Repayment>,
                                 dueDate: Instant): Outcome {
    if |ids| != |rows| || key in db.settlements then Threw
    else if !Distinct(ids) || exists r :: r in ids && r in db.lineItems then Threw
    else Wrote(db.(settlements := db.settlements[key := NewSettlement(rows, dueDate)],
                   lineItems := AddLineItems(db.lineItems, key, ids, rows)), None)
  }

  // src/employer-settlements/employer-settlements.service.ts

  function ItemsOf(db: Db, key: SettlementKey): set<Id> {
    set r | r in db.lineItems && db.lineItems[r].settlement == key
  }

  function MarkPaidRead(db: Db, key: SettlementKey, rows: seq<Id>): Outcome {
    if key !in db.settlements || !IsListing(rows, ItemsOf(db, key)) then Threw
    else if db.settlements[key].status == SettlementPaid then Returned
    else Read(Settlements(MarkPaidWrite(key, rows)))
  }

  /** `updateMany` on the repayments that are not paid yet. */
  function MarkRepaymentsPaid(repayments: map<Id, Repayment>, ids: seq<Id>): map<Id, Repayment> {
    map r | r in repayments :: if r in ids then repayments[r].(status := Paid) else repayments[r]
  }

  /** `updateMany` on the applications, whatever their status. */
  function SetStatuses(applications: map<Id, Application>, ids: seq<Id>, s: Status): map<Id, Application> {
    map a | a in applications :: if a in ids then applications[a].(status := s) else applications[a]
  }

  /** `createMany` of one history row for each application found. */
  function Entries(ids: seq<Id>, applications: map<Id, Application>, next: Status): seq<Entry> {
    if ids == [] then []
    else
      var a := ids[|ids| - 1];
      Entries(ids[..|ids| - 1], applications, next)
      + (if a in applications then [Entry(a, Some(applications[a].status), next)] else [])
  }

  function MarkPaidCommit(db: Db, key: SettlementKey, ids: seq<Id>): Outcome {
    if key !in db.settlements then Threw
    else if db.settlements[key].status == SettlementPaid then Returned
    else
      Wrote(db.(settlements := db.settlements[key := db.settlements[key].(status := SettlementPaid, outstanding := 0)],
                repayments := MarkRepaymentsPaid(db.repayments, ids),
                applications := SetStatuses(db.applications, ids, Repaid),
                history := db.history + Entries(ids, db.applications, Repaid)),
            Some(Settlements(UpdateRisk(key.employer))))
  }

  function OpenSettlements(db: Db, employer: Id): set<SettlementKey> {
    set k | k in db.settlements && k.employer == employer
            && db.settlements[k].status in {Generated, PartiallyPaid, SettlementOverdue}
  }

  /** The loop over the open settlements: the first one past its grace period blocks and stops it. */
  function AssessRisk(keys: seq<SettlementKey>, settlements: map<SettlementKey, Settlement>, env: Env,
                      soFar: Risk): (r: (Risk, Option<SettlementKey>))
    requires forall k :: k in keys ==> k in settlements
    decreases |keys|
  {
    if keys == [] then (soFar, None)
    else
      var due := settlements[keys[0]].dueDate;
      if env.now > due + env.graceDays * DAY then (Blocked, Some(keys[0]))
      else AssessRisk(keys[1..], settlements, env, if env.now > due then Warning else soFar)
  }

  function UpdateRiskRead(db: Db, employer: Id, env: Env): Outcome {
    if !IsListing(env.keys, OpenSettlements(db, employer)) then Threw
    else
      var (risk, late) := AssessRisk(env.keys, db.settlements, env, Good);
      if late.Some? then Read(Settlements(RiskOverdueWrite(late.value)))
      else Read(Settlements(RiskWrite(employer, risk)))
  }

  function RiskOverdueCommit(db: Db, key: SettlementKey): Outcome {
    if key !in db.settlements then Threw
    else Wrote(db.(settlements := db.settlements[key := db.settlements[key].(status := SettlementOverdue)]),
               Some(Settlements(RiskWrite(key.employer, Blocked))))
  }

  function RiskCommit(db: Db, employer: Id, risk: Risk): Outcome {
    Wrote(db.(risk := db.risk[employer := risk]), None)
  }

  // src/business-jobs/business-jobs.service.ts

  function StaleApplications(db: Db, now: Instant): set<Id> {
    set a | a in db.applications && db.applications[a].status == Submitted
            && db.applications[a].submittedAt < now - 3 * DAY
  }

  function ExpireStaleRead(db: Db, env: Env): Outcome {
    if !IsListing(env.rows, StaleApplications(db, env.now)) then Threw
    else if env.rows == [] then Returned
    else Read(Jobs(ExpireStaleWrite(env.rows)))
  }

  function ExpiredEntries(ids: seq<Id>): seq<Entry> {
    seq(|ids|, i requires 0 <= i < |ids| => Entry(ids[i], Some(Submitted), Expired))
  }

  function ExpireStaleCommit(db: Db, ids: seq<Id>): Outcome {
    Wrote(db.(applications := SetStatuses(db.applications, ids, Expired),
              history := db.history + ExpiredEntries(ids)), None)
  }

  function LateRepayments(db: Db, now: Instant): set<Id> {
    set r | r in db.repayments && db.repayments[r].dueDate < now && db.repayments[r].status == Scheduled
  }

  function RepaymentsOverdueRead(db: Db, now: Instant): Outcome {
    if LateRepayments(db, now) == {} then Returned else Read(Jobs(RepaymentsOverdueWrite(LateRepayments(db, now))))
  }

  function RepaymentsOverdueCommit(db: Db, overdue: set<Id>): Outcome {
    Wrote(db.(repayments := map r | r in db.repayments ::
                              if r in overdue then db.repayments[r].(status := Overdue) else db.repayments[r]), None)
  }

  function LateSettlements(db: Db, now: Instant): set<SettlementKey> {
    set k | k in db.settlements && db.settlements[k].dueDate < now
            && db.settlements[k].status !in {SettlementPaid, SettlementOverdue, Draft, SettlementCancelled}
  }

  function SettlementsOverdueRead(db: Db, now: Instant): Outcome {
    if LateSettlements(db, now) == {} then Returned else Read(Jobs(SettlementsOverdueWrite(LateSettlements(db, now))))
  }

  function SettlementsOverdueCommit(db: Db, late: set<SettlementKey>): Outcome {
    Wrote(db.(settlements := map k | k in db.settlements ::
                               if k in late then db.settlements[k].(status := SettlementOverdue)
                               else db.settlements[k]), None)
  }

  // The next atomic step of a call

  function ApplicationStep(db: Db, c: ApplicationCall, env: Env): Outcome {
    match c
    case Submit(a, employee, employer, requested, terms) => SubmitRead(db, a, employee, employer, requested, terms, env)
    case SubmitWrite(a, employee, employer, requested, terms) =>
      SubmitCommit(db, a, employee, employer, requested, terms, env.now)
    case Cancel(a, employee) => CancelRead(db, a, employee)
    case CancelWrite(a) => StatusWrite(db, a, Submitted, Cancelled)
    case EmployerApprove(a, employer) => EmployerApproveRead(db, a, employer)
    case EmployerApproveCheck(a, seen) => EmployerApproveSecondRead(db, a, seen)
    case EmployerApproveWrite(a, seen) => EmployerApproveCommit(db, a, seen, env.feeAmount)
    case EmployerReject(a, employer) => EmployerRejectRead(db, a, employer)
    case EmployerRejectWrite(a) => StatusWrite(db, a, Submitted, EmployerRejected)
    case AdminApprove(a) => AdminApproveRead(db, a)
    case AdminApproveFee(a, seen) => AdminApproveFeeRead(db, a, seen)
    case AdminApproveWrite(a, seen) => AdminApproveCommit(db, a, seen)
    case AdminReject(a) => AdminRejectRead(db, a)
    case AdminRejectWrite(a, seen) => StatusWrite(db, a, seen.status, AdminRejected)
  }

  function FeeStep(db: Db, c: FeeCall, env: Env): Outcome {
    match c
    case InitiatePayment(a, employee) => InitiatePaymentRead(db, a, employee)
    case EnsureFee(a) => EnsureFeeRead(db, a, env.feeAmount)
    case CreateFee(a, amount) => CreateFeeCommit(db, a, amount)
    case FindOrder(a, amount) => FindOrderRead(db, a, amount, env.now)
    case CreateOrder(a, amount) => CreateOrderCommit(db, a, amount, env.gatewayOrder, env.now)
    case Waive(a) => WaiveRead(db, a)
    case WaiveWrite(a, seen) => WaiveCommit(db, a, seen)
    case Capture(order) => CaptureRead(db, order)
    case CaptureWrite(order, a) => CaptureCommit(db, order, a)
    case FailPayment(order) => FailPaymentRead(db, order)
    case FailPaymentWrite(order) => FailPaymentCommit(db, order)
  }

  function DisbursalStep(db: Db, c: DisbursalCall, env: Env): Outcome {
    match c
    case CreateDisbursal(a) => CreateDisbursalRead(db, a)
    case FindDisbursal(a, seen) => FindDisbursalRead(db, a, seen)
    case DisbursalRisk(a, seen) => DisbursalRiskRead(db, a, seen)
    case DisbursalFee(a, seen) => DisbursalFeeRead(db, a, seen)
    case CreateDisbursalWrite(a, seen) => CreateDisbursalCommit(db, a, seen)
    case Disburse(a) => DisburseRead(db, a)
    case DisburseApplication(a, disbursal) => DisburseApplicationRead(db, a, disbursal)
    case DisburseFee(a, disbursal, seen) => DisburseFeeRead(db, a, disbursal, seen, env.bankVerified)
    case DisburseWrite(a, amount, amounts, seen) => DisburseCommit(db, a, amount, amounts, seen)
  }

  function RepaymentStep(db: Db, c: RepaymentCall, env: Env): Outcome {
    match c
    case Pay(a) => PayRead(db, a)
    case PayWrite(a) => PayCommit(db, a)
  }

  function PayrollStep(db: Db, c: PayrollCall, env: Env): Outcome {
    match c
    case ProcessRecovery(key, today) => ProcessRecoveryRead(db, key, today)
    case FindDueRepayments(key, today) => FindDueRepaymentsRead(db, key, today, env.rows, env.graceDays)
    case ProcessRecoveryWrite(key, ids, rows, dueDate) => ProcessRecoveryCommit(db, key, ids, rows, dueDate)
  }

  function SettlementStep(db: Db, c: SettlementCall, env: Env): Outcome {
    match c
    case MarkPaid(key) => MarkPaidRead(db, key, env.rows)
    case MarkPaidWrite(key, ids) => MarkPaidCommit(db, key, ids)
    case UpdateRisk(employer) => UpdateRiskRead(db, employer, env)
    case RiskOverdueWrite(key) => RiskOverdueCommit(db, key)
    case RiskWrite(employer, risk) => RiskCommit(db, employer, risk)
  }

  function JobStep(db: Db, c: JobCall, env: Env): Outcome {
    match c
    case ExpireStale => ExpireStaleRead(db, env)
    case ExpireStaleWrite(ids) => ExpireStaleCommit(db, ids)
    case RepaymentsOverdue => RepaymentsOverdueRead(db, env.now)
    case RepaymentsOverdueWrite(overdue) => RepaymentsOverdueCommit(db, overdue)
    case SettlementsOverdue => SettlementsOverdueRead(db, env.now)
    case SettlementsOverdueWrite(late) => SettlementsOverdueCommit(db, late)
  }

  function Advance(db: Db, c: Call, env: Env): Outcome {
    match c
    case Applications(call) => ApplicationStep(db, call, env)
    case Fees(call) => FeeStep(db, call, env)
    case Disbursals(call) => DisbursalStep(db, call, env)
    case Repayments(call) => RepaymentStep(db, call, env)
    case Payroll(call) => PayrollStep(db, call, env)
    case Settlements(call) => SettlementStep(db, call, env)
    case Jobs(call) => JobStep(db, call, env)
  }
}
