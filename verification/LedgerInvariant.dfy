/**
 What every atomic step keeps, however the calls interleave. Each clause is a
 predicate on the tables it speaks of, so a step has to look only at the
 clauses whose tables it writes.
 */
module LedgerInvariant {
  import opened Wrappers
  import opened Tables
  import opened Steps
  import opened Sums

  // The invariant

  ghost predicate Within<K, V, W>(m: map<K, V>, n: map<K, W>) {
    forall k :: k in m ==> k in n
  }

  ghost predicate OrdersBelong(orders: map<Id, Order>, fees: map<Id, Fee>) {
    forall o :: o in orders ==> orders[o].fee in fees && orders[o].amount == fees[orders[o].fee].amount
  }

  ghost predicate HistoryBelongs(history: seq<Entry>, applications: map<Id, Application>) {
    forall e :: e in history ==> e.application in applications
  }

  ghost predicate EventsBelong(events: seq<Event>, orders: map<Id, Order>) {
    forall e :: e in events ==> e.order in orders
  }

  ghost predicate OneActiveAdvance(applications: map<Id, Application>) {
    forall a, b ::
      a in applications && b in applications && a != b && IsActive(applications[a].status)
      && IsActive(applications[b].status) ==>
        applications[a].employee != applications[b].employee
  }

  predicate NeedsClearedFee(s: Status) {
    s in {EmployerApproved, ReadyForDisbursal, RepaymentScheduled, Repaid}
  }

  ghost predicate FeeBeforeApproval(applications: map<Id, Application>, fees: map<Id, Fee>) {
    forall a :: a in applications && NeedsClearedFee(applications[a].status) ==> Cleared(fees, a)
  }

  /** A disbursal is made behind a cleared fee, and it only ever waits or has succeeded. */
  ghost predicate FeeBeforeDisbursal(disbursals: map<Id, Disbursal>, fees: map<Id, Fee>) {
    forall a :: a in disbursals ==> Cleared(fees, a) && disbursals[a].status in {Pending, Success}
  }

  predicate PaidOut(disbursals: map<Id, Disbursal>, a: Id) {
    a in disbursals && disbursals[a].status == Success
  }

  ghost predicate RepaymentPerPayout(disbursals: map<Id, Disbursal>, repayments: map<Id, Repayment>) {
    forall a :: a in repayments <==> PaidOut(disbursals, a)
  }

  predicate Agrees(amount: Option<Paise>, requested: Paise) {
    amount.Some? ==> amount.value == requested
  }

  predicate ApplicationAmounts(app: Application) {
    Agrees(app.employerApproved, app.requested) && Agrees(app.adminApproved, app.requested)
  }

  predicate DisbursalAmounts(d: Disbursal, requested: Paise) {
    d.requested == requested && d.approved == requested && d.disbursed == Some(requested)
  }

  predicate Balanced(principal: Paise, b: Breakdown) {
    && b.interestFree + b.interestBearing == principal
    && b.total == principal + b.interest + b.processingFee + b.gst
  }

  ghost predicate ApprovedAmounts(applications: map<Id, Application>) {
    forall a :: a in applications ==> ApplicationAmounts(applications[a])
  }

  ghost predicate DisbursedAmounts(disbursals: map<Id, Disbursal>, applications: map<Id, Application>) {
    forall a :: a in disbursals ==> a in applications && DisbursalAmounts(disbursals[a], applications[a].requested)
  }

  ghost predicate RepaymentAmounts(repayments: map<Id, Repayment>, applications: map<Id, Application>) {
    forall a :: a in repayments ==>
      a in applications && repayments[a].principal == applications[a].requested
      && Balanced(repayments[a].principal, repayments[a].amounts)
  }

  ghost predicate LineItemAmounts(lineItems: map<Id, LineItem>, repayments: map<Id, Repayment>) {
    forall r :: r in lineItems ==>
      r in repayments && lineItems[r] == NewLineItem(lineItems[r].settlement, r, repayments[r])
  }

  ghost predicate LineItemsBelong(lineItems: map<Id, LineItem>, settlements: map<SettlementKey, Settlement>) {
    forall r :: r in lineItems ==> lineItems[r].settlement in settlements
  }

  ghost predicate HistoryTip(applications: map<Id, Application>, history: seq<Entry>) {
    forall a :: a in applications ==> Newest(history, a) == Some(applications[a].status)
  }

  ghost predicate NeverDisbursed(applications: map<Id, Application>) {
    forall a :: a in applications ==> applications[a].status != Disbursed
  }

  ghost function Count(events: seq<Event>, o: Id, kind: EventType): nat {
    multiset(events)[Event(o, kind)]
  }

  ghost predicate CapturedOrdersCleared(orders: map<Id, Order>, fees: map<Id, Fee>) {
    forall o :: o in orders && orders[o].status == Captured ==> Cleared(fees, orders[o].fee)
  }

  ghost predicate CaptureEvents(orders: map<Id, Order>, events: seq<Event>) {
    forall o :: o in orders ==>
      && Count(events, o, PaymentCaptured)
         <= Count(events, o, PaymentFailed) + (if orders[o].status == Captured then 1 else 0)
      && (orders[o].status == Captured ==> Count(events, o, PaymentCaptured) >= 1)
  }

  /** The columns a settlement and its line items share; Count stands for the number of repayments. */
  datatype Part = PrincipalPart | InterestPart | FeePart | GstPart | TotalPart | CountPart

  function ItemPart(item: LineItem, part: Part): int {
    match part
    case PrincipalPart => item.principal
    case InterestPart => item.interest
    case FeePart => item.processingFee
    case GstPart => item.gst
    case TotalPart => item.totalDeduction
    case CountPart => 1
  }

  function SettlementPart(s: Settlement, part: Part): int {
    match part
    case PrincipalPart => s.principal
    case InterestPart => s.interest
    case FeePart => s.processingFee
    case GstPart => s.gst
    case TotalPart => s.total
    case CountPart => s.employeeCount
  }

  /** One column of one settlement's line items. */
  ghost function ItemColumn(items: map<Id, LineItem>, key: SettlementKey, part: Part): map<Id, int> {
    map r | r in items && items[r].settlement == key :: ItemPart(items[r], part)
  }

  ghost predicate SettlementTotals(settlements: map<SettlementKey, Settlement>, lineItems: map<Id, LineItem>) {
    forall k, part :: k in settlements ==> SettlementPart(settlements[k], part) == Sum(ItemColumn(lineItems, k, part))
  }

  ghost predicate Inv(db: Db) {
    && Within(db.fees, db.applications)
    && OrdersBelong(db.orders, db.fees)
    && HistoryBelongs(db.history, db.applications)
    && EventsBelong(db.events, db.orders)
    && OneActiveAdvance(db.applications)
    && FeeBeforeApproval(db.applications, db.fees)
    && FeeBeforeDisbursal(db.disbursals, db.fees)
    && RepaymentPerPayout(db.disbursals, db.repayments)
    && ApprovedAmounts(db.applications)
    && DisbursedAmounts(db.disbursals, db.applications)
    && RepaymentAmounts(db.repayments, db.applications)
    && LineItemAmounts(db.lineItems, db.repayments)
    && LineItemsBelong(db.lineItems, db.settlements)
    && HistoryTip(db.applications, db.history)
    && NeverDisbursed(db.applications)
    && CapturedOrdersCleared(db.orders, db.fees)
    && CaptureEvents(db.orders, db.events)
    && SettlementTotals(db.settlements, db.lineItems)
  }

  // What no step takes back

  predicate SameApplication(x: Application, y: Application) {
    && x.employee == y.employee && x.employer == y.employer && x.requested == y.requested
    && x.submittedAt == y.submittedAt && x.terms == y.terms
  }

  ghost predicate ApplicationsGrow(m: map<Id, Application>, m': map<Id, Application>) {
    forall a :: a in m ==> a in m' && SameApplication(m[a], m'[a])
  }

  ghost predicate FeesGrow(m: map<Id, Fee>, m': map<Id, Fee>) {
    && (forall a :: a in m ==> a in m' && m'[a].amount == m[a].amount)
    && (forall a :: Cleared(m, a) ==> Cleared(m', a))
  }

  ghost predicate OrdersGrow(m: map<Id, Order>, m': map<Id, Order>) {
    forall o :: o in m ==> o in m' && m'[o].fee == m[o].fee
  }

  ghost predicate DisbursalsGrow(m: map<Id, Disbursal>, m': map<Id, Disbursal>) {
    && (forall a :: a in m ==> a in m')
    && (forall a :: PaidOut(m, a) ==> PaidOut(m', a))
  }

  ghost predicate RepaymentsGrow(m: map<Id, Repayment>, m': map<Id, Repayment>) {
    forall r :: r in m ==> r in m' && m'[r].(status := m[r].status) == m[r]
  }

  ghost predicate SettlementsGrow(m: map<SettlementKey, Settlement>, m': map<SettlementKey, Settlement>) {
    forall k :: k in m ==> k in m' && m'[k].(status := m[k].status, outstanding := m[k].outstanding) == m[k]
  }

  /** Line items are never rewritten, and a settlement never gets more of them. */
  ghost predicate LineItemsGrow(m: map<Id, LineItem>, m': map<Id, LineItem>,
                                settlements: map<SettlementKey, Settlement>) {
    && (forall r :: r in m ==> r in m' && m'[r] == m[r])
    && (forall r :: r in m' && r !in m ==> m'[r].settlement !in settlements)
  }

  ghost predicate Grows(db: Db, db': Db) {
    && ApplicationsGrow(db.applications, db'.applications)
    && FeesGrow(db.fees, db'.fees)
    && OrdersGrow(db.orders, db'.orders)
    && DisbursalsGrow(db.disbursals, db'.disbursals)
    && RepaymentsGrow(db.repayments, db'.repayments)
    && SettlementsGrow(db.settlements, db'.settlements)
    && LineItemsGrow(db.lineItems, db'.lineItems, db.settlements)
    && db.history <= db'.history
    && db.events <= db'.events
  }

  lemma GrowsReflexive(db: Db)
    ensures Grows(db, db)
  {
  }

  lemma GrowsTransitive(db: Db, db': Db, db'': Db)
    requires Grows(db, db') && Grows(db', db'')
    ensures Grows(db, db'')
  {
  }

  // What a call may rely on

  /** A row read earlier still agrees with the database on every column that is never rewritten. */
  ghost predicate Seen(applications: map<Id, Application>, a: Id, seen: Application) {
    a in applications && SameApplication(seen, applications[a]) && ApplicationAmounts(seen)
  }

  /** An advance was seen past its approval only after its fee had been cleared. */
  predicate SeenCleared(fees: map<Id, Fee>, a: Id, seen: Application) {
    NeedsClearedFee(seen.status) ==> Cleared(fees, a)
  }

  ghost predicate ApplicationCallOk(db: Db, c: ApplicationCall) {
    match c
    case EmployerApproveCheck(a, seen) => Seen(db.applications, a, seen)
    case EmployerApproveWrite(a, seen) => Seen(db.applications, a, seen)
    case AdminApproveFee(a, seen) => Seen(db.applications, a, seen)
    case AdminApproveWrite(a, seen) => Seen(db.applications, a, seen) && Cleared(db.fees, a)
    case _ => true
  }

  ghost predicate FeeCallOk(db: Db, c: FeeCall) {
    match c
    case FindOrder(a, amount) => a in db.fees && db.fees[a].amount == amount
    case CreateOrder(a, amount) => a in db.fees && db.fees[a].amount == amount
    case CaptureWrite(o, a) => o in db.orders && db.orders[o].fee == a
    case _ => true
  }

  ghost predicate DisbursalCallOk(db: Db, c: DisbursalCall) {
    match c
    case FindDisbursal(a, seen) => Seen(db.applications, a, seen) && SeenCleared(db.fees, a, seen)
    case DisbursalRisk(a, seen) => Seen(db.applications, a, seen) && SeenCleared(db.fees, a, seen)
    case DisbursalFee(a, seen) =>
      Seen(db.applications, a, seen) && SeenCleared(db.fees, a, seen) && seen.status == ReadyForDisbursal
    case CreateDisbursalWrite(a, seen) => Seen(db.applications, a, seen) && Cleared(db.fees, a)
    case DisburseApplication(a, d) => a in db.applications && DisbursalAmounts(d, db.applications[a].requested)
    case DisburseFee(a, d, seen) => Seen(db.applications, a, seen) && DisbursalAmounts(d, seen.requested)
    case DisburseWrite(a, amount, amounts, seen) =>
      Seen(db.applications, a, seen) && Cleared(db.fees, a) && amount == seen.requested && Balanced(amount, amounts)
    case _ => true
  }

  ghost predicate RepaymentCallOk(db: Db, c: RepaymentCall) {
    match c
    case PayWrite(a) => a in db.repayments
    case _ => true
  }

  ghost predicate PayrollCallOk(db: Db, c: PayrollCall) {
    match c
    case ProcessRecoveryWrite(_, ids, rows, _) =>
      |ids| == |rows| && forall i :: 0 <= i < |ids| ==>
        ids[i] in db.repayments && db.repayments[ids[i]].(status := rows[i].status) == rows[i]
    case _ => true
  }

  ghost predicate SettlementCallOk(db: Db, c: SettlementCall) {
    match c
    case MarkPaidWrite(key, ids) => key in db.settlements && IsListing(ids, ItemsOf(db, key))
    case _ => true
  }

  ghost predicate JobCallOk(db: Db, c: JobCall) {
    match c
    case ExpireStaleWrite(ids) => forall a :: a in ids ==> a in db.applications
    case _ => true
  }

  ghost predicate CallOk(db: Db, c: Call) {
    match c
    case Applications(call) => ApplicationCallOk(db, call)
    case Fees(call) => FeeCallOk(db, call)
    case Disbursals(call) => DisbursalCallOk(db, call)
    case Repayments(call) => RepaymentCallOk(db, call)
    case Payroll(call) => PayrollCallOk(db, call)
    case Settlements(call) => SettlementCallOk(db, call)
    case Jobs(call) => JobCallOk(db, call)
  }

  /** What a call relies on survives every step of every other call. */
  lemma CallStable(db: Db, db': Db, c: Call)
    requires Grows(db, db') && CallOk(db, c)
    ensures CallOk(db', c)
  {
  }
}
