/**
 The rows of prisma/schema.prisma that the advance lifecycle reads and writes.

 A table is a map from the column that identifies its rows. Where the schema
 declares another column unique (`Disbursal.loanApplicationId`,
 `Repayment.loanApplicationId`, `LoanApplicationFee.loanApplicationId`,
 `SettlementLineItem.repaymentId`, `EmployerSettlement(employerId, cycleDate)`)
 that column is the key, so a second row is a refused insert.
 Money is in whole paise, the unit of every `Decimal(12, 2)` column.
 */
module Tables {
  import opened Wrappers

  /** A uuid: compared for equality and nothing else. */
  type Id = nat

  /** Milliseconds. */
  type Instant = int

  type Paise = int

  datatype Status =
    | Submitted
    | EmployerApproved
    | EmployerRejected
    | AwaitingPlatformFee
    | ReadyForDisbursal
    | AdminRejected
    | Disbursed
    | RepaymentScheduled
    | Repaid
    | Cancelled
    | Expired

  /** The statuses listed by the partial unique index on active advances. */
  predicate IsActive(s: Status) {
    s in {Submitted, EmployerApproved, AwaitingPlatformFee, ReadyForDisbursal, Disbursed, RepaymentScheduled}
  }

  /** The snapshot columns of an application, each in the unit of its last decimal place. */
  datatype Terms = Terms(
    annualRate: nat,      // Decimal(5, 2): hundredths of a percent
    threshold: nat,       // Decimal(12, 2): paise
    feeRate: nat,         // Decimal(5, 4): ten-thousandths
    gstRate: nat,         // Decimal(5, 4): ten-thousandths
    interestDays: nat,
    recoveryDate: Instant)

  datatype Application = Application(
    employee: Id,
    employer: Id,
    status: Status,
    requested: Paise,
    employerApproved: Option<Paise>,
    adminApproved: Option<Paise>,
    submittedAt: Instant,
    terms: Terms)

  datatype FeeStatus = PendingPayment | FeePaid | FeeFailed | FeeExpired | FeeRefunded | FeeWaived

  datatype Fee = Fee(amount: Paise, status: FeeStatus)

  datatype OrderStatus = Created | Attempted | Captured | OrderFailed | OrderExpired | OrderRefunded

  datatype Order = Order(fee: Id, amount: Paise, status: OrderStatus, expiresAt: Instant)

  datatype EventType = PaymentCaptured | PaymentFailed

  datatype Event = Event(order: Id, kind: EventType)

  datatype DisbursalStatus = Pending | Processing | Success | DisbursalFailed | DisbursalCancelled

  datatype Disbursal = Disbursal(
    requested: Paise,
    approved: Paise,
    disbursed: Option<Paise>,
    status: DisbursalStatus)

  /** The amounts of `RepaymentBreakdown`. */
  datatype Breakdown = Breakdown(
    interestFree: Paise,
    interestBearing: Paise,
    interest: Paise,
    processingFee: Paise,
    gst: Paise,
    total: Paise)

  datatype RepaymentStatus = Scheduled | Paid | Overdue

  datatype Repayment = Repayment(
    principal: Paise,
    amounts: Breakdown,
    dueDate: Instant,
    status: RepaymentStatus)

  datatype SettlementStatus = Draft | Generated | PartiallyPaid | SettlementPaid |
      SettlementOverdue | SettlementCancelled

  datatype SettlementKey = SettlementKey(employer: Id, cycle: Instant)

  datatype Settlement = Settlement(
    principal: Paise,
    interest: Paise,
    processingFee: Paise,
    gst: Paise,
    total: Paise,
    outstanding: Paise,
    employeeCount: nat,
    dueDate: Instant,
    status: SettlementStatus)

  datatype LineItem = LineItem(
    settlement: SettlementKey,
    application: Id,
    principal: Paise,
    interest: Paise,
    processingFee: Paise,
    gst: Paise,
    totalDeduction: Paise)

  datatype Entry = Entry(application: Id, previous: Option<Status>, next: Status)

  datatype Risk = Good | Warning | Blocked

  /** One state of the database. */
  datatype Db = Db(
    applications: map<Id, Application>,
    fees: map<Id, Fee>,                       // by application
    orders: map<Id, Order>,
    disbursals: map<Id, Disbursal>,           // by application
    repayments: map<Id, Repayment>,           // by application
    settlements: map<SettlementKey, Settlement>,
    lineItems: map<Id, LineItem>,             // by repayment
    risk: map<Id, Risk>,                      // by employer
    history: seq<Entry>,
    events: seq<Event>)

  const EMPTY_DB := Db(map[], map[], map[], map[], map[], map[], map[], map[], [], [])

  /** The database as the services see it: tables that are written one at a time. */
  class Database {
    var applications: map<Id, Application>
    var fees: map<Id, Fee>
    var orders: map<Id, Order>
    var disbursals: map<Id, Disbursal>
    var repayments: map<Id, Repayment>
    var settlements: map<SettlementKey, Settlement>
    var lineItems: map<Id, LineItem>
    var risk: map<Id, Risk>
    var history: seq<Entry>
    var events: seq<Event>

    function View(): Db
      reads this
    {
      Db(applications, fees, orders, disbursals, repayments, settlements, lineItems, risk, history, events)
    }

    constructor ()
      ensures View() == EMPTY_DB
    {
      applications, fees, orders, disbursals := map[], map[], map[], map[];
      repayments, settlements, lineItems, risk := map[], map[], map[], map[];
      history, events := [], [];
    }

    /** Undoes an aborted transaction. */
    method Restore(before: Db)
      modifies this
      ensures View() == before
    {
      applications, fees, orders, disbursals := before.applications, before.fees, before.orders, before.disbursals;
      repayments, settlements, lineItems, risk := before.repayments, before.settlements, before.lineItems, before.risk;
      history, events := before.history, before.events;
    }

    /** A status write with its history row; the partial unique index may refuse it. */
    method UpdateStatus(a: Id, previous: Status, next: Status) returns (ok: bool)
      modifies `applications, `history
      ensures ok == (a in old(applications) && IndexAllows(old(View()), a, next))
      ensures View() == if ok then Move(old(View()), a, Some(previous), next) else old(View())
    {
      ok := a in applications && IndexAllows(View(), a, next);
      if ok {
        applications := applications[a := applications[a].(status := next)];
        history := history + [Entry(a, Some(previous), next)];
      }
    }
  }

  /** The rows of a query, in the order the database happens to return them. */
  predicate IsListing<T(==)>(rows: seq<T>, matching: set<T>) {
    && (forall i, j :: 0 <= i < j < |rows| ==> rows[i] != rows[j])
    && (forall x :: x in rows ==> x in matching)
    && (forall x :: x in matching ==> x in rows)
  }

  /** Runs a query: returns the matching rows in some order. */
  method FindMany<T(==)>(matching: set<T>) returns (rows: seq<T>)
    ensures IsListing(rows, matching)
  {
    rows := [];
    var rest := matching;
    while rest != {}
      invariant rest <= matching
      invariant IsListing(rows, matching - rest)
    {
      var x :| x in rest;
      rows, rest := rows + [x], rest - {x};
    }
  }

  // The status column and its history

  /** The status recorded by the newest history entry of an application. */
  function Newest(history: seq<Entry>, a: Id): Option<Status> {
    if history == [] then None
    else
      var last := history[|history| - 1];
      if last.application == a then Some(last.next) else Newest(history[..|history| - 1], a)
  }

  lemma NewestAppend(history: seq<Entry>, e: Entry, a: Id)
    ensures Newest(history + [e], a) == if e.application == a then Some(e.next) else Newest(history, a)
  {
    assert (history + [e])[..|history|] == history;
  }

  /** Whether the partial unique index lets application `a` take status `s`. */
  predicate IndexAllows(db: Db, a: Id, s: Status)
    requires a in db.applications
  {
    IsActive(s) ==>
      forall b :: b in db.applications && b != a && IsActive(db.applications[b].status) ==>
        db.applications[b].employee != db.applications[a].employee
  }

  /** One status write with its nested history row. */
  function Move(db: Db, a: Id, previous: Option<Status>, next: Status): Db
    requires a in db.applications
  {
    db.(applications := db.applications[a := db.applications[a].(status := next)],
        history := db.history + [Entry(a, previous, next)])
  }

  /** A request-specific fee is cleared when it is paid or waived. */
  predicate Cleared(fees: map<Id, Fee>, a: Id) {
    a in fees && fees[a].status in {FeePaid, FeeWaived}
  }
}
