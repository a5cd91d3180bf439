/** What holds besides the interleaved invariant when calls run one after another. */
module SerialInvariant {
  import opened Wrappers
  import opened Tables
  import opened Steps
  import opened LedgerInvariant

  // The invariant

  /** Where an application stands, given its disbursal and its repayment. */
  ghost predicate StatusFits(applications: map<Id, Application>, disbursals: map<Id, Disbursal>,
                             repayments: map<Id, Repayment>) {
    && (forall a :: a in disbursals && disbursals[a].status == Pending ==>
          a in applications && applications[a].status in {ReadyForDisbursal, AdminRejected})
    && (forall a :: a in repayments ==>
          a in applications
          && applications[a].status == if repayments[a].status == Paid then Repaid else RepaymentScheduled)
    && (forall a :: a in applications && applications[a].status in {RepaymentScheduled, Repaid} ==> a in repayments)
  }

  ghost predicate Settled(settlements: map<SettlementKey, Settlement>, lineItems: map<Id, LineItem>,
                          repayments: map<Id, Repayment>) {
    && (forall k :: k in settlements ==>
          settlements[k].outstanding == if settlements[k].status == SettlementPaid then 0 else settlements[k].total)
    && (forall r :: r in lineItems && lineItems[r].settlement in settlements
                    && settlements[lineItems[r].settlement].status == SettlementPaid ==>
          r in repayments && repayments[r].status == Paid)
  }

  /** Each entry starts where the previous entry of its application ended. */
  ghost predicate Chained(history: seq<Entry>) {
    forall i :: 0 <= i < |history| ==> history[i].previous == Newest(history[..i], history[i].application)
  }

  /** The status changes the services make. */
  predicate Edge(previous: Option<Status>, next: Status) {
    match next
    case Submitted => previous == None
    case AwaitingPlatformFee => previous == Some(Submitted)
    case Cancelled => previous == Some(Submitted)
    case EmployerRejected => previous == Some(Submitted)
    case Expired => previous == Some(Submitted)
    case EmployerApproved => previous == Some(AwaitingPlatformFee)
    case ReadyForDisbursal => previous == Some(EmployerApproved)
    case AdminRejected =>
      previous in {Some(Submitted), Some(AwaitingPlatformFee), Some(EmployerApproved), Some(ReadyForDisbursal)}
    case RepaymentScheduled => previous in {Some(ReadyForDisbursal), Some(AdminRejected)}
    case Repaid => previous in {Some(RepaymentScheduled), Some(Repaid)}
    case Disbursed => false
  }

  ghost predicate Edges(history: seq<Entry>) {
    forall e :: e in history ==> Edge(e.previous, e.next)
  }

  ghost predicate SerialInv(db: Db) {
    && Inv(db)
    && StatusFits(db.applications, db.disbursals, db.repayments)
    && Settled(db.settlements, db.lineItems, db.repayments)
    && Chained(db.history)
    && Edges(db.history)
  }

  ghost predicate RepaidStays(m: map<Id, Repayment>, m': map<Id, Repayment>) {
    forall r :: r in m && m[r].status == Paid ==> r in m' && m'[r].status == Paid
  }

  ghost predicate SettledStays(m: map<SettlementKey, Settlement>, m': map<SettlementKey, Settlement>) {
    forall k :: k in m && m[k].status == SettlementPaid ==> k in m' && m'[k].status == SettlementPaid
  }

  // What the one running call knows: its reads are still true

  ghost predicate Current(db: Db, a: Id, seen: Application) {
    a in db.applications && db.applications[a] == seen
  }

  ghost predicate Fresh(db: Db, c: Call) {
    match c
    case Applications(CancelWrite(a)) => a in db.applications && db.applications[a].status == Submitted
    case Applications(EmployerApproveCheck(a, seen)) => Current(db, a, seen) && seen.status == Submitted
    case Applications(EmployerApproveWrite(a, seen)) => Current(db, a, seen) && seen.status == Submitted
    case Applications(EmployerRejectWrite(a)) => a in db.applications && db.applications[a].status == Submitted
    case Applications(AdminApproveFee(a, seen)) => Current(db, a, seen) && seen.status == EmployerApproved
    case Applications(AdminApproveWrite(a, seen)) => Current(db, a, seen) && seen.status == EmployerApproved
    case Applications(AdminRejectWrite(a, seen)) => Current(db, a, seen) && Edge(Some(seen.status), AdminRejected)
    case Fees(WaiveWrite(a, seen)) => Current(db, a, seen)
    case Disbursals(FindDisbursal(a, seen)) => Current(db, a, seen)
    case Disbursals(DisbursalRisk(a, seen)) => Current(db, a, seen) && a !in db.disbursals
    case Disbursals(DisbursalFee(a, seen)) =>
      Current(db, a, seen) && a !in db.disbursals && seen.status == ReadyForDisbursal
    case Disbursals(CreateDisbursalWrite(a, seen)) =>
      Current(db, a, seen) && a !in db.disbursals && seen.status == ReadyForDisbursal
    case Disbursals(DisburseFee(a, _, seen)) => Current(db, a, seen)
    case Disbursals(DisburseWrite(a, _, _, seen)) => Current(db, a, seen)
    case Settlements(MarkPaidWrite(_, ids)) => Distinct(ids)
    case Settlements(RiskOverdueWrite(key)) => key in db.settlements ==> db.settlements[key].status != SettlementPaid
    case Jobs(ExpireStaleWrite(ids)) =>
      Distinct(ids) && forall a :: a in ids ==> a in db.applications && db.applications[a].status == Submitted
    case Jobs(RepaymentsOverdueWrite(overdue)) =>
      forall r :: r in overdue ==> r in db.repayments && db.repayments[r].status == Scheduled
    case Jobs(SettlementsOverdueWrite(late)) =>
      forall k :: k in late ==> k in db.settlements && db.settlements[k].status != SettlementPaid
    case _ => true
  }

  ghost predicate SerialStepOk(db: Db, o: Outcome) {
    match o
    case Read(next) => Fresh(db, next)
    case Wrote(db', rest) =>
      && SerialInv(db') && (rest.Some? ==> Fresh(db', rest.value))
      && RepaidStays(db.repayments, db'.repayments) && SettledStays(db.settlements, db'.settlements)
    case Returned => true
    case Threw => true
  }
}
