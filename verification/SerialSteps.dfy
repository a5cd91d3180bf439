/** Every step of a call that runs alone keeps the serial invariant. */
module SerialSteps {
  import opened Wrappers
  import opened Tables
  import opened Steps
  import opened LedgerInvariant
  import opened LedgerSteps
  import opened SerialInvariant

  // History

  lemma ChainedAppend(history: seq<Entry>, e: Entry)
    requires Chained(history) && Edges(history)
    requires e.previous == Newest(history, e.application) && Edge(e.previous, e.next)
    ensures Chained(history + [e]) && Edges(history + [e])
  {
    var h := history + [e];
    forall i | 0 <= i < |h|
      ensures h[i].previous == Newest(h[..i], h[i].application)
    {
      assert h[..i] == history[..i];
      assert history[..|history|] == history;
    }
  }

  lemma {:induction false} ChainedEntries(history: seq<Entry>, ids: seq<Id>, applications: map<Id, Application>,
                                          next: Status)
    requires Chained(history) && Edges(history) && Distinct(ids)
    requires forall a :: a in ids ==>
      a in applications && Newest(history, a) == Some(applications[a].status)
      && Edge(Some(applications[a].status), next)
    ensures Chained(history + Entries(ids, applications, next)) && Edges(history + Entries(ids, applications, next))
    decreases |ids|
  {
    if ids == [] {
      assert history + [] == history;
    } else {
      var init, a := ids[..|ids| - 1], ids[|ids| - 1];
      var e := Entry(a, Some(applications[a].status), next);
      ChainedEntries(history, init, applications, next);
      EntriesMeaning(init, applications, next);
      NewestConcat(history, Entries(init, applications, next), next, a);
      assert a !in init;
      ChainedAppend(history + Entries(init, applications, next), e);
      assert history + Entries(ids, applications, next) == (history + Entries(init, applications, next)) + [e];
    }
  }

  lemma {:induction false} ExpiredEntriesAreEntries(ids: seq<Id>, applications: map<Id, Application>)
    requires forall a :: a in ids ==> a in applications && applications[a].status == Submitted
    ensures ExpiredEntries(ids) == Entries(ids, applications, Expired)
    decreases |ids|
  {
    if ids != [] {
      ExpiredEntriesAreEntries(ids[..|ids| - 1], applications);
      assert ExpiredEntries(ids)
          == ExpiredEntries(ids[..|ids| - 1]) + [Entry(ids[|ids| - 1], Some(Submitted), Expired)];
    }
  }

  lemma MoveChained(db: Db, a: Id, next: Status)
    requires HistoryTip(db.applications, db.history) && Chained(db.history) && Edges(db.history)
    requires a in db.applications && Edge(Some(db.applications[a].status), next)
    ensures var db' := Move(db, a, Some(db.applications[a].status), next); Chained(db'.history) && Edges(db'.history)
  {
    ChainedAppend(db.history, Entry(a, Some(db.applications[a].status), next));
  }

  // Tables

  predicate BeforePayout(s: Status) {
    s !in {RepaymentScheduled, Repaid}
  }

  /** Status changes of advances that are not paid out, and nothing waiting to be paid out is disturbed. */
  lemma MoveFits(db: Db, a: Id, next: Status)
    requires StatusFits(db.applications, db.disbursals, db.repayments) && a in db.applications
    requires BeforePayout(db.applications[a].status) && BeforePayout(next)
    requires a in db.disbursals && db.disbursals[a].status == Pending ==> next in {ReadyForDisbursal, AdminRejected}
    ensures StatusFits(db.applications[a := db.applications[a].(status := next)], db.disbursals, db.repayments)
  {
  }

  lemma ShownApplication(db: Db, a: Id)
    requires SerialInv(db) && a in db.applications
    ensures a in db.disbursals && db.disbursals[a].status == Pending ==>
              db.applications[a].status in {ReadyForDisbursal, AdminRejected}
    ensures a in db.repayments <==> db.applications[a].status in {RepaymentScheduled, Repaid}
    ensures HistoryTip(db.applications, db.history) && Chained(db.history) && Edges(db.history)
    ensures StatusFits(db.applications, db.disbursals, db.repayments)
  {
  }

  /** A status write whose previous status is the current one. */
  lemma MoveSerial(db: Db, a: Id, next: Status)
    requires SerialInv(db) && a in db.applications
    requires Inv(Move(db, a, Some(db.applications[a].status), next))
    requires Edge(Some(db.applications[a].status), next) && next !in {RepaymentScheduled, Repaid}
    ensures SerialInv(Move(db, a, Some(db.applications[a].status), next))
  {
    hide Inv, HistoryTip, StatusFits, Chained, Edges;
    ShownApplication(db, a);
    MoveChained(db, a, next);
    MoveFits(db, a, next);
  }

  /** Writes that touch no status, settlement or history. */
  lemma FrameSerial(db: Db, db': Db)
    requires SerialInv(db) && Inv(db')
    requires db'.disbursals == db.disbursals && db'.repayments == db.repayments && db'.settlements == db.settlements
    requires db'.lineItems == db.lineItems && db'.history == db.history
    requires db'.applications.Keys == db.applications.Keys
    requires forall a :: a in db.applications ==> db'.applications[a].status == db.applications[a].status
    ensures SerialInv(db')
  {
    hide Inv, Settled, Chained, Edges;
  }

  lemma StaysReflexive(db: Db)
    ensures RepaidStays(db.repayments, db.repayments) && SettledStays(db.settlements, db.settlements)
  {
  }

  lemma StatusWriteSerial(db: Db, a: Id, next: Status)
    requires SerialInv(db) && a in db.applications
    requires Edge(Some(db.applications[a].status), next) && next !in {RepaymentScheduled, Repaid}
    requires NeedsClearedFee(next) ==> Cleared(db.fees, a)
    ensures SerialStepOk(db, StatusWrite(db, a, db.applications[a].status, next))
  {
    hide SerialInv, Inv, Grows, RepaidStays, SettledStays, Fresh, CallOk, IndexAllows;
    InvOf(db);
    StatusWriteKeeps(db, a, db.applications[a].status, next);
    if IndexAllows(db, a, next) {
      MoveSerial(db, a, next);
      StaysReflexive(db);
    }
  }

  lemma InvOf(db: Db)
    requires SerialInv(db)
    ensures Inv(db)
  {
  }

  /** A current status write that also fills an amount column or creates the fee. */
  lemma MoveAndFill(db: Db, a: Id, next: Status, db': Db)
    requires SerialInv(db) && a in db.applications && IndexAllows(db, a, next)
    requires Edge(Some(db.applications[a].status), next) && next !in {RepaymentScheduled, Repaid}
    requires NeedsClearedFee(next) ==> Cleared(db.fees, a)
    requires Inv(db') && db'.history == db.history + [Entry(a, Some(db.applications[a].status), next)]
    requires db'.disbursals == db.disbursals && db'.repayments == db.repayments
    requires db'.settlements == db.settlements && db'.lineItems == db.lineItems
    requires exists row :: db'.applications == db.applications[a := row] && row.status == next
    ensures SerialInv(db') && RepaidStays(db.repayments, db'.repayments)
    ensures SettledStays(db.settlements, db'.settlements)
  {
    hide SerialInv, Inv, Grows, RepaidStays, SettledStays, IndexAllows;
    InvOf(db);
    MoveKeeps(db, a, Some(db.applications[a].status), next);
    MoveSerial(db, a, next);
    FrameSerial(Move(db, a, Some(db.applications[a].status), next), db');
    StaysReflexive(db);
  }

  /** What an approval writes. */
  lemma ApprovalWrites(db: Db, a: Id, seen: Application, feeAmount: Option<Paise>)
    requires Current(db, a, seen) && EmployerApproveCommit(db, a, seen, feeAmount).Wrote?
    ensures var o := EmployerApproveCommit(db, a, seen, feeAmount);
            var row := db.applications[a].(status := AwaitingPlatformFee, employerApproved := Some(seen.requested));
            && o.rest.None? && IndexAllows(db, a, AwaitingPlatformFee)
            && o.db == db.(applications := db.applications[a := row], fees := o.db.fees,
                           history := db.history + [Entry(a, Some(Submitted), AwaitingPlatformFee)])
  {
    hide IndexAllows;
    var o := EmployerApproveCommit(db, a, seen, feeAmount);
    var row := db.applications[a].(status := AwaitingPlatformFee, employerApproved := Some(seen.requested));
    var moved := db.applications[a := db.applications[a].(status := AwaitingPlatformFee)];
    assert moved[a := row] == db.applications[a := row];
  }

  lemma EmployerApproveSerial(db: Db, a: Id, seen: Application, feeAmount: Option<Paise>)
    requires SerialInv(db) && Current(db, a, seen) && seen.status == Submitted && Seen(db.applications, a, seen)
    ensures SerialStepOk(db, EmployerApproveCommit(db, a, seen, feeAmount))
  {
    hide SerialInv, Inv, Grows, RepaidStays, SettledStays, Fresh, CallOk, IndexAllows, Seen, EmployerApproveCommit;
    InvOf(db);
    EmployerApproveKeeps(db, a, seen, feeAmount);
    var o := EmployerApproveCommit(db, a, seen, feeAmount);
    if o.Wrote? {
      ApprovalWrites(db, a, seen, feeAmount);
      MoveAndFill(db, a, AwaitingPlatformFee, o.db);
    } else {
      ApprovalWritesOrThrows(db, a, seen, feeAmount);
    }
  }

  lemma ApprovalWritesOrThrows(db: Db, a: Id, seen: Application, feeAmount: Option<Paise>)
    ensures EmployerApproveCommit(db, a, seen, feeAmount).Wrote? || EmployerApproveCommit(db, a, seen, feeAmount).Threw?
  {
  }

  lemma AdminApproveSerial(db: Db, a: Id, seen: Application)
    requires SerialInv(db) && Current(db, a, seen) && seen.status == EmployerApproved
    requires Seen(db.applications, a, seen) && Cleared(db.fees, a)
    ensures SerialStepOk(db, AdminApproveCommit(db, a, seen))
  {
    hide SerialInv, Inv, Grows, RepaidStays, SettledStays, Fresh, CallOk, IndexAllows, Seen;
    InvOf(db);
    AdminApproveKeeps(db, a, seen);
    var o := AdminApproveCommit(db, a, seen);
    if o.Wrote? {
      assert o.db.applications == db.applications[a := o.db.applications[a]];
      MoveAndFill(db, a, ReadyForDisbursal, o.db);
    }
  }

  /** Writes that only touch fees, orders, events and risk flags. */
  lemma SideTablesSerial(db: Db, o: Outcome)
    requires SerialInv(db) && StepOk(db, o) && o.Wrote? && (o.rest.Some? ==> Fresh(o.db, o.rest.value))
    requires o.db.applications == db.applications && o.db.disbursals == db.disbursals
    requires o.db.repayments == db.repayments
    requires o.db.settlements == db.settlements && o.db.lineItems == db.lineItems && o.db.history == db.history
    ensures SerialStepOk(db, o)
  {
    hide SerialInv, Inv, Grows, RepaidStays, SettledStays, Fresh, CallOk;
    FrameSerial(db, o.db);
    StaysReflexive(db);
  }

  lemma WaiveSerial(db: Db, a: Id, seen: Application)
    requires SerialInv(db) && Current(db, a, seen)
    ensures SerialStepOk(db, WaiveCommit(db, a, seen))
  {
    hide SerialInv, Inv, Grows, RepaidStays, SettledStays, Fresh, CallOk, IndexAllows;
    InvOf(db);
    WaiveKeeps(db, a, seen);
    if a in db.fees {
      var db1 := db.(fees := db.fees[a := db.fees[a].(status := FeeWaived)]);
      ClearFeeKeeps(db, a, FeeWaived);
      FrameSerial(db, db1);
      if seen.status == AwaitingPlatformFee {
        StatusWriteSerial(db1, a, EmployerApproved);
      } else {
        StaysReflexive(db);
      }
    }
  }

  lemma CaptureSerial(db: Db, o: Id, a: Id)
    requires SerialInv(db) && o in db.orders && db.orders[o].fee == a
    ensures SerialStepOk(db, CaptureCommit(db, o, a))
  {
    hide SerialInv, Inv, Grows, RepaidStays, SettledStays, Fresh, CallOk, IndexAllows;
    InvOf(db);
    CaptureKeeps(db, o, a);
    CapturedMeansCleared(db, o);
    if Cleared(db.fees, a) || a !in db.applications || db.applications[a].status != AwaitingPlatformFee {
      SideTablesSerial(db, CaptureCommit(db, o, a));
    } else {
      var db1 := CapturedTables(db, o, a);
      CapturedTablesKeep(db, o, a);
      CaptureIs(db, o, a);
      FrameSerial(db, db1);
      StatusWriteSerial(db1, a, EmployerApproved);
    }
  }

  lemma CreateDisbursalSerial(db: Db, a: Id, seen: Application)
    requires SerialInv(db) && Current(db, a, seen) && seen.status in {ReadyForDisbursal, AdminRejected}
    requires Seen(db.applications, a, seen) && Cleared(db.fees, a)
    ensures SerialStepOk(db, CreateDisbursalCommit(db, a, seen))
  {
    hide Inv, Grows, Fresh, CallOk, StatusFits, Settled, Chained, Edges, RepaidStays, SettledStays;
    InvOf(db);
    ShownApplication(db, a);
    CreateDisbursalKeeps(db, a, seen);
    StaysReflexive(db);
    if a !in db.disbursals {
      PendingFits(db, a, CreateDisbursalCommit(db, a, seen).db.disbursals[a]);
    }
  }

  lemma PendingFits(db: Db, a: Id, d: Disbursal)
    requires StatusFits(db.applications, db.disbursals, db.repayments) && a in db.applications
    requires db.applications[a].status in {ReadyForDisbursal, AdminRejected} && d.status == Pending
    ensures StatusFits(db.applications, db.disbursals[a := d], db.repayments)
  {
  }

  // Payout and repayment

  lemma PayoutFits(db: Db, a: Id, d: Disbursal, r: Repayment)
    requires StatusFits(db.applications, db.disbursals, db.repayments) && a in db.applications && a in db.disbursals
    requires d.status == Success && r.status == Scheduled
    ensures StatusFits(db.applications[a := db.applications[a].(status := RepaymentScheduled)],
                       db.disbursals[a := d], db.repayments[a := r])
  {
  }

  lemma PayoutSettled(db: Db, a: Id, r: Repayment)
    requires Settled(db.settlements, db.lineItems, db.repayments) && LineItemAmounts(db.lineItems, db.repayments)
    requires a !in db.repayments
    ensures Settled(db.settlements, db.lineItems, db.repayments[a := r])
    ensures RepaidStays(db.repayments, db.repayments[a := r])
  {
  }

  lemma PendingFacts(db: Db, a: Id)
    requires SerialInv(db) && a in db.disbursals && db.disbursals[a].status == Pending
    ensures a !in db.repayments && a in db.applications
    ensures db.applications[a].status in {ReadyForDisbursal, AdminRejected}
    ensures Settled(db.settlements, db.lineItems, db.repayments) && LineItemAmounts(db.lineItems, db.repayments)
  {
    assert !PaidOut(db.disbursals, a);
  }

  lemma DisburseSerial(db: Db, a: Id, amount: Paise, amounts: Breakdown, seen: Application)
    requires SerialInv(db) && DisbursalCallOk(db, DisburseWrite(a, amount, amounts, seen)) && Current(db, a, seen)
    ensures SerialStepOk(db, DisburseCommit(db, a, amount, amounts, seen))
  {
    hide Inv, Grows, Fresh, CallOk, StatusFits, Settled, Chained, Edges, RepaidStays, SettledStays;
    InvOf(db);
    ShownApplication(db, a);
    DisburseKeeps(db, a, amount, amounts, seen);
    if DisburseCommit(db, a, amount, amounts, seen).Wrote? {
      PendingFacts(db, a);
      var r := Repayment(amount, amounts, seen.terms.recoveryDate, Scheduled);
      PayoutFits(db, a, db.disbursals[a].(status := Success, disbursed := Some(amount)), r);
      PayoutSettled(db, a, r);
      MoveChained(db, a, RepaymentScheduled);
      StaysReflexive(db);
    }
  }

  lemma PaidTables(db: Db, a: Id)
    requires StatusFits(db.applications, db.disbursals, db.repayments)
    requires Settled(db.settlements, db.lineItems, db.repayments)
    requires RepaymentPerPayout(db.disbursals, db.repayments) && a in db.repayments
    ensures a in db.applications
    ensures var repayments := db.repayments[a := db.repayments[a].(status := Paid)];
            && StatusFits(db.applications[a := db.applications[a].(status := Repaid)], db.disbursals, repayments)
            && Settled(db.settlements, db.lineItems, repayments)
            && RepaidStays(db.repayments, repayments)
  {
    assert PaidOut(db.disbursals, a);
  }

  lemma RepaymentFacts(db: Db, a: Id)
    requires SerialInv(db) && a in db.repayments
    ensures a in db.applications
    ensures StatusFits(db.applications, db.disbursals, db.repayments)
    ensures Settled(db.settlements, db.lineItems, db.repayments)
    ensures RepaymentPerPayout(db.disbursals, db.repayments)
    ensures db.applications[a].status == if db.repayments[a].status == Paid then Repaid else RepaymentScheduled
  {
  }

  lemma PaySerial(db: Db, a: Id)
    requires SerialInv(db) && a in db.repayments
    ensures SerialStepOk(db, PayCommit(db, a))
  {
    hide Inv, Grows, Fresh, CallOk, StatusFits, Settled, Chained, Edges, RepaidStays, SettledStays, RepaymentPerPayout;
    InvOf(db);
    RepaymentFacts(db, a);
    ShownApplication(db, a);
    PayKeeps(db, a);
    if PayCommit(db, a).Wrote? {
      PaidTables(db, a);
      MoveChained(db, a, Repaid);
      StaysReflexive(db);
    }
  }

  // Settlements

  lemma ClosedFits(db: Db, ids: seq<Id>)
    requires StatusFits(db.applications, db.disbursals, db.repayments)
    requires RepaymentPerPayout(db.disbursals, db.repayments)
    requires forall a :: a in ids ==> a in db.repayments
    ensures StatusFits(SetStatuses(db.applications, ids, Repaid), db.disbursals, MarkRepaymentsPaid(db.repayments, ids))
    ensures RepaidStays(db.repayments, MarkRepaymentsPaid(db.repayments, ids))
  {
    forall a | a in ids
      ensures PaidOut(db.disbursals, a)
    {
    }
  }

  lemma ClosedSettled(db: Db, key: SettlementKey, ids: seq<Id>)
    requires Settled(db.settlements, db.lineItems, db.repayments) && LineItemAmounts(db.lineItems, db.repayments)
    requires key in db.settlements && IsListing(ids, ItemsOf(db, key))
    ensures var settlements := db.settlements[key := db.settlements[key].(status := SettlementPaid, outstanding := 0)];
            && Settled(settlements, db.lineItems, MarkRepaymentsPaid(db.repayments, ids))
            && SettledStays(db.settlements, settlements)
  {
    forall r | r in db.lineItems && db.lineItems[r].settlement == key
      ensures r in ids
    {
      assert r in ItemsOf(db, key);
    }
  }

  lemma ItemFacts(db: Db, key: SettlementKey, ids: seq<Id>)
    requires SerialInv(db) && IsListing(ids, ItemsOf(db, key))
    ensures StatusFits(db.applications, db.disbursals, db.repayments)
    ensures RepaymentPerPayout(db.disbursals, db.repayments)
    ensures Settled(db.settlements, db.lineItems, db.repayments) && LineItemAmounts(db.lineItems, db.repayments)
    ensures Chained(db.history) && Edges(db.history)
    ensures forall a :: a in ids ==>
              a in db.repayments && a in db.applications
              && Newest(db.history, a) == Some(db.applications[a].status)
              && Edge(Some(db.applications[a].status), Repaid)
  {
    forall a | a in ids
      ensures a in db.repayments && a in db.applications
              && Newest(db.history, a) == Some(db.applications[a].status)
              && Edge(Some(db.applications[a].status), Repaid)
    {
      assert a in ItemsOf(db, key);
    }
  }

  lemma MarkPaidSerial(db: Db, key: SettlementKey, ids: seq<Id>)
    requires SerialInv(db) && SettlementCallOk(db, MarkPaidWrite(key, ids)) && Distinct(ids)
    ensures SerialStepOk(db, MarkPaidCommit(db, key, ids))
  {
    hide Inv, Grows, CallOk, StatusFits, Settled, Chained, Edges, RepaidStays, SettledStays, RepaymentPerPayout,
         LineItemAmounts;
    InvOf(db);
    ItemFacts(db, key, ids);
    MarkPaidKeeps(db, key, ids);
    if MarkPaidCommit(db, key, ids).Wrote? {
      ClosedFits(db, ids);
      ClosedSettled(db, key, ids);
      ChainedEntries(db.history, ids, db.applications, Repaid);
    }
  }

  lemma RecoverySettled(db: Db, key: SettlementKey, ids: seq<Id>, rows: seq<Repayment>, dueDate: Instant)
    requires Settled(db.settlements, db.lineItems, db.repayments) && LineItemsBelong(db.lineItems, db.settlements)
    requires |ids| == |rows| && Distinct(ids) && key !in db.settlements && forall r :: r in ids ==> r !in db.lineItems
    ensures var settlements := db.settlements[key := NewSettlement(rows, dueDate)];
            && Settled(settlements, AddLineItems(db.lineItems, key, ids, rows), db.repayments)
            && SettledStays(db.settlements, settlements)
  {
    AddLineItemsMeaning(db.lineItems, key, ids, rows);
    var items := AddLineItems(db.lineItems, key, ids, rows);
    forall r | r in items && r !in db.lineItems
      ensures items[r].settlement == key
    {
      var i :| 0 <= i < |ids| && ids[i] == r;
    }
  }

  lemma RecoverySerial(db: Db, key: SettlementKey, ids: seq<Id>, rows: seq<Repayment>, dueDate: Instant)
    requires SerialInv(db) && PayrollCallOk(db, ProcessRecoveryWrite(key, ids, rows, dueDate))
    ensures SerialStepOk(db, ProcessRecoveryCommit(db, key, ids, rows, dueDate))
  {
    InvOf(db);
    assert LineItemsBelong(db.lineItems, db.settlements);
    hide Inv, Grows, Fresh, CallOk, StatusFits, Settled, Chained, Edges, RepaidStays, SettledStays, LineItemsBelong;
    ProcessRecoveryKeeps(db, key, ids, rows, dueDate);
    if ProcessRecoveryCommit(db, key, ids, rows, dueDate).Wrote? {
      RecoverySettled(db, key, ids, rows, dueDate);
      StaysReflexive(db);
    }
  }

  /** Marking settlements overdue that are not paid. */
  lemma OverdueSettled(db: Db, settlements: map<SettlementKey, Settlement>)
    requires Settled(db.settlements, db.lineItems, db.repayments) && settlements.Keys == db.settlements.Keys
    requires forall k :: k in settlements ==>
      settlements[k] == db.settlements[k]
      || (db.settlements[k].status != SettlementPaid
          && settlements[k] == db.settlements[k].(status := SettlementOverdue))
    ensures Settled(settlements, db.lineItems, db.repayments) && SettledStays(db.settlements, settlements)
  {
  }

  lemma RiskOverdueSerial(db: Db, key: SettlementKey)
    requires SerialInv(db) && (key in db.settlements ==> db.settlements[key].status != SettlementPaid)
    ensures SerialStepOk(db, RiskOverdueCommit(db, key))
  {
    hide Inv, Grows, CallOk, StatusFits, Settled, Chained, Edges, RepaidStays, SettledStays;
    InvOf(db);
    RiskOverdueKeeps(db, key);
    if key in db.settlements {
      OverdueSettled(db, RiskOverdueCommit(db, key).db.settlements);
      StaysReflexive(db);
    }
  }

  lemma SettlementsOverdueSerial(db: Db, late: set<SettlementKey>)
    requires SerialInv(db)
    requires forall k :: k in late ==> k in db.settlements && db.settlements[k].status != SettlementPaid
    ensures SerialStepOk(db, SettlementsOverdueCommit(db, late))
  {
    hide Inv, Grows, Fresh, CallOk, StatusFits, Settled, Chained, Edges, RepaidStays, SettledStays;
    InvOf(db);
    SettlementsOverdueKeeps(db, late);
    OverdueSettled(db, SettlementsOverdueCommit(db, late).db.settlements);
    StaysReflexive(db);
  }

  // Jobs

  lemma OverdueFits(db: Db, overdue: set<Id>)
    requires StatusFits(db.applications, db.disbursals, db.repayments)
    requires Settled(db.settlements, db.lineItems, db.repayments)
    requires forall r :: r in overdue ==> r in db.repayments && db.repayments[r].status == Scheduled
    ensures var repayments := RepaymentsOverdueCommit(db, overdue).db.repayments;
            && StatusFits(db.applications, db.disbursals, repayments)
            && Settled(db.settlements, db.lineItems, repayments)
            && RepaidStays(db.repayments, repayments)
  {
  }

  lemma RepaymentsOverdueSerial(db: Db, overdue: set<Id>)
    requires SerialInv(db) && forall r :: r in overdue ==> r in db.repayments && db.repayments[r].status == Scheduled
    ensures SerialStepOk(db, RepaymentsOverdueCommit(db, overdue))
  {
    hide Inv, Grows, Fresh, CallOk, StatusFits, Settled, Chained, Edges, RepaidStays, SettledStays;
    InvOf(db);
    RepaymentsOverdueKeeps(db, overdue);
    OverdueFits(db, overdue);
    StaysReflexive(db);
  }

  lemma ExpiredFits(db: Db, ids: seq<Id>)
    requires StatusFits(db.applications, db.disbursals, db.repayments)
    requires forall a :: a in ids ==> a in db.applications && db.applications[a].status == Submitted
    ensures StatusFits(SetStatuses(db.applications, ids, Expired), db.disbursals, db.repayments)
  {
  }

  lemma TipFacts(db: Db)
    requires SerialInv(db)
    ensures forall a :: a in db.applications ==> Newest(db.history, a) == Some(db.applications[a].status)
  {
  }

  lemma ExpireSerial(db: Db, ids: seq<Id>)
    requires SerialInv(db) && Distinct(ids)
    requires forall a :: a in ids ==> a in db.applications && db.applications[a].status == Submitted
    ensures SerialStepOk(db, ExpireStaleCommit(db, ids))
  {
    hide Inv, Grows, Fresh, CallOk, StatusFits, Settled, Chained, Edges, RepaidStays, SettledStays;
    InvOf(db);
    TipFacts(db);
    ExpireKeeps(db, ids);
    ExpiredFits(db, ids);
    ExpiredEntriesAreEntries(ids, db.applications);
    ChainedEntries(db.history, ids, db.applications, Expired);
    StaysReflexive(db);
  }
}
