/** Every atomic step keeps the invariant and takes nothing back. */
module LedgerSteps {
  import opened Wrappers
  import opened Tables
  import opened Steps
  import opened Sums
  import opened LedgerInvariant
  import Pricing
  import PricingLaws

  // Writes, one table at a time

  lemma MovedTip(db: Db, a: Id, previous: Option<Status>, next: Status)
    requires HistoryTip(db.applications, db.history) && a in db.applications
    ensures HistoryTip(Move(db, a, previous, next).applications, Move(db, a, previous, next).history)
  {
    forall b | b in db.applications
      ensures Newest(db.history + [Entry(a, previous, next)], b) == if b == a then Some(next) else Newest(db.history, b)
    {
      NewestAppend(db.history, Entry(a, previous, next), b);
    }
  }

  lemma MovedApplications(db: Db, a: Id, next: Status)
    requires OneActiveAdvance(db.applications) && FeeBeforeApproval(db.applications, db.fees)
    requires ApprovedAmounts(db.applications) && NeverDisbursed(db.applications)
    requires a in db.applications && IndexAllows(db, a, next)
    requires next != Disbursed && (NeedsClearedFee(next) ==> Cleared(db.fees, a))
    ensures var moved := db.applications[a := db.applications[a].(status := next)];
            && OneActiveAdvance(moved) && FeeBeforeApproval(moved, db.fees)
            && ApprovedAmounts(moved) && NeverDisbursed(moved)
            && ApplicationsGrow(db.applications, moved)
  {
  }

  lemma MoveKeeps(db: Db, a: Id, previous: Option<Status>, next: Status)
    requires Inv(db)
    requires a in db.applications && IndexAllows(db, a, next)
    requires next != Disbursed && (NeedsClearedFee(next) ==> Cleared(db.fees, a))
    ensures Inv(Move(db, a, previous, next)) && Grows(db, Move(db, a, previous, next))
  {
    hide HistoryTip, OneActiveAdvance, FeeBeforeApproval, ApprovedAmounts, NeverDisbursed, DisbursedAmounts,
         RepaymentAmounts;
    MovedTip(db, a, previous, next);
    MovedApplications(db, a, next);
    ApplicationsGrowKeeps(db, Move(db, a, previous, next).applications);
  }

  lemma InsertedTip(applications: map<Id, Application>, history: seq<Entry>, a: Id, row: Application)
    requires HistoryTip(applications, history) && a !in applications
    ensures HistoryTip(applications[a := row], history + [Entry(a, None, row.status)])
  {
    forall b | b in applications[a := row]
      ensures Newest(history + [Entry(a, None, row.status)], b) == Some(applications[a := row][b].status)
    {
      NewestAppend(history, Entry(a, None, row.status), b);
    }
  }

  lemma InsertedAlone(db: Db, a: Id, row: Application)
    requires OneActiveAdvance(db.applications) && a !in db.applications && ActiveOf(db, row.employee) == {}
    ensures OneActiveAdvance(db.applications[a := row])
  {
    forall b | b in db.applications && IsActive(db.applications[b].status)
      ensures db.applications[b].employee != row.employee
    {
      assert b !in ActiveOf(db, row.employee);
    }
  }

  /** Clauses that speak of applications only to find rows or frozen columns. */
  lemma ApplicationsGrowKeeps(db: Db, applications: map<Id, Application>)
    requires Inv(db) && ApplicationsGrow(db.applications, applications)
    ensures Within(db.fees, applications) && HistoryBelongs(db.history, applications)
    ensures DisbursedAmounts(db.disbursals, applications)
    ensures RepaymentAmounts(db.repayments, applications)
  {
  }

  lemma InsertApplicationKeeps(db: Db, a: Id, row: Application)
    requires Inv(db)
    requires a !in db.applications && ActiveOf(db, row.employee) == {}
    requires row.status == Submitted && row.employerApproved == None && row.adminApproved == None
    ensures var db' := db.(applications := db.applications[a := row],
                           history := db.history + [Entry(a, None, Submitted)]);
            Inv(db') && Grows(db, db')
  {
    hide OrdersBelong, EventsBelong, FeeBeforeDisbursal, RepaymentPerPayout, LineItemAmounts, LineItemsBelong,
         CapturedOrdersCleared, CaptureEvents, SettlementTotals, DisbursedAmounts, RepaymentAmounts;
    InsertedTip(db.applications, db.history, a, row);
    InsertedAlone(db, a, row);
    ApplicationsGrowKeeps(db, db.applications[a := row]);
  }

  lemma ApproveAmountKeeps(db: Db, a: Id, row: Application)
    requires Inv(db)
    requires a in db.applications && SameApplication(db.applications[a], row) && row.status == db.applications[a].status
    requires ApplicationAmounts(row)
    ensures var db' := db.(applications := db.applications[a := row]); Inv(db') && Grows(db, db')
  {
    hide OrdersBelong, EventsBelong, FeeBeforeDisbursal, RepaymentPerPayout, LineItemAmounts, LineItemsBelong,
         CapturedOrdersCleared, CaptureEvents, SettlementTotals, DisbursedAmounts, RepaymentAmounts;
    ApplicationsGrowKeeps(db, db.applications[a := row]);
  }

  lemma FeesGrowKeeps(db: Db, fees: map<Id, Fee>)
    requires Inv(db) && FeesGrow(db.fees, fees)
    ensures OrdersBelong(db.orders, fees) && CapturedOrdersCleared(db.orders, fees)
    ensures FeeBeforeApproval(db.applications, fees) && FeeBeforeDisbursal(db.disbursals, fees)
  {
  }

  lemma InsertFeeKeeps(db: Db, a: Id, amount: Paise)
    requires Inv(db) && a in db.applications && a !in db.fees
    ensures var db' := db.(fees := db.fees[a := Fee(amount, PendingPayment)]); Inv(db') && Grows(db, db')
  {
    FeesGrowKeeps(db, db.fees[a := Fee(amount, PendingPayment)]);
  }

  lemma ClearFeeKeeps(db: Db, a: Id, status: FeeStatus)
    requires Inv(db) && a in db.fees && status in {FeePaid, FeeWaived}
    ensures var db' := db.(fees := db.fees[a := db.fees[a].(status := status)]); Inv(db') && Grows(db, db')
  {
    FeesGrowKeeps(db, db.fees[a := db.fees[a].(status := status)]);
  }

  lemma InsertOrderKeeps(db: Db, o: Id, row: Order)
    requires Inv(db) && o !in db.orders && row.fee in db.fees && row.amount == db.fees[row.fee].amount
    requires row.status == Created
    ensures var db' := db.(orders := db.orders[o := row]); Inv(db') && Grows(db, db')
  {
    hide Within, HistoryBelongs, OneActiveAdvance, FeeBeforeApproval, FeeBeforeDisbursal, RepaymentPerPayout,
         ApprovedAmounts, DisbursedAmounts, RepaymentAmounts, LineItemAmounts, LineItemsBelong, HistoryTip,
         NeverDisbursed, SettlementTotals;
  }

  lemma EventCounted(events: seq<Event>, o: Id, kind: EventType)
    ensures forall x, k :: Count(events + [Event(o, kind)], x, k)
              == Count(events, x, k) + if x == o && k == kind then 1 else 0
  {
    assert forall x, k :: Event(x, k) == Event(o, kind) <==> x == o && k == kind;
  }

  /** A failed payment may take an order out of CAPTURED, but never without an event that pays for the next capture. */
  lemma FailedEvents(orders: map<Id, Order>, events: seq<Event>, o: Id)
    requires CaptureEvents(orders, events) && o in orders
    ensures CaptureEvents(orders[o := orders[o].(status := Attempted)], events + [Event(o, PaymentFailed)])
  {
    EventCounted(events, o, PaymentFailed);
  }

  lemma CapturedEvents(orders: map<Id, Order>, events: seq<Event>, o: Id)
    requires CaptureEvents(orders, events) && o in orders && orders[o].status != Captured
    ensures CaptureEvents(orders[o := orders[o].(status := Captured)], events + [Event(o, PaymentCaptured)])
  {
    EventCounted(events, o, PaymentCaptured);
  }

  lemma FailOrderKeeps(db: Db, o: Id)
    requires Inv(db) && o in db.orders
    ensures var o' := FailPaymentCommit(db, o); Inv(o'.db) && Grows(db, o'.db)
  {
    hide Within, HistoryBelongs, OneActiveAdvance, FeeBeforeApproval, FeeBeforeDisbursal, RepaymentPerPayout,
         ApprovedAmounts, DisbursedAmounts, RepaymentAmounts, LineItemAmounts, LineItemsBelong, HistoryTip,
         NeverDisbursed, CaptureEvents, SettlementTotals;
    FailedEvents(db.orders, db.events, o);
  }

  lemma CaptureOrderKeeps(db: Db, o: Id)
    requires Inv(db) && o in db.orders && db.orders[o].status != Captured && Cleared(db.fees, db.orders[o].fee)
    ensures var db' := db.(orders := db.orders[o := db.orders[o].(status := Captured)],
                           events := db.events + [Event(o, PaymentCaptured)]);
            Inv(db') && Grows(db, db')
  {
    hide Within, HistoryBelongs, OneActiveAdvance, FeeBeforeApproval, FeeBeforeDisbursal, RepaymentPerPayout,
         ApprovedAmounts, DisbursedAmounts, RepaymentAmounts, LineItemAmounts, LineItemsBelong, HistoryTip,
         NeverDisbursed, CaptureEvents, SettlementTotals;
    CapturedEvents(db.orders, db.events, o);
  }

  lemma InsertDisbursalKeeps(db: Db, a: Id, row: Disbursal)
    requires Inv(db) && a in db.applications && a !in db.disbursals && Cleared(db.fees, a)
    requires DisbursalAmounts(row, db.applications[a].requested) && row.status == Pending
    ensures var db' := db.(disbursals := db.disbursals[a := row]); Inv(db') && Grows(db, db')
  {
    hide Within, OrdersBelong, HistoryBelongs, EventsBelong, OneActiveAdvance, FeeBeforeApproval,
         ApprovedAmounts, RepaymentAmounts, LineItemAmounts, LineItemsBelong, HistoryTip, NeverDisbursed,
         CapturedOrdersCleared, CaptureEvents, SettlementTotals;
  }

  lemma PayOutDisbursals(db: Db, a: Id, d: Disbursal, r: Repayment)
    requires RepaymentPerPayout(db.disbursals, db.repayments) && FeeBeforeDisbursal(db.disbursals, db.fees)
    requires DisbursedAmounts(db.disbursals, db.applications)
    requires a in db.disbursals && d.status == Success && Cleared(db.fees, a)
    requires a in db.applications && DisbursalAmounts(d, db.applications[a].requested)
    ensures RepaymentPerPayout(db.disbursals[a := d], db.repayments[a := r])
    ensures FeeBeforeDisbursal(db.disbursals[a := d], db.fees)
    ensures DisbursedAmounts(db.disbursals[a := d], db.applications)
    ensures DisbursalsGrow(db.disbursals, db.disbursals[a := d])
  {
    var disbursals, repayments := db.disbursals[a := d], db.repayments[a := r];
    forall b: Id
      ensures b in repayments <==> PaidOut(disbursals, b)
    {
      assert b != a ==> (PaidOut(disbursals, b) <==> PaidOut(db.disbursals, b));
    }
  }

  lemma PayOutRepayments(db: Db, a: Id, r: Repayment)
    requires RepaymentAmounts(db.repayments, db.applications)
    requires LineItemAmounts(db.lineItems, db.repayments)
    requires a !in db.repayments && a in db.applications
    requires r.principal == db.applications[a].requested && Balanced(r.principal, r.amounts)
    ensures RepaymentAmounts(db.repayments[a := r], db.applications)
    ensures LineItemAmounts(db.lineItems, db.repayments[a := r])
    ensures RepaymentsGrow(db.repayments, db.repayments[a := r])
  {
  }

  lemma PayOutKeeps(db: Db, a: Id, amount: Paise, row: Repayment)
    requires Inv(db) && Cleared(db.fees, a) && a in db.disbursals && db.disbursals[a].status == Pending
    requires amount == row.principal == db.applications[a].requested && Balanced(amount, row.amounts)
    ensures var db' := db.(disbursals := db.disbursals[a :=
                                                db.disbursals[a].(status := Success, disbursed := Some(amount))],
                           repayments := db.repayments[a := row]);
            Inv(db') && Grows(db, db')
  {
    assert !PaidOut(db.disbursals, a);
    PayOutDisbursals(db, a, db.disbursals[a].(status := Success, disbursed := Some(amount)), row);
    PayOutRepayments(db, a, row);
  }

  /** Repayments that change in nothing but their status. */
  lemma RepaymentStatusKeeps(db: Db, repayments: map<Id, Repayment>)
    requires Inv(db) && repayments.Keys == db.repayments.Keys
    requires forall r :: r in repayments ==> repayments[r].(status := db.repayments[r].status) == db.repayments[r]
    ensures var db' := db.(repayments := repayments); Inv(db') && Grows(db, db')
  {
  }

  /** Settlements that change in nothing but status and outstanding amount. */
  lemma SettlementStatusKeeps(db: Db, settlements: map<SettlementKey, Settlement>)
    requires Inv(db) && settlements.Keys == db.settlements.Keys
    requires forall k :: k in settlements ==>
      settlements[k].(status := db.settlements[k].status, outstanding := db.settlements[k].outstanding)
      == db.settlements[k]
    ensures var db' := db.(settlements := settlements); Inv(db') && Grows(db, db')
  {
    hide OrdersBelong, HistoryBelongs, EventsBelong, OneActiveAdvance, FeeBeforeApproval, FeeBeforeDisbursal,
         RepaymentPerPayout, ApprovedAmounts, DisbursedAmounts, RepaymentAmounts, LineItemAmounts, HistoryTip,
         NeverDisbursed, CapturedOrdersCleared, CaptureEvents, Sum, ItemColumn;
    assert forall k, part :: k in settlements ==>
               SettlementPart(settlements[k], part) == SettlementPart(db.settlements[k], part);
  }

  lemma RiskKeeps(db: Db, risk: map<Id, Risk>)
    requires Inv(db)
    ensures Inv(db.(risk := risk)) && Grows(db, db.(risk := risk))
  {
  }

  // Writes of several applications at once

  lemma {:induction false} NewestConcat(history: seq<Entry>, more: seq<Entry>, s: Status, a: Id)
    requires forall e :: e in more ==> e.next == s
    ensures Newest(history + more, a)
         == if exists e :: e in more && e.application == a then Some(s) else Newest(history, a)
    decreases |more|
  {
    if more == [] {
      assert history + more == history;
    } else {
      var init, last := more[..|more| - 1], more[|more| - 1];
      assert history + more == (history + init) + [last];
      assert forall e :: e in more <==> e in init || e == last;
      NewestAppend(history + init, last, a);
      NewestConcat(history, init, s, a);
    }
  }

  lemma {:induction false} EntriesMeaning(ids: seq<Id>, applications: map<Id, Application>, next: Status)
    ensures forall e :: e in Entries(ids, applications, next) ==>
              e.application in ids && e.application in applications && e.next == next
              && e.previous == Some(applications[e.application].status)
    ensures forall a :: a in ids && a in applications ==>
              Entry(a, Some(applications[a].status), next) in Entries(ids, applications, next)
    decreases |ids|
  {
    if ids != [] {
      EntriesMeaning(ids[..|ids| - 1], applications, next);
      assert forall a :: a in ids <==> a in ids[..|ids| - 1] || a == ids[|ids| - 1];
    }
  }

  lemma BulkTip(applications: map<Id, Application>, history: seq<Entry>, ids: seq<Id>, more: seq<Entry>, next: Status)
    requires HistoryTip(applications, history)
    requires forall e :: e in more ==> e.application in ids && e.next == next
    requires forall a :: a in ids && a in applications ==> exists e :: e in more && e.application == a
    ensures HistoryTip(SetStatuses(applications, ids, next), history + more)
  {
    forall a | a in applications
      ensures Newest(history + more, a) == Some(SetStatuses(applications, ids, next)[a].status)
    {
      NewestConcat(history, more, next, a);
    }
  }

  lemma BulkFinal(applications: map<Id, Application>, fees: map<Id, Fee>, ids: seq<Id>, next: Status)
    requires OneActiveAdvance(applications) && FeeBeforeApproval(applications, fees)
    requires ApprovedAmounts(applications) && NeverDisbursed(applications)
    requires next in {Repaid, Expired}
    requires next == Repaid ==> forall a :: a in ids && a in applications ==> Cleared(fees, a)
    ensures var applications' := SetStatuses(applications, ids, next);
            && OneActiveAdvance(applications') && FeeBeforeApproval(applications', fees)
            && ApprovedAmounts(applications') && NeverDisbursed(applications')
            && ApplicationsGrow(applications, applications')
  {
  }

  lemma BulkStatusKeeps(db: Db, ids: seq<Id>, more: seq<Entry>, next: Status)
    requires Inv(db)
    requires next in {Repaid, Expired}
    requires next == Repaid ==> forall a :: a in ids && a in db.applications ==> Cleared(db.fees, a)
    requires forall e :: e in more ==> e.application in ids && e.application in db.applications && e.next == next
    requires forall a :: a in ids && a in db.applications ==> exists e :: e in more && e.application == a
    ensures var db' := db.(applications := SetStatuses(db.applications, ids, next), history := db.history + more);
            Inv(db') && Grows(db, db')
  {
    BulkTip(db.applications, db.history, ids, more, next);
    BulkFinal(db.applications, db.fees, ids, next);
    ApplicationsGrowKeeps(db, SetStatuses(db.applications, ids, next));
  }

  // A new settlement and its line items

  lemma {:induction false} AddLineItemsMeaning(items: map<Id, LineItem>, key: SettlementKey, ids: seq<Id>,
                                               rows: seq<Repayment>)
    requires |ids| == |rows| && Distinct(ids)
    ensures var items' := AddLineItems(items, key, ids, rows);
            && items'.Keys == items.Keys + (set r | r in ids)
            && (forall i :: 0 <= i < |ids| ==> items'[ids[i]] == NewLineItem(key, ids[i], rows[i]))
            && (forall r :: r in items && r !in ids ==> items'[r] == items[r])
    decreases |ids|
  {
    hide NewLineItem;
    if ids != [] {
      var last := |ids| - 1;
      AddLineItemsMeaning(items, key, ids[..last], rows[..last]);
      assert forall r :: r in ids <==> r in ids[..last] || r == ids[last];
    }
  }

  /** Every column of a new settlement is the sum of its line items' column; the total because each repayment is
      balanced. */
  lemma {:induction false} NewSettlementTotal(items: map<Id, LineItem>, key: SettlementKey, ids: seq<Id>,
                                              rows: seq<Repayment>,
                                              dueDate: Instant, part: Part)
    requires |ids| == |rows| && Distinct(ids)
    requires forall r :: r in items ==> items[r].settlement != key && r !in ids
    requires forall i :: 0 <= i < |rows| ==> Balanced(rows[i].principal, rows[i].amounts)
    ensures SettlementPart(NewSettlement(rows, dueDate), part)
         == Sum(ItemColumn(AddLineItems(items, key, ids, rows), key, part))
    decreases |ids|
  {
    hide NewSettlement, NewLineItem, SettlementPart, ItemPart;
    if ids == [] {
      assert ItemColumn(items, key, part) == map[];
      NoRows(dueDate, part);
    } else {
      var last := |ids| - 1;
      NewSettlementTotal(items, key, ids[..last], rows[..last], dueDate, part);
      LastItem(items, key, ids, rows, part);
      LastRow(rows, key, ids[last], dueDate, part);
    }
  }

  lemma NoRows(dueDate: Instant, part: Part)
    ensures SettlementPart(NewSettlement([], dueDate), part) == 0
  {
  }

  lemma LastRow(rows: seq<Repayment>, key: SettlementKey, id: Id, dueDate: Instant, part: Part)
    requires |rows| > 0 && Balanced(rows[|rows| - 1].principal, rows[|rows| - 1].amounts)
    ensures SettlementPart(NewSettlement(rows, dueDate), part)
         == SettlementPart(NewSettlement(rows[..|rows| - 1], dueDate), part)
            + ItemPart(NewLineItem(key, id, rows[|rows| - 1]), part)
  {
  }

  lemma LastItem(items: map<Id, LineItem>, key: SettlementKey, ids: seq<Id>, rows: seq<Repayment>, part: Part)
    requires |ids| == |rows| > 0 && Distinct(ids)
    requires forall r :: r in items ==> items[r].settlement != key && r !in ids
    ensures var last := |ids| - 1;
            Sum(ItemColumn(AddLineItems(items, key, ids, rows), key, part))
            == Sum(ItemColumn(AddLineItems(items, key, ids[..last], rows[..last]), key, part))
               + ItemPart(NewLineItem(key, ids[last], rows[last]), part)
  {
    hide Sum, ItemColumn, ItemPart;
    var last := |ids| - 1;
    AddLineItemsMeaning(items, key, ids[..last], rows[..last]);
    var before := AddLineItems(items, key, ids[..last], rows[..last]);
    assert ids[last] !in ids[..last];
    ItemAdded(before, key, ids[last], NewLineItem(key, ids[last], rows[last]), part);
    SumInsert(ItemColumn(before, key, part), ids[last], ItemPart(NewLineItem(key, ids[last], rows[last]), part));
  }

  lemma ItemAdded(items: map<Id, LineItem>, key: SettlementKey, r: Id, item: LineItem, part: Part)
    requires r !in items && item.settlement == key
    ensures ItemColumn(items[r := item], key, part) == ItemColumn(items, key, part)[r := ItemPart(item, part)]
    ensures r !in ItemColumn(items, key, part)
  {
  }

  lemma RecoveredItems(db: Db, key: SettlementKey, ids: seq<Id>, rows: seq<Repayment>, items: map<Id, LineItem>)
    requires |ids| == |rows| && Distinct(ids) && items == AddLineItems(db.lineItems, key, ids, rows)
    requires key !in db.settlements && forall r :: r in ids ==> r !in db.lineItems
    requires forall i :: 0 <= i < |ids| ==>
      ids[i] in db.repayments && db.repayments[ids[i]].(status := rows[i].status) == rows[i]
    requires LineItemAmounts(db.lineItems, db.repayments) && LineItemsBelong(db.lineItems, db.settlements)
    ensures LineItemAmounts(items, db.repayments)
    ensures forall r :: r in items ==> items[r].settlement == key || items[r].settlement in db.settlements
    ensures LineItemsGrow(db.lineItems, items, db.settlements)
  {
    AddLineItemsMeaning(db.lineItems, key, ids, rows);
    forall r | r in items && r !in db.lineItems
      ensures r in db.repayments && items[r] == NewLineItem(key, r, db.repayments[r])
    {
      var i :| 0 <= i < |ids| && ids[i] == r;
    }
  }

  lemma OtherItems(items: map<Id, LineItem>, key: SettlementKey, ids: seq<Id>, rows: seq<Repayment>, k: SettlementKey,
                   part: Part)
    requires |ids| == |rows| && Distinct(ids) && k != key
    requires forall r :: r in ids ==> r !in items
    ensures ItemColumn(AddLineItems(items, key, ids, rows), k, part) == ItemColumn(items, k, part)
  {
    hide ItemPart;
    AddLineItemsMeaning(items, key, ids, rows);
    var items' := AddLineItems(items, key, ids, rows);
    forall r | r in items' && r !in items
      ensures items'[r].settlement == key
    {
      var i :| 0 <= i < |ids| && ids[i] == r;
    }
  }

  lemma RecoveredTotals(db: Db, key: SettlementKey, ids: seq<Id>, rows: seq<Repayment>, dueDate: Instant,
                        items: map<Id, LineItem>)
    requires |ids| == |rows| && Distinct(ids) && items == AddLineItems(db.lineItems, key, ids, rows)
    requires key !in db.settlements && forall r :: r in ids ==> r !in db.lineItems
    requires LineItemsBelong(db.lineItems, db.settlements) && SettlementTotals(db.settlements, db.lineItems)
    requires forall i :: 0 <= i < |rows| ==> Balanced(rows[i].principal, rows[i].amounts)
    ensures SettlementTotals(db.settlements[key := NewSettlement(rows, dueDate)], items)
  {
    hide Sum, ItemColumn, SettlementPart, NewSettlement, AddLineItems;
    forall part {
      NewSettlementTotal(db.lineItems, key, ids, rows, dueDate, part);
    }
    forall k, part | k in db.settlements
      ensures SettlementPart(db.settlements[k], part) == Sum(ItemColumn(items, k, part))
    {
      OtherItems(db.lineItems, key, ids, rows, k, part);
    }
  }

  lemma RecoveryKeeps(db: Db, key: SettlementKey, ids: seq<Id>, rows: seq<Repayment>, dueDate: Instant)
    requires Inv(db) && PayrollCallOk(db, ProcessRecoveryWrite(key, ids, rows, dueDate))
    requires ProcessRecoveryCommit(db, key, ids, rows, dueDate).Wrote?
    ensures var db' := ProcessRecoveryCommit(db, key, ids, rows, dueDate).db; Inv(db') && Grows(db, db')
  {
    hide OrdersBelong, HistoryBelongs, EventsBelong, OneActiveAdvance, FeeBeforeApproval, FeeBeforeDisbursal,
         RepaymentPerPayout, ApprovedAmounts, DisbursedAmounts, HistoryTip, NeverDisbursed, CapturedOrdersCleared,
         CaptureEvents, NewSettlement;
    var items := AddLineItems(db.lineItems, key, ids, rows);
    RecoveredItems(db, key, ids, rows, items);
    RecoveredTotals(db, key, ids, rows, dueDate, items);
  }

  // The steps

  /** What one step of a call owes to every other call. */
  ghost predicate StepOk(db: Db, o: Outcome) {
    match o
    case Read(next) => CallOk(db, next)
    case Wrote(db', rest) => Inv(db') && Grows(db, db') && (rest.Some? ==> CallOk(db', rest.value))
    case Returned => true
    case Threw => true
  }

  lemma StatusWriteKeeps(db: Db, a: Id, previous: Status, next: Status)
    requires Inv(db) && next != Disbursed && (NeedsClearedFee(next) ==> Cleared(db.fees, a))
    ensures StepOk(db, StatusWrite(db, a, previous, next))
  {
    if a in db.applications && IndexAllows(db, a, next) {
      MoveKeeps(db, a, Some(previous), next);
    }
  }

  /** A status write after an earlier write of the same transaction. */
  lemma ThenStatusWriteKeeps(db: Db, db1: Db, a: Id, previous: Status, next: Status)
    requires Inv(db) && Inv(db1) && Grows(db, db1) && next != Disbursed
    requires NeedsClearedFee(next) ==> Cleared(db1.fees, a)
    ensures StepOk(db, StatusWrite(db1, a, previous, next))
  {
    StatusWriteKeeps(db1, a, previous, next);
    if StatusWrite(db1, a, previous, next).Wrote? {
      GrowsTransitive(db, db1, StatusWrite(db1, a, previous, next).db);
    }
  }

  lemma EmployerApproveKeeps(db: Db, a: Id, seen: Application, feeAmount: Option<Paise>)
    requires Inv(db) && Seen(db.applications, a, seen)
    ensures StepOk(db, EmployerApproveCommit(db, a, seen, feeAmount))
  {
    hide Inv, Grows;
    if IndexAllows(db, a, AwaitingPlatformFee) {
      MoveKeeps(db, a, Some(Submitted), AwaitingPlatformFee);
      var db1 := Move(db, a, Some(Submitted), AwaitingPlatformFee);
      var row := db1.applications[a].(employerApproved := Some(seen.requested));
      RowsSeen(db1, a);
      ApproveAmountKeeps(db1, a, row);
      var db2 := db1.(applications := db1.applications[a := row]);
      GrowsTransitive(db, db1, db2);
      if a !in db2.fees && feeAmount.Some? {
        InsertFeeKeeps(db2, a, feeAmount.value);
        GrowsTransitive(db, db2, EnsureFeeForApplication(db2, a, feeAmount).db);
      }
    }
  }

  lemma AdminApproveKeeps(db: Db, a: Id, seen: Application)
    requires Inv(db) && Seen(db.applications, a, seen) && Cleared(db.fees, a)
    ensures StepOk(db, AdminApproveCommit(db, a, seen))
  {
    hide Inv, Grows;
    if IndexAllows(db, a, ReadyForDisbursal) {
      MoveKeeps(db, a, Some(EmployerApproved), ReadyForDisbursal);
      var db1 := Move(db, a, Some(EmployerApproved), ReadyForDisbursal);
      var row := db1.applications[a].(adminApproved := Some(seen.employerApproved.GetOr(seen.requested)));
      RowsSeen(db1, a);
      ApproveAmountKeeps(db1, a, row);
      GrowsTransitive(db, db1, db1.(applications := db1.applications[a := row]));
    }
  }

  lemma WaiveKeeps(db: Db, a: Id, seen: Application)
    requires Inv(db)
    ensures StepOk(db, WaiveCommit(db, a, seen))
  {
    hide Inv, Grows;
    if a in db.fees {
      ClearFeeKeeps(db, a, FeeWaived);
      var db1 := db.(fees := db.fees[a := db.fees[a].(status := FeeWaived)]);
      ThenStatusWriteKeeps(db, db1, a, seen.status, EmployerApproved);
    }
  }

  lemma CapturedMeansCleared(db: Db, o: Id)
    requires Inv(db) && o in db.orders
    ensures db.orders[o].fee in db.fees
    ensures db.orders[o].status == Captured ==> Cleared(db.fees, db.orders[o].fee)
  {
  }

  /** The order and fee writes of a capture, before the application moves. */
  function CapturedTables(db: Db, o: Id, a: Id): Db
    requires o in db.orders
  {
    var fees := if Finalizes(db.fees, a) then db.fees[a := db.fees[a].(status := FeePaid)] else db.fees;
    db.(orders := db.orders[o := db.orders[o].(status := Captured)], fees := fees,
        events := if db.orders[o].status != Captured || Finalizes(db.fees, a)
                  then db.events + [Event(o, PaymentCaptured)]
                  else db.events)
  }

  lemma CaptureIs(db: Db, o: Id, a: Id)
    requires o in db.orders
    ensures CaptureCommit(db, o, a)
         == if Finalizes(db.fees, a) && a in db.applications && db.applications[a].status == AwaitingPlatformFee
            then StatusWrite(CapturedTables(db, o, a), a, AwaitingPlatformFee, EmployerApproved)
            else Wrote(CapturedTables(db, o, a), None)
  {
    hide StatusWrite;
  }

  lemma CapturedTablesKeep(db: Db, o: Id, a: Id)
    requires Inv(db) && o in db.orders && db.orders[o].fee == a
    ensures Inv(CapturedTables(db, o, a)) && Grows(db, CapturedTables(db, o, a))
    ensures Cleared(CapturedTables(db, o, a).fees, a)
  {
    hide Inv, Grows;
    CapturedMeansCleared(db, o);
    if db.orders[o].status == Captured {
      assert db.orders[o := db.orders[o].(status := Captured)] == db.orders;
      GrowsReflexive(db);
    } else if Cleared(db.fees, a) {
      CaptureOrderKeeps(db, o);
    } else {
      ClearFeeKeeps(db, a, FeePaid);
      var db1 := db.(fees := db.fees[a := db.fees[a].(status := FeePaid)]);
      CaptureOrderKeeps(db1, o);
      GrowsTransitive(db, db1, CapturedTables(db, o, a));
    }
  }

  lemma CaptureKeeps(db: Db, o: Id, a: Id)
    requires Inv(db) && o in db.orders && db.orders[o].fee == a
    ensures StepOk(db, CaptureCommit(db, o, a))
  {
    hide Inv, Grows, CallOk, CaptureCommit, CapturedTables, StatusWrite;
    CaptureIs(db, o, a);
    CapturedTablesKeep(db, o, a);
    ThenStatusWriteKeeps(db, CapturedTables(db, o, a), a, AwaitingPlatformFee, EmployerApproved);
  }

  lemma DisburseKeeps(db: Db, a: Id, amount: Paise, amounts: Breakdown, seen: Application)
    requires Inv(db) && DisbursalCallOk(db, DisburseWrite(a, amount, amounts, seen))
    ensures StepOk(db, DisburseCommit(db, a, amount, amounts, seen))
  {
    if a in db.disbursals && db.disbursals[a].status == Pending {
      assert !PaidOut(db.disbursals, a);
      var row := Repayment(amount, amounts, seen.terms.recoveryDate, Scheduled);
      PayOutKeeps(db, a, amount, row);
      var db1 := db.(disbursals := db.disbursals[a := db.disbursals[a].(status := Success, disbursed := Some(amount))],
                     repayments := db.repayments[a := row]);
      ThenStatusWriteKeeps(db, db1, a, seen.status, RepaymentScheduled);
    }
  }

  /** A repayment belongs to an application whose advance was paid out, hence whose fee is cleared. */
  lemma RepaymentBelongs(db: Db, a: Id)
    requires Inv(db) && a in db.repayments
    ensures a in db.applications && Cleared(db.fees, a)
  {
    assert PaidOut(db.disbursals, a);
  }

  lemma PayKeeps(db: Db, a: Id)
    requires Inv(db) && a in db.repayments
    ensures StepOk(db, PayCommit(db, a))
  {
    hide Inv, Grows;
    var repayments := db.repayments[a := db.repayments[a].(status := Paid)];
    RepaymentStatusKeeps(db, repayments);
    RepaymentBelongs(db, a);
    ThenStatusWriteKeeps(db, db.(repayments := repayments), a, db.applications[a].status, Repaid);
  }

  lemma ItemsBelong(db: Db, key: SettlementKey, ids: seq<Id>)
    requires Inv(db) && IsListing(ids, ItemsOf(db, key))
    ensures forall a :: a in ids ==> a in db.repayments && a in db.applications && Cleared(db.fees, a)
  {
    forall a | a in ids
      ensures a in db.repayments && a in db.applications && Cleared(db.fees, a)
    {
      assert a in ItemsOf(db, key);
      RepaymentBelongs(db, a);
    }
  }

  /** The repayment, application and history writes of a settlement payment. */
  function CloseItems(db: Db, ids: seq<Id>): Db {
    db.(repayments := MarkRepaymentsPaid(db.repayments, ids),
        applications := SetStatuses(db.applications, ids, Repaid),
        history := db.history + Entries(ids, db.applications, Repaid))
  }

  lemma CloseItemsKeeps(db: Db, ids: seq<Id>)
    requires Inv(db) && forall a :: a in ids ==> a in db.applications && Cleared(db.fees, a)
    ensures Inv(CloseItems(db, ids)) && Grows(db, CloseItems(db, ids))
  {
    hide Inv, Grows;
    var repayments := MarkRepaymentsPaid(db.repayments, ids);
    RepaymentStatusKeeps(db, repayments);
    var db1 := db.(repayments := repayments);
    EntriesMeaning(ids, db.applications, Repaid);
    var more := Entries(ids, db.applications, Repaid);
    forall a | a in ids
      ensures exists e :: e in more && e.application == a
    {
      assert Entry(a, Some(db.applications[a].status), Repaid) in more;
    }
    BulkStatusKeeps(db1, ids, more, Repaid);
    GrowsTransitive(db, db1, CloseItems(db, ids));
  }

  lemma MarkPaidKeeps(db: Db, key: SettlementKey, ids: seq<Id>)
    requires Inv(db) && SettlementCallOk(db, MarkPaidWrite(key, ids))
    ensures StepOk(db, MarkPaidCommit(db, key, ids))
  {
    hide Inv, Grows;
    if db.settlements[key].status != SettlementPaid {
      var settlements := db.settlements[key := db.settlements[key].(status := SettlementPaid, outstanding := 0)];
      var db1 := db.(settlements := settlements);
      SettlementStatusKeeps(db, settlements);
      ItemsBelong(db, key, ids);
      CloseItemsKeeps(db1, ids);
      GrowsTransitive(db, db1, CloseItems(db1, ids));
    }
  }

  lemma ExpireKeeps(db: Db, ids: seq<Id>)
    requires Inv(db) && forall a :: a in ids ==> a in db.applications
    ensures StepOk(db, ExpireStaleCommit(db, ids))
  {
    var more := ExpiredEntries(ids);
    forall a | a in ids
      ensures exists e :: e in more && e.application == a
    {
      var i :| 0 <= i < |ids| && ids[i] == a;
      assert more[i] in more;
    }
    BulkStatusKeeps(db, ids, more, Expired);
  }

  lemma RepaymentsOverdueKeeps(db: Db, overdue: set<Id>)
    requires Inv(db)
    ensures StepOk(db, RepaymentsOverdueCommit(db, overdue))
  {
    hide Inv, Grows;
    RepaymentStatusKeeps(db, RepaymentsOverdueCommit(db, overdue).db.repayments);
  }

  lemma SettlementsOverdueKeeps(db: Db, late: set<SettlementKey>)
    requires Inv(db)
    ensures StepOk(db, SettlementsOverdueCommit(db, late))
  {
    hide Inv, Grows;
    SettlementStatusKeeps(db, SettlementsOverdueCommit(db, late).db.settlements);
  }

  lemma SubmitKeeps(db: Db, a: Id, employee: Id, employer: Id, requested: Paise, terms: Terms, now: Instant)
    requires Inv(db)
    ensures StepOk(db, SubmitCommit(db, a, employee, employer, requested, terms, now))
  {
    if a !in db.applications && ActiveOf(db, employee) == {} {
      InsertApplicationKeeps(db, a, Application(employee, employer, Submitted, requested, None, None, now, terms));
    }
  }

  lemma CreateFeeKeeps(db: Db, a: Id, amount: Paise)
    requires Inv(db)
    ensures StepOk(db, CreateFeeCommit(db, a, amount))
  {
    if a !in db.fees && a in db.applications { InsertFeeKeeps(db, a, amount); }
  }

  lemma CreateOrderKeeps(db: Db, a: Id, amount: Paise, order: Id, now: Instant)
    requires Inv(db) && a in db.fees && db.fees[a].amount == amount
    ensures StepOk(db, CreateOrderCommit(db, a, amount, order, now))
  {
    if order !in db.orders {
      InsertOrderKeeps(db, order, Order(a, amount, Created, now + 15 * 60 * 1000));
    }
  }

  lemma FailPaymentKeeps(db: Db, o: Id)
    requires Inv(db)
    ensures StepOk(db, FailPaymentCommit(db, o))
  {
    if o in db.orders { FailOrderKeeps(db, o); }
  }

  lemma CreateDisbursalKeeps(db: Db, a: Id, seen: Application)
    requires Inv(db) && Seen(db.applications, a, seen) && Cleared(db.fees, a)
    ensures StepOk(db, CreateDisbursalCommit(db, a, seen))
  {
    if a !in db.disbursals {
      var approved := seen.adminApproved.GetOr(seen.requested);
      InsertDisbursalKeeps(db, a, Disbursal(seen.requested, approved, Some(approved), Pending));
    } else {
      GrowsReflexive(db);
    }
  }

  lemma ProcessRecoveryKeeps(db: Db, key: SettlementKey, ids: seq<Id>, rows: seq<Repayment>, dueDate: Instant)
    requires Inv(db) && PayrollCallOk(db, ProcessRecoveryWrite(key, ids, rows, dueDate))
    ensures StepOk(db, ProcessRecoveryCommit(db, key, ids, rows, dueDate))
  {
    if ProcessRecoveryCommit(db, key, ids, rows, dueDate).Wrote? { RecoveryKeeps(db, key, ids, rows, dueDate); }
  }

  lemma RiskOverdueKeeps(db: Db, key: SettlementKey)
    requires Inv(db)
    ensures StepOk(db, RiskOverdueCommit(db, key))
  {
    if key in db.settlements {
      SettlementStatusKeeps(db, db.settlements[key := db.settlements[key].(status := SettlementOverdue)]);
    }
  }

  lemma RiskWriteKeeps(db: Db, employer: Id, risk: Risk)
    requires Inv(db)
    ensures StepOk(db, RiskCommit(db, employer, risk))
  {
    RiskKeeps(db, db.risk[employer := risk]);
  }

  // The reads

  lemma RowsSeen(db: Db, a: Id)
    requires Inv(db)
    ensures a in db.applications ==> Seen(db.applications, a, db.applications[a])
    ensures a in db.applications ==> SeenCleared(db.fees, a, db.applications[a])
    ensures a in db.disbursals ==>
              a in db.applications && DisbursalAmounts(db.disbursals[a], db.applications[a].requested)
  {
  }

  lemma ApplicationReadsKeep(db: Db, a: Id, caller: Id)
    requires Inv(db)
    ensures StepOk(db, EmployerApproveRead(db, a, caller)) && StepOk(db, AdminApproveRead(db, a))
    ensures StepOk(db, CreateDisbursalRead(db, a)) && StepOk(db, DisburseRead(db, a))
  {
    hide Inv;
    RowsSeen(db, a);
  }

  lemma DisburseApplicationKeeps(db: Db, a: Id, d: Disbursal)
    requires Inv(db) && a in db.applications && DisbursalAmounts(d, db.applications[a].requested)
    ensures StepOk(db, DisburseApplicationRead(db, a, d))
  {
    hide Inv;
    RowsSeen(db, a);
  }

  lemma DisburseFeeKeeps(db: Db, a: Id, d: Disbursal, seen: Application, bankVerified: bool)
    requires Seen(db.applications, a, seen) && DisbursalAmounts(d, seen.requested)
    ensures StepOk(db, DisburseFeeRead(db, a, d, seen, bankVerified))
  {
    PricingLaws.BreakdownBalances(seen.requested, Pricing.FromColumns(seen.terms));
  }

  lemma PaymentReadsKeep(db: Db, a: Id, caller: Id, o: Id, feeAmount: Option<Paise>)
    requires Inv(db)
    ensures StepOk(db, InitiatePaymentRead(db, a, caller)) && StepOk(db, EnsureFeeRead(db, a, feeAmount))
    ensures StepOk(db, CaptureRead(db, o)) && StepOk(db, WaiveRead(db, a)) && StepOk(db, PayRead(db, a))
  {
    hide Inv;
  }

  lemma MarkPaidReadKeeps(db: Db, key: SettlementKey, rows: seq<Id>)
    ensures StepOk(db, MarkPaidRead(db, key, rows))
  {
  }

  lemma ExpireReadKeeps(db: Db, env: Env)
    ensures StepOk(db, ExpireStaleRead(db, env))
  {
    if ExpireStaleRead(db, env).Read? {
      assert forall a :: a in env.rows ==> a in StaleApplications(db, env.now);
    }
  }

  lemma FindDueKeeps(db: Db, key: SettlementKey, today: Instant, rows: seq<Id>, graceDays: int)
    ensures StepOk(db, FindDueRepaymentsRead(db, key, today, rows, graceDays))
  {
    if FindDueRepaymentsRead(db, key, today, rows, graceDays).Read? {
      forall i | 0 <= i < |rows|
        ensures rows[i] in db.repayments
      {
        assert rows[i] in DueRepayments(db, key.employer, today);
      }
    }
  }

  // All calls, service by service

  lemma ApplicationStepKeeps(db: Db, c: ApplicationCall, env: Env)
    requires Inv(db) && ApplicationCallOk(db, c)
    ensures StepOk(db, ApplicationStep(db, c, env))
  {
    hide Inv, Grows, SubmitCommit, StatusWrite, EmployerApproveCommit, EmployerApproveRead, AdminApproveCommit,
         AdminApproveRead;
    match c
    case SubmitWrite(a, employee, employer, requested, terms) =>
      SubmitKeeps(db, a, employee, employer, requested, terms, env.now);
    case CancelWrite(a) => StatusWriteKeeps(db, a, Submitted, Cancelled);
    case EmployerApprove(a, employer) => ApplicationReadsKeep(db, a, employer);
    case EmployerApproveWrite(a, seen) => EmployerApproveKeeps(db, a, seen, env.feeAmount);
    case EmployerRejectWrite(a) => StatusWriteKeeps(db, a, Submitted, EmployerRejected);
    case AdminApprove(a) => ApplicationReadsKeep(db, a, 0);
    case AdminApproveWrite(a, seen) => AdminApproveKeeps(db, a, seen);
    case AdminRejectWrite(a, seen) => StatusWriteKeeps(db, a, seen.status, AdminRejected);
    case _ =>
  }

  lemma FeeStepKeeps(db: Db, c: FeeCall, env: Env)
    requires Inv(db) && FeeCallOk(db, c)
    ensures StepOk(db, FeeStep(db, c, env))
  {
    hide Inv, Grows, InitiatePaymentRead, EnsureFeeRead, CreateFeeCommit, CreateOrderCommit, WaiveRead, WaiveCommit,
         CaptureRead, CaptureCommit, FailPaymentCommit;
    match c
    case InitiatePayment(a, employee) => PaymentReadsKeep(db, a, employee, 0, None);
    case EnsureFee(a) => PaymentReadsKeep(db, a, 0, 0, env.feeAmount);
    case CreateFee(a, amount) => CreateFeeKeeps(db, a, amount);
    case CreateOrder(a, amount) => CreateOrderKeeps(db, a, amount, env.gatewayOrder, env.now);
    case Waive(a) => PaymentReadsKeep(db, a, 0, 0, None);
    case WaiveWrite(a, seen) => WaiveKeeps(db, a, seen);
    case Capture(o) => PaymentReadsKeep(db, 0, 0, o, None);
    case CaptureWrite(o, a) => CaptureKeeps(db, o, a);
    case FailPaymentWrite(o) => FailPaymentKeeps(db, o);
    case _ =>
  }

  lemma DisbursalStepKeeps(db: Db, c: DisbursalCall, env: Env)
    requires Inv(db) && DisbursalCallOk(db, c)
    ensures StepOk(db, DisbursalStep(db, c, env))
  {
    hide Inv, Grows, CreateDisbursalRead, CreateDisbursalCommit, DisburseRead, DisburseApplicationRead, DisburseFeeRead,
         DisburseCommit;
    match c
    case CreateDisbursal(a) => ApplicationReadsKeep(db, a, 0);
    case CreateDisbursalWrite(a, seen) => CreateDisbursalKeeps(db, a, seen);
    case Disburse(a) => ApplicationReadsKeep(db, a, 0);
    case DisburseApplication(a, d) => DisburseApplicationKeeps(db, a, d);
    case DisburseFee(a, d, seen) => DisburseFeeKeeps(db, a, d, seen, env.bankVerified);
    case DisburseWrite(a, amount, amounts, seen) => DisburseKeeps(db, a, amount, amounts, seen);
    case _ =>
  }

  lemma RepaymentStepKeeps(db: Db, c: RepaymentCall, env: Env)
    requires Inv(db) && RepaymentCallOk(db, c)
    ensures StepOk(db, RepaymentStep(db, c, env))
  {
    hide Inv, Grows, PayRead, PayCommit;
    match c
    case Pay(a) => PaymentReadsKeep(db, a, 0, 0, None);
    case PayWrite(a) => PayKeeps(db, a);
  }

  lemma PayrollStepKeeps(db: Db, c: PayrollCall, env: Env)
    requires Inv(db) && PayrollCallOk(db, c)
    ensures StepOk(db, PayrollStep(db, c, env))
  {
    hide Inv, Grows, FindDueRepaymentsRead, ProcessRecoveryCommit;
    match c
    case FindDueRepayments(key, today) => FindDueKeeps(db, key, today, env.rows, env.graceDays);
    case ProcessRecoveryWrite(key, ids, rows, dueDate) => ProcessRecoveryKeeps(db, key, ids, rows, dueDate);
    case _ =>
  }

  lemma SettlementStepKeeps(db: Db, c: SettlementCall, env: Env)
    requires Inv(db) && SettlementCallOk(db, c)
    ensures StepOk(db, SettlementStep(db, c, env))
  {
    hide Inv, Grows, MarkPaidRead, MarkPaidCommit, RiskOverdueCommit, RiskCommit;
    match c
    case MarkPaid(key) => MarkPaidReadKeeps(db, key, env.rows);
    case MarkPaidWrite(key, ids) => MarkPaidKeeps(db, key, ids);
    case RiskOverdueWrite(key) => RiskOverdueKeeps(db, key);
    case RiskWrite(employer, risk) => RiskWriteKeeps(db, employer, risk);
    case _ =>
  }

  lemma JobStepKeeps(db: Db, c: JobCall, env: Env)
    requires Inv(db) && JobCallOk(db, c)
    ensures StepOk(db, JobStep(db, c, env))
  {
    hide Inv, Grows, ExpireStaleRead, ExpireStaleCommit, RepaymentsOverdueCommit, SettlementsOverdueCommit;
    match c
    case ExpireStale => ExpireReadKeeps(db, env);
    case ExpireStaleWrite(ids) => ExpireKeeps(db, ids);
    case RepaymentsOverdueWrite(overdue) => RepaymentsOverdueKeeps(db, overdue);
    case SettlementsOverdueWrite(late) => SettlementsOverdueKeeps(db, late);
    case _ =>
  }

  /** No step breaks the invariant, takes anything back, or leaves a call relying on something false. */
  lemma AdvanceKeeps(db: Db, c: Call, env: Env)
    requires Inv(db) && CallOk(db, c)
    ensures StepOk(db, Advance(db, c, env))
  {
    hide Inv, StepOk, ApplicationStep, FeeStep, DisbursalStep, RepaymentStep, PayrollStep, SettlementStep, JobStep;
    match c
    case Applications(call) => ApplicationStepKeeps(db, call, env);
    case Fees(call) => FeeStepKeeps(db, call, env);
    case Disbursals(call) => DisbursalStepKeeps(db, call, env);
    case Repayments(call) => RepaymentStepKeeps(db, call, env);
    case Payroll(call) => PayrollStepKeeps(db, call, env);
    case Settlements(call) => SettlementStepKeeps(db, call, env);
    case Jobs(call) => JobStepKeeps(db, call, env);
  }
}
