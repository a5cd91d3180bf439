/** Which repayments a payroll run settles, written out row by row. */
module PayrollEffects {
  import opened Tables
  import opened Steps
  import opened Lifecycle
  import LedgerSteps

  /** The repayment is SCHEDULED, in no settlement, due by `today` and owed by an employee of the company. */
  ghost predicate ToRecover(db: Db, r: Id, employer: Id, today: Instant) {
    && r in db.repayments && db.repayments[r].status == Scheduled && db.repayments[r].dueDate <= today
    && r !in db.lineItems
    && r in db.applications && db.applications[r].employer == employer
  }

  /** The rows are the repayments to recover, each once. */
  ghost predicate ListsRecovery(db: Db, rows: seq<Id>, employer: Id, today: Instant) {
    && (forall i, j :: 0 <= i < j < |rows| ==> rows[i] != rows[j])
    && (forall r: Id :: r in rows <==> ToRecover(db, r, employer, today))
  }

  lemma DueIsListed(db: Db, rows: seq<Id>, employer: Id, today: Instant)
    ensures IsListing(rows, DueRepayments(db, employer, today)) <==> ListsRecovery(db, rows, employer, today)
  {
    assert forall r: Id :: r in DueRepayments(db, employer, today) <==> ToRecover(db, r, employer, today);
  }

  ghost function RowsOf(db: Db, ids: seq<Id>): seq<Repayment>
    requires forall i :: 0 <= i < |ids| ==> ids[i] in db.repayments
  {
    seq(|ids|, i requires 0 <= i < |ids| => db.repayments[ids[i]])
  }

  ghost function Recovered(db: Db, key: SettlementKey, ids: seq<Id>, dueDate: Instant): Db
    requires forall i :: 0 <= i < |ids| ==> ids[i] in db.repayments
  {
    db.(settlements := db.settlements[key := NewSettlement(RowsOf(db, ids), dueDate)],
        lineItems := AddLineItems(db.lineItems, key, ids, RowsOf(db, ids)))
  }

  lemma ListedRows(db: Db, rows: seq<Id>, employer: Id, today: Instant)
    requires ListsRecovery(db, rows, employer, today)
    ensures Distinct(rows) && forall i :: 0 <= i < |rows| ==> rows[i] in db.repayments && rows[i] !in db.lineItems
  {
    forall i | 0 <= i < |rows|
      ensures rows[i] in db.repayments && rows[i] !in db.lineItems
    {
      assert rows[i] in rows;
    }
  }

  lemma FoundRows(db: Db, key: SettlementKey, today: Instant, env: Env)
    requires ListsRecovery(db, env.rows, key.employer, today) && env.rows != []
    requires forall i :: 0 <= i < |env.rows| ==> env.rows[i] in db.repayments
    ensures var rows := RowsOf(db, env.rows);
            FindDueRepaymentsRead(db, key, today, env.rows, env.graceDays)
            == Read(Payroll(ProcessRecoveryWrite(key, env.rows, rows, today + env.graceDays * DAY)))
  {
    DueIsListed(db, env.rows, key.employer, today);
    var rows := RowsOf(db, env.rows);
    var o := FindDueRepaymentsRead(db, key, today, env.rows, env.graceDays);
    assert o.next.payroll.rows == rows;
  }


  /** The line items of the listed rows, by row. */
  lemma ItemsAdded(db: Db, key: SettlementKey, today: Instant, env: Env)
    requires ListsRecovery(db, env.rows, key.employer, today) && env.rows != []
    requires Distinct(env.rows) && forall i :: 0 <= i < |env.rows| ==> env.rows[i] in db.repayments
    ensures var items := Recovered(db, key, env.rows, today + env.graceDays * DAY).lineItems;
            && items.Keys - db.lineItems.Keys == (set r: Id | r in env.rows)
            && |items.Keys - db.lineItems.Keys| == |env.rows|
            && (forall r: Id :: r in env.rows ==> r in items && items[r] == NewLineItem(key, r, db.repayments[r]))
            && (forall r: Id :: r in db.lineItems ==> r in items && items[r] == db.lineItems[r])
  {
    hide AddLineItems, NewLineItem, NewSettlement;
    var rows := RowsOf(db, env.rows);
    LedgerSteps.AddLineItemsMeaning(db.lineItems, key, env.rows, rows);
    DistinctSize(env.rows);
  }

  lemma {:induction false} DistinctSize(ids: seq<Id>)
    requires Distinct(ids)
    ensures |set r: Id | r in ids| == |ids|
  {
    if ids != [] {
      var init, last := ids[..|ids| - 1], ids[|ids| - 1];
      DistinctSize(init);
      assert (set r: Id | r in ids) == (set r: Id | r in init) + {last};
      assert last !in init;
    }
  }

  lemma RecoveryRuns(db: Db, key: SettlementKey, today: Instant, env: Env)
    ensures var after := Alone(db, Payroll(ProcessRecovery(key, today)), env);
            && (after.threw <==> key !in db.settlements && !ListsRecovery(db, env.rows, key.employer, today))
            && (after.threw || key in db.settlements || env.rows == [] ==> after.db == db)
            && (!after.threw && key !in db.settlements && env.rows != [] ==>
                  && Distinct(env.rows) && (forall i :: 0 <= i < |env.rows| ==> env.rows[i] in db.repayments)
                  && after.db == Recovered(db, key, env.rows, today + env.graceDays * DAY))
  {
    hide Alone, ListsRecovery, NewSettlement, AddLineItems, IsListing, DueRepayments, Distinct,
         ApplicationStep, FeeStep, DisbursalStep, RepaymentStep, SettlementStep, JobStep;
    AloneStep(db, Payroll(ProcessRecovery(key, today)), env);
    AloneStep(db, Payroll(FindDueRepayments(key, today)), env);
    DueIsListed(db, env.rows, key.employer, today);
    if ListsRecovery(db, env.rows, key.employer, today) && key !in db.settlements && env.rows != [] {
      ListedRows(db, env.rows, key.employer, today);
      var rows := RowsOf(db, env.rows);
      FoundRows(db, key, today, env);
      AloneStep(db, Payroll(ProcessRecoveryWrite(key, env.rows, rows, today + env.graceDays * DAY)), env);
    }
  }

  /** The call throws for no state of the tables, only for an answer that lists other rows than the query's. A cycle
      already settled, or with nothing to recover, is left alone; otherwise the cycle's settlement and line items are
      all that is new. */
  lemma RecoveryEffect(db: Db, key: SettlementKey, today: Instant, env: Env)
    ensures var after := Alone(db, Payroll(ProcessRecovery(key, today)), env);
            && (after.threw <==> key !in db.settlements && !ListsRecovery(db, env.rows, key.employer, today))
            && (after.threw || key in db.settlements || (forall r: Id :: !ToRecover(db, r, key.employer, today)) ==>
                  after.db == db)
            && after.db == db.(settlements := after.db.settlements, lineItems := after.db.lineItems)
            && (forall k :: k != key ==>
                  (k in after.db.settlements <==> k in db.settlements)
                  && (k in db.settlements ==> after.db.settlements[k] == db.settlements[k]))
  {
    hide Alone, NewSettlement, AddLineItems, ToRecover, Distinct;
    RecoveryRuns(db, key, today, env);
    if env.rows != [] { assert env.rows[0] in env.rows; }
  }

  /** A run over a cycle that has no settlement yet: a repayment gains a line item if and only if it was SCHEDULED,
      had none, was due by `today` and belongs to an application of the company. The new line items are all of this
      cycle, with the repayment's own amounts, and older ones stay. */
  lemma RepaymentsRecovered(db: Db, key: SettlementKey, today: Instant, env: Env)
    requires key !in db.settlements && !Alone(db, Payroll(ProcessRecovery(key, today)), env).threw
    ensures var db' := Alone(db, Payroll(ProcessRecovery(key, today)), env).db;
            && (forall r: Id :: r in db'.lineItems && r !in db.lineItems <==>
                  && r in db.repayments && db.repayments[r].status == Scheduled && r !in db.lineItems
                  && db.repayments[r].dueDate <= today
                  && r in db.applications && db.applications[r].employer == key.employer)
            && (forall r: Id :: r in db'.lineItems && r !in db.lineItems ==>
                  var owed := db.repayments[r];
                  db'.lineItems[r] == LineItem(key, r, owed.principal, owed.amounts.interest,
                                               owed.amounts.processingFee, owed.amounts.gst, owed.amounts.total))
            && (forall r: Id :: r in db.lineItems ==> r in db'.lineItems && db'.lineItems[r] == db.lineItems[r])
  {
    hide Alone, AddLineItems, NewSettlement, Distinct, ListsRecovery, NewLineItem;
    RecoveryRuns(db, key, today, env);
    Recovering(db, env.rows, key.employer, today);
    var items := Alone(db, Payroll(ProcessRecovery(key, today)), env).db.lineItems;
    if env.rows != [] { ItemsAdded(db, key, today, env); }
    forall r: Id
      ensures r in items && r !in db.lineItems <==> ToRecover(db, r, key.employer, today)
    {
      assert r in items.Keys - db.lineItems.Keys <==> r in env.rows;
    }
    if env.rows != [] {
      forall r: Id | r in env.rows
        ensures items[r] == LineItem(key, r, db.repayments[r].principal, db.repayments[r].amounts.interest,
                                     db.repayments[r].amounts.processingFee, db.repayments[r].amounts.gst,
                                     db.repayments[r].amounts.total)
      {
        ItemAmounts(key, r, db.repayments[r]);
      }
    }
  }

  lemma Recovering(db: Db, rows: seq<Id>, employer: Id, today: Instant)
    requires ListsRecovery(db, rows, employer, today)
    ensures forall r: Id :: r in rows <==> ToRecover(db, r, employer, today)
  {
  }

  lemma ItemAmounts(key: SettlementKey, r: Id, owed: Repayment)
    ensures NewLineItem(key, r, owed)
         == LineItem(key, r, owed.principal, owed.amounts.interest, owed.amounts.processingFee, owed.amounts.gst,
                     owed.amounts.total)
  {
  }

  /** There is a settlement of the cycle exactly with something to recover: GENERATED, one employee counted for each
      new line item, all of it outstanding, due the grace period after `today`. */
  lemma SettlementGenerated(db: Db, key: SettlementKey, today: Instant, env: Env)
    requires key !in db.settlements && !Alone(db, Payroll(ProcessRecovery(key, today)), env).threw
    ensures var db' := Alone(db, Payroll(ProcessRecovery(key, today)), env).db;
            && (key in db'.settlements <==> exists r: Id :: r in db'.lineItems && r !in db.lineItems)
            && (key in db'.settlements ==>
                  var s := db'.settlements[key];
                  && s.dueDate == today + env.graceDays * 86400000 && s.status == Generated
                  && s.employeeCount == |db'.lineItems.Keys - db.lineItems.Keys|
                  && s.total == s.principal + s.interest + s.processingFee + s.gst && s.outstanding == s.total)
  {
    hide Alone, AddLineItems, Distinct, ListsRecovery, NewLineItem, SumPrincipal, SumInterest, SumProcessingFee,
         SumGst;
    RecoveryRuns(db, key, today, env);
    if env.rows != [] {
      ItemsAdded(db, key, today, env);
      var items := Alone(db, Payroll(ProcessRecovery(key, today)), env).db.lineItems;
      assert env.rows[0] in items.Keys - db.lineItems.Keys;
    }
  }
}
