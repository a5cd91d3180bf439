/** src/payroll/payroll.service.ts, statement by statement. */
module PayrollService {
  import opened Tables
  import opened Steps
  import opened Lifecycle

  /** The four reduces and the totals they add up to. */
  method Totals(rows: seq<Repayment>, dueDate: Instant) returns (s: Settlement)
    ensures s == NewSettlement(rows, dueDate)
  {
    var principal, interest, fee, gst := 0, 0, 0, 0;
    for i := 0 to |rows|
      invariant principal == SumPrincipal(rows[..i]) && interest == SumInterest(rows[..i])
      invariant fee == SumProcessingFee(rows[..i]) && gst == SumGst(rows[..i])
    {
      assert rows[..i + 1][..i] == rows[..i];
      principal := principal + rows[i].principal;
      interest := interest + rows[i].amounts.interest;
      fee := fee + rows[i].amounts.processingFee;
      gst := gst + rows[i].amounts.gst;
    }
    assert rows[..|rows|] == rows;
    var total := principal + interest + fee + gst;
    s := Settlement(principal, interest, fee, gst, total, total, |rows|, dueDate, Generated);
  }

  /** One frozen line item for each repayment. */
  method CreateLineItems(db: Database, key: SettlementKey, ids: seq<Id>, rows: seq<Repayment>)
    requires |ids| == |rows|
    modifies db`lineItems
    ensures db.lineItems == AddLineItems(old(db.lineItems), key, ids, rows)
  {
    for i := 0 to |ids|
      invariant db.lineItems == AddLineItems(old(db.lineItems), key, ids[..i], rows[..i])
    {
      assert ids[..i + 1][..i] == ids[..i] && rows[..i + 1][..i] == rows[..i];
      db.lineItems := db.lineItems[ids[i] := NewLineItem(key, ids[i], rows[i])];
    }
    assert ids[..|ids|] == ids && rows[..|rows|] == rows;
  }

  method ReadRows(db: Database, ids: seq<Id>) returns (rows: seq<Repayment>)
    requires forall r :: r in ids ==> r in db.repayments
    ensures |rows| == |ids| && forall i :: 0 <= i < |ids| ==> rows[i] == db.repayments[ids[i]]
  {
    rows := [];
    for i := 0 to |ids|
      invariant |rows| == i && forall j :: 0 <= j < i ==> rows[j] == db.repayments[ids[j]]
    {
      rows := rows + [db.repayments[ids[i]]];
    }
  }

  /** `found` is the order in which the query returned the due repayments. */
  method ProcessRecovery(db: Database, key: SettlementKey, today: Instant, env: Env) returns (ok: bool, found: seq<Id>)
    modifies db`settlements, db`lineItems
    ensures Completes(old(db.View()), Payroll(PayrollCall.ProcessRecovery(key, today)), env.(rows := found),
                      db.View(), ok)
    ensures ok
  {
    hide Alone, AddLineItems, NewSettlement, ApplicationStep, FeeStep, DisbursalStep, RepaymentStep, SettlementStep,
         JobStep;
    ghost var before := db.View();
    if key in db.settlements {
      AloneStep(before, Payroll(PayrollCall.ProcessRecovery(key, today)), env.(rows := []));
      return true, [];
    }
    found := FindMany(DueRepayments(db.View(), key.employer, today));
    ghost var env' := env.(rows := found);
    AloneStep(before, Payroll(PayrollCall.ProcessRecovery(key, today)), env');
    AloneStep(before, Payroll(FindDueRepayments(key, today)), env');
    if found == [] { return true, found; }
    var rows := ReadRows(db, found);
    var dueDate := today + env.graceDays * DAY;
    AloneStep(before, Payroll(ProcessRecoveryWrite(key, found, rows, dueDate)), env');
    assert FindDueRepaymentsRead(before, key, today, found, env.graceDays)
        == Read(Payroll(ProcessRecoveryWrite(key, found, rows, dueDate)));
    var settlement := Totals(rows, dueDate);
    db.settlements := db.settlements[key := settlement];
    CreateLineItems(db, key, found, rows);
    return true, found;
  }
}
