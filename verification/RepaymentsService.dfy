/** src/repayments/repayments.service.ts, statement by statement. */
module RepaymentsService {
  import opened Tables
  import opened Steps
  import opened Lifecycle

  method PayTransaction(db: Database, a: Id) returns (ok: bool)
    modifies db
    ensures ok <==> !PayCommit(old(db.View()), a).Threw?
    ensures db.View() == After(old(db.View()), PayCommit(old(db.View()), a))
  {
    var before := db.View();
    if a !in db.repayments || a !in db.applications { return false; }
    if db.repayments[a].status == Paid { return true; }
    db.repayments := db.repayments[a := db.repayments[a].(status := Paid)];
    ok := db.UpdateStatus(a, db.applications[a].status, Repaid);
    if !ok { db.Restore(before); }
  }

  method Pay(db: Database, a: Id, env: Env) returns (ok: bool)
    modifies db
    ensures Completes(old(db.View()), Repayments(RepaymentCall.Pay(a)), env, db.View(), ok)
  {
    hide Alone, ApplicationStep, FeeStep, DisbursalStep, PayrollStep, SettlementStep, JobStep;
    ghost var before := db.View();
    AloneStep(before, Repayments(RepaymentCall.Pay(a)), env);
    if a !in db.repayments { return false; }
    if db.repayments[a].status == Paid { return true; }
    AloneStep(before, Repayments(PayWrite(a)), env);
    ok := PayTransaction(db, a);
  }
}
