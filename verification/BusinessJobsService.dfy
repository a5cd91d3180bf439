/** src/business-jobs/business-jobs.service.ts, statement by statement. */
module BusinessJobsService {
  import opened Wrappers
  import opened Tables
  import opened Steps
  import opened Lifecycle

  /** `stale` is the order in which the query returned the stale applications. */
  method ExpireStaleApplications(db: Database, env: Env) returns (stale: seq<Id>)
    modifies db`applications, db`history
    ensures Completes(old(db.View()), Jobs(ExpireStale), env.(rows := stale), db.View(), true)
  {
    hide Alone, ApplicationStep, FeeStep, DisbursalStep, RepaymentStep, PayrollStep, SettlementStep;
    ghost var before := db.View();
    stale := FindMany(StaleApplications(db.View(), env.now));
    AloneStep(before, Jobs(ExpireStale), env.(rows := stale));
    if |stale| == 0 { return; }
    AloneStep(before, Jobs(ExpireStaleWrite(stale)), env.(rows := stale));
    db.applications := map a | a in db.applications ::
      if a in stale then db.applications[a].(status := Expired) else db.applications[a];
    db.history := db.history + seq(|stale|, i requires 0 <= i < |stale| => Entry(stale[i], Some(Submitted), Expired));
  }

  method MarkRepaymentsOverdue(db: Database, env: Env)
    modifies db`repayments
    ensures Completes(old(db.View()), Jobs(RepaymentsOverdue), env, db.View(), true)
  {
    hide Alone, ApplicationStep, FeeStep, DisbursalStep, RepaymentStep, PayrollStep, SettlementStep;
    AloneStep(db.View(), Jobs(RepaymentsOverdue), env);
    var unpaid := set r | r in db.repayments && db.repayments[r].dueDate < env.now && db.repayments[r].status != Paid;
    var overdue := set r | r in unpaid && db.repayments[r].status != Overdue;
    assert overdue == LateRepayments(db.View(), env.now);
    if overdue == {} { return; }
    AloneStep(db.View(), Jobs(RepaymentsOverdueWrite(overdue)), env);
    db.repayments := map r | r in db.repayments ::
      if r in overdue then db.repayments[r].(status := Overdue) else db.repayments[r];
  }

  method MarkSettlementsOverdue(db: Database, env: Env)
    modifies db`settlements
    ensures Completes(old(db.View()), Jobs(SettlementsOverdue), env, db.View(), true)
  {
    hide Alone, ApplicationStep, FeeStep, DisbursalStep, RepaymentStep, PayrollStep, SettlementStep;
    AloneStep(db.View(), Jobs(SettlementsOverdue), env);
    var late := set k | k in db.settlements && db.settlements[k].dueDate < env.now
                        && db.settlements[k].status !in {SettlementPaid, SettlementOverdue, Draft, SettlementCancelled};
    assert late == LateSettlements(db.View(), env.now);
    if late == {} { return; }
    AloneStep(db.View(), Jobs(SettlementsOverdueWrite(late)), env);
    db.settlements := map k | k in db.settlements ::
      if k in late then db.settlements[k].(status := SettlementOverdue) else db.settlements[k];
  }
}
