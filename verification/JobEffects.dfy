/** Which rows the nightly jobs touch, written out row by row. */
module JobEffects {
  import opened Wrappers
  import opened Tables
  import opened Steps
  import opened Lifecycle

  /** The rows are the SUBMITTED applications of more than three days ago, each once. */
  ghost predicate ListsStale(db: Db, rows: seq<Id>, now: Instant) {
    && (forall i, j :: 0 <= i < j < |rows| ==> rows[i] != rows[j])
    && (forall a: Id :: a in rows <==>
          a in db.applications && db.applications[a].status == Submitted
          && now - db.applications[a].submittedAt > 3 * 86400000)
  }

  lemma StaleIsListed(db: Db, rows: seq<Id>, now: Instant)
    ensures IsListing(rows, StaleApplications(db, now)) <==> ListsStale(db, rows, now)
  {
    assert forall a: Id :: a in StaleApplications(db, now) <==>
             a in db.applications && db.applications[a].status == Submitted
             && now - db.applications[a].submittedAt > 3 * 86400000;
  }

  lemma ExpiryRuns(db: Db, env: Env)
    ensures var after := Alone(db, Jobs(ExpireStale), env);
            && (after.threw <==> !ListsStale(db, env.rows, env.now))
            && (after.threw || env.rows == [] ==> after.db == db)
            && (!after.threw && env.rows != [] ==> after.db == ExpireStaleCommit(db, env.rows).db)
  {
    hide Alone, ListsStale, IsListing, StaleApplications,
         ApplicationStep, FeeStep, DisbursalStep, RepaymentStep, PayrollStep, SettlementStep;
    AloneStep(db, Jobs(ExpireStale), env);
    AloneStep(db, Jobs(ExpireStaleWrite(env.rows)), env);
    StaleIsListed(db, env.rows, env.now);
  }

  /** After the job an application is EXPIRED if and only if it was, or was SUBMITTED more than three times 24 hours
      before; nothing else in its row and no other row changes. The history gets one entry for each application newly
      expired. The job throws only for an answer that lists other rows than the query's. */
  lemma StaleExpired(db: Db, env: Env)
    ensures var after := Alone(db, Jobs(ExpireStale), env);
            var db' := after.db;
            && (after.threw <==> !ListsStale(db, env.rows, env.now))
            && (after.threw ==> db' == db)
            && db' == db.(applications := db'.applications, history := db'.history)
            && db'.applications.Keys == db.applications.Keys
            && (forall a: Id :: a in db.applications ==>
                  && db'.applications[a] == db.applications[a].(status := db'.applications[a].status)
                  && (db'.applications[a].status == Expired <==>
                      || db.applications[a].status == Expired
                      || (!after.threw && db.applications[a].status == Submitted
                          && env.now - db.applications[a].submittedAt > 3 * 24 * 60 * 60 * 1000))
                  && (db'.applications[a].status != Expired ==> db'.applications[a] == db.applications[a]))
            && db.history <= db'.history
            && (!after.threw ==>
                  && |db'.history| == |db.history| + |env.rows|
                  && (forall i :: 0 <= i < |env.rows| ==>
                        db'.history[|db.history| + i] == Entry(env.rows[i], Some(Submitted), Expired))
                  && (forall i, j :: 0 <= i < j < |env.rows| ==> env.rows[i] != env.rows[j])
                  && (forall a: Id :: a in env.rows <==>
                        a in db.applications && db'.applications[a].status != db.applications[a].status))
  {
    hide Alone, StaleApplications;
    ExpiryRuns(db, env);
  }

  /** After the job a repayment is OVERDUE if and only if it was, or was SCHEDULED with its due date before now;
      nothing else in its row and no other row changes, and the job never throws. */
  lemma RepaymentsMarked(db: Db, env: Env)
    ensures var after := Alone(db, Jobs(RepaymentsOverdue), env);
            && !after.threw
            && after.db == db.(repayments := after.db.repayments)
            && after.db.repayments.Keys == db.repayments.Keys
            && forall r: Id :: r in db.repayments ==>
                 && after.db.repayments[r] == db.repayments[r].(status := after.db.repayments[r].status)
                 && (after.db.repayments[r].status == Overdue <==>
                     || db.repayments[r].status == Overdue
                     || (db.repayments[r].status == Scheduled && db.repayments[r].dueDate < env.now))
                 && (after.db.repayments[r].status != Overdue ==> after.db.repayments[r] == db.repayments[r])
  {
    hide Alone, ApplicationStep, FeeStep, DisbursalStep, RepaymentStep, PayrollStep, SettlementStep;
    AloneStep(db, Jobs(RepaymentsOverdue), env);
    AloneStep(db, Jobs(RepaymentsOverdueWrite(LateRepayments(db, env.now))), env);
    assert forall r: Id :: r in LateRepayments(db, env.now) <==>
             r in db.repayments && db.repayments[r].status == Scheduled && db.repayments[r].dueDate < env.now;
  }

  /** After the job a settlement is OVERDUE if and only if it was, or was GENERATED or PARTIALLY_PAID with its due date
      before now; nothing else in its row and no other row changes, and the job never throws. */
  lemma SettlementsMarked(db: Db, env: Env)
    ensures var after := Alone(db, Jobs(SettlementsOverdue), env);
            && !after.threw
            && after.db == db.(settlements := after.db.settlements)
            && after.db.settlements.Keys == db.settlements.Keys
            && forall k :: k in db.settlements ==>
                 var s, s' := db.settlements[k], after.db.settlements[k];
                 && s' == s.(status := s'.status)
                 && (s'.status == SettlementOverdue <==>
                     || s.status == SettlementOverdue
                     || (s.dueDate < env.now && (s.status == Generated || s.status == PartiallyPaid)))
                 && (s'.status != SettlementOverdue ==> s' == s)
  {
    hide Alone, ApplicationStep, FeeStep, DisbursalStep, RepaymentStep, PayrollStep, SettlementStep;
    AloneStep(db, Jobs(SettlementsOverdue), env);
    AloneStep(db, Jobs(SettlementsOverdueWrite(LateSettlements(db, env.now))), env);
    assert forall k :: k in LateSettlements(db, env.now) <==>
             k in db.settlements && db.settlements[k].dueDate < env.now
             && (db.settlements[k].status == Generated || db.settlements[k].status == PartiallyPaid);
  }
}
