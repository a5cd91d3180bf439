/**
 What each operation on an application does with nothing beside it: when it throws, and the whole state it leaves.
 Guards and effects are written out in statuses, without the steps, queries and guards of `Steps`.
 */
module ApplicationEffects {
  import opened Wrappers
  import opened Tables
  import opened Steps
  import opened Lifecycle

  /** The six statuses of an active advance. */
  ghost predicate Holds(s: Status) {
    || s == Submitted || s == EmployerApproved || s == AwaitingPlatformFee
    || s == ReadyForDisbursal || s == Disbursed || s == RepaymentScheduled
  }

  /** Another application of the same employee is an active advance. */
  ghost predicate AnotherActive(db: Db, a: Id)
    requires a in db.applications
  {
    exists b :: b in db.applications && b != a && db.applications[b].employee == db.applications[a].employee
                && Holds(db.applications[b].status)
  }

  /** The application's row and one more history entry; every other row and table stays. */
  ghost function Moved(db: Db, a: Id, row: Application, previous: Option<Status>): Db {
    db.(applications := db.applications[a := row], history := db.history + [Entry(a, previous, row.status)])
  }

  lemma IndexIsAnother(db: Db, a: Id, s: Status)
    requires a in db.applications
    ensures IndexAllows(db, a, s) <==> !(Holds(s) && AnotherActive(db, a))
  {
  }

  /** Refused with an active advance of the employee, by another gate or with an id in use; otherwise a SUBMITTED
      row with the terms it was given and one history entry. */
  lemma SubmitEffect(db: Db, a: Id, employee: Id, employer: Id, requested: Paise, terms: Terms, env: Env)
    ensures var after := Alone(db, Applications(Submit(a, employee, employer, requested, terms)), env);
            && (after.threw <==>
                || !env.otherGates
                || a in db.applications
                || exists b :: b in db.applications && db.applications[b].employee == employee
                               && Holds(db.applications[b].status))
            && after.db == (if after.threw then db
                            else Moved(db, a, Application(employee, employer, Submitted, requested, None, None,
                                                          env.now, terms), None))
  {
    hide Alone, FeeStep, DisbursalStep, RepaymentStep, PayrollStep, SettlementStep, JobStep;
    AloneStep(db, Applications(Submit(a, employee, employer, requested, terms)), env);
    AloneStep(db, Applications(SubmitWrite(a, employee, employer, requested, terms)), env);
    assert ActiveOf(db, employee) != {} <==>
           exists b :: b in db.applications && db.applications[b].employee == employee
                       && IsActive(db.applications[b].status) by {
      if b: Id :| b in db.applications && db.applications[b].employee == employee
                  && IsActive(db.applications[b].status)
      {
        assert b in ActiveOf(db, employee);
      }
    }
  }

  /** Only the employee's own SUBMITTED application. */
  lemma CancelEffect(db: Db, a: Id, employee: Id, env: Env)
    ensures var after := Alone(db, Applications(Cancel(a, employee)), env);
            && (!after.threw <==>
                a in db.applications && db.applications[a].employee == employee
                && db.applications[a].status == Submitted)
            && after.db == (if after.threw then db
                            else Moved(db, a, db.applications[a].(status := Cancelled), Some(Submitted)))
  {
    hide Alone, FeeStep, DisbursalStep, RepaymentStep, PayrollStep, SettlementStep, JobStep;
    AloneStep(db, Applications(Cancel(a, employee)), env);
    AloneStep(db, Applications(CancelWrite(a)), env);
  }

  /** Only a SUBMITTED application of the company, of an employee without another active advance, whose fee exists
      or is configured: the row moves on with its amount, and a missing fee is created. */
  lemma EmployerApproveEffect(db: Db, a: Id, employer: Id, env: Env)
    ensures var after := Alone(db, Applications(EmployerApprove(a, employer)), env);
            && (!after.threw <==>
                a in db.applications && db.applications[a].employer == employer
                && db.applications[a].status == Submitted && !AnotherActive(db, a)
                && (a in db.fees || env.feeAmount.Some?))
            && (after.threw ==> after.db == db)
            && (!after.threw ==>
                  var row := db.applications[a];
                  var approved := row.(status := AwaitingPlatformFee, employerApproved := Some(row.requested));
                  var fees := if a in db.fees then db.fees
                              else db.fees[a := Fee(env.feeAmount.value, PendingPayment)];
                  after.db == Moved(db, a, approved, Some(Submitted)).(fees := fees))
  {
    hide Alone, FeeStep, DisbursalStep, RepaymentStep, PayrollStep, SettlementStep, JobStep, IndexAllows,
         AnotherActive, EmployerApproveSecondRead, EmployerApproveCommit;
    AloneStep(db, Applications(EmployerApprove(a, employer)), env);
    if a in db.applications && db.applications[a].employer == employer && db.applications[a].status == Submitted {
      var seen := db.applications[a];
      AloneStep(db, Applications(EmployerApproveCheck(a, seen)), env);
      AloneStep(db, Applications(EmployerApproveWrite(a, seen)), env);
      IndexIsAnother(db, a, AwaitingPlatformFee);
      SecondReadThrows(db, a);
  
      ApprovalWrites(db, a, env.feeAmount);
    }
  }

  lemma SecondReadThrows(db: Db, a: Id)
    requires a in db.applications
    ensures var o := EmployerApproveSecondRead(db, a, db.applications[a]);
            && (o.Threw? ==> AnotherActive(db, a))
            && (!o.Threw? ==> o == Read(Applications(EmployerApproveWrite(a, db.applications[a]))))
  {
  }

  lemma ApprovalWrites(db: Db, a: Id, feeAmount: Option<Paise>)
    requires a in db.applications
    ensures var row := db.applications[a];
            var o := EmployerApproveCommit(db, a, row, feeAmount);
            var approved := row.(status := AwaitingPlatformFee, employerApproved := Some(row.requested));
            var fees := if a in db.fees || feeAmount.None? then db.fees
                        else db.fees[a := Fee(feeAmount.value, PendingPayment)];
            && (o.Threw? <==> !IndexAllows(db, a, AwaitingPlatformFee) || (a !in db.fees && feeAmount.None?))
            && (o.Threw? || o == Wrote(Moved(db, a, approved, Some(Submitted)).(fees := fees), None))
  {
    hide IndexAllows, EnsureFeeForApplication;
    var row := db.applications[a];
    var moved, approved := row.(status := AwaitingPlatformFee),
                           row.(status := AwaitingPlatformFee, employerApproved := Some(row.requested));
    assert db.applications[a := moved][a := approved] == db.applications[a := approved];
    FeeEnsured(Moved(db, a, approved, Some(Submitted)), a, feeAmount);
  }

  lemma FeeEnsured(db: Db, a: Id, feeAmount: Option<Paise>)
    ensures EnsureFeeForApplication(db, a, feeAmount)
         == if a in db.fees then Wrote(db, None)
            else if feeAmount.None? then Threw
            else Wrote(db.(fees := db.fees[a := Fee(feeAmount.value, PendingPayment)]), None)
  {
  }

  /** Only a SUBMITTED application of the company. */
  lemma EmployerRejectEffect(db: Db, a: Id, employer: Id, env: Env)
    ensures var after := Alone(db, Applications(EmployerReject(a, employer)), env);
            && (!after.threw <==>
                a in db.applications && db.applications[a].employer == employer
                && db.applications[a].status == Submitted)
            && after.db == (if after.threw then db
                            else Moved(db, a, db.applications[a].(status := EmployerRejected), Some(Submitted)))
  {
    hide Alone, FeeStep, DisbursalStep, RepaymentStep, PayrollStep, SettlementStep, JobStep;
    AloneStep(db, Applications(EmployerReject(a, employer)), env);
    AloneStep(db, Applications(EmployerRejectWrite(a)), env);
  }

  /** Only an EMPLOYER_APPROVED application with a PAID or WAIVED fee, of an employee without another active
      advance: it becomes ready with the amount the employer approved, or else the one asked for. */
  lemma AdminApproveEffect(db: Db, a: Id, env: Env)
    ensures var after := Alone(db, Applications(AdminApprove(a)), env);
            && (!after.threw <==>
                a in db.applications && db.applications[a].status == EmployerApproved
                && a in db.fees && db.fees[a].status in {FeePaid, FeeWaived} && !AnotherActive(db, a))
            && (after.threw ==> after.db == db)
            && (!after.threw ==>
                  var row := db.applications[a];
                  var amount := if row.employerApproved.Some? then row.employerApproved.value else row.requested;
                  var approved := row.(status := ReadyForDisbursal, adminApproved := Some(amount));
                  after.db == Moved(db, a, approved, Some(EmployerApproved)))
  {
    hide Alone, FeeStep, DisbursalStep, RepaymentStep, PayrollStep, SettlementStep, JobStep, IndexAllows,
         AnotherActive, AdminApproveCommit;
    AloneStep(db, Applications(AdminApprove(a)), env);
    if a in db.applications {
      AloneStep(db, Applications(AdminApproveFee(a, db.applications[a])), env);
      AloneStep(db, Applications(AdminApproveWrite(a, db.applications[a])), env);
      IndexIsAnother(db, a, ReadyForDisbursal);
      AdminApprovalWrites(db, a);
    }
  }

  lemma AdminApprovalWrites(db: Db, a: Id)
    requires a in db.applications
    ensures var row := db.applications[a];
            var o := AdminApproveCommit(db, a, row);
            var amount := if row.employerApproved.Some? then row.employerApproved.value else row.requested;
            var approved := row.(status := ReadyForDisbursal, adminApproved := Some(amount));
            && (o.Threw? <==> !IndexAllows(db, a, ReadyForDisbursal))
            && (o.Threw? || o == Wrote(Moved(db, a, approved, Some(EmployerApproved)), None))
  {
    hide IndexAllows;
    var row := db.applications[a];
    var moved := row.(status := ReadyForDisbursal);
    var approved := moved.(adminApproved := Some(row.employerApproved.GetOr(row.requested)));
    assert db.applications[a := moved][a := approved] == db.applications[a := approved];
  }

  /** Only from the four statuses before the payout. */
  lemma AdminRejectEffect(db: Db, a: Id, env: Env)
    ensures var after := Alone(db, Applications(AdminReject(a)), env);
            && (!after.threw <==>
                a in db.applications
                && (db.applications[a].status == Submitted || db.applications[a].status == AwaitingPlatformFee
                    || db.applications[a].status == EmployerApproved
                    || db.applications[a].status == ReadyForDisbursal))
            && after.db == (if after.threw then db
                            else Moved(db, a, db.applications[a].(status := AdminRejected),
                                       Some(db.applications[a].status)))
  {
    hide Alone, FeeStep, DisbursalStep, RepaymentStep, PayrollStep, SettlementStep, JobStep;
    AloneStep(db, Applications(AdminReject(a)), env);
    if a in db.applications { AloneStep(db, Applications(AdminRejectWrite(a, db.applications[a])), env); }
  }
}
