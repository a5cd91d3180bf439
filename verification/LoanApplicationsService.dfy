/** src/loan-applications/loan-applications.service.ts, statement by statement. */
module LoanApplicationsService {
  import opened Wrappers
  import opened Tables
  import opened Steps
  import opened Lifecycle
  import PlatformFeesService

  method Create(db: Database, a: Id, employee: Id, employer: Id, requested: Paise, terms: Terms, env: Env)
    returns (ok: bool)
    modifies db`applications, db`history
    ensures Completes(old(db.View()), Applications(Submit(a, employee, employer, requested, terms)), env, db.View(), ok)
  {
    hide Alone, FeeStep, DisbursalStep, RepaymentStep, PayrollStep, SettlementStep, JobStep;
    AloneStep(db.View(), Applications(Submit(a, employee, employer, requested, terms)), env);
    AloneStep(db.View(), Applications(SubmitWrite(a, employee, employer, requested, terms)), env);
    if exists b :: b in db.applications && db.applications[b].employee == employee
                   && BlocksSubmission(db.applications[b].status) {
      return false;
    }
    if !env.otherGates { return false; }
    if a in db.applications || ActiveOf(db.View(), employee) != {} { return false; }
    db.applications :=
      db.applications[a := Application(employee, employer, Submitted, requested, None, None, env.now, terms)];
    db.history := db.history + [Entry(a, None, Submitted)];
    return true;
  }

  method Cancel(db: Database, a: Id, employee: Id, env: Env) returns (ok: bool)
    modifies db`applications, db`history
    ensures Completes(old(db.View()), Applications(ApplicationCall.Cancel(a, employee)), env, db.View(), ok)
  {
    hide Alone, FeeStep, DisbursalStep, RepaymentStep, PayrollStep, SettlementStep, JobStep;
    AloneStep(db.View(), Applications(ApplicationCall.Cancel(a, employee)), env);
    AloneStep(db.View(), Applications(CancelWrite(a)), env);
    if a !in db.applications || db.applications[a].employee != employee { return false; }
    if db.applications[a].status != Submitted { return false; }
    ok := db.UpdateStatus(a, Submitted, Cancelled);
  }

  method EmployerApproveTransaction(db: Database, a: Id, application: Application, feeAmount: Option<Paise>)
    returns (ok: bool)
    modifies db
    ensures ok <==> !EmployerApproveCommit(old(db.View()), a, application, feeAmount).Threw?
    ensures db.View() == After(old(db.View()), EmployerApproveCommit(old(db.View()), a, application, feeAmount))
  {
    var before := db.View();
    ok := db.UpdateStatus(a, Submitted, AwaitingPlatformFee);
    if !ok { return; }
    db.applications := db.applications[a := db.applications[a].(employerApproved := Some(application.requested))];
    ok := PlatformFeesService.EnsureFee(db, a, feeAmount);
    if !ok { db.Restore(before); }
  }

  method EmployerApprove(db: Database, a: Id, employer: Id, env: Env) returns (ok: bool)
    modifies db
    ensures Completes(old(db.View()), Applications(ApplicationCall.EmployerApprove(a, employer)), env, db.View(), ok)
  {
    hide Alone, EmployerApproveCommit, FeeStep, DisbursalStep, RepaymentStep, PayrollStep, SettlementStep, JobStep;
    AloneStep(db.View(), Applications(ApplicationCall.EmployerApprove(a, employer)), env);
    if a !in db.applications || db.applications[a].employer != employer { return false; }
    var application := db.applications[a];
    if application.status != Submitted { return false; }
    AloneStep(db.View(), Applications(EmployerApproveCheck(a, application)), env);
    if exists b :: b in db.applications && b != a && db.applications[b].employee == application.employee
                   && InProgress(db.applications[b].status) {
      return false;
    }
    AloneStep(db.View(), Applications(EmployerApproveWrite(a, application)), env);
    EmployerApproveShape(db.View(), a, application, env.feeAmount);
    ok := EmployerApproveTransaction(db, a, application, env.feeAmount);
  }

  lemma EmployerApproveShape(db: Db, a: Id, application: Application, feeAmount: Option<Paise>)
    ensures var o := EmployerApproveCommit(db, a, application, feeAmount); o.Threw? || (o.Wrote? && o.rest.None?)
  {
  }

  method EmployerReject(db: Database, a: Id, employer: Id, env: Env) returns (ok: bool)
    modifies db`applications, db`history
    ensures Completes(old(db.View()), Applications(ApplicationCall.EmployerReject(a, employer)), env, db.View(), ok)
  {
    hide Alone, FeeStep, DisbursalStep, RepaymentStep, PayrollStep, SettlementStep, JobStep;
    AloneStep(db.View(), Applications(ApplicationCall.EmployerReject(a, employer)), env);
    AloneStep(db.View(), Applications(EmployerRejectWrite(a)), env);
    if a !in db.applications || db.applications[a].employer != employer { return false; }
    if db.applications[a].status != Submitted { return false; }
    ok := db.UpdateStatus(a, Submitted, EmployerRejected);
  }

  /** The nested write: status, amount and history row together. */
  method AdminApproveUpdate(db: Database, a: Id, application: Application) returns (ok: bool)
    modifies db`applications, db`history
    ensures var o := AdminApproveCommit(old(db.View()), a, application);
            db.View() == After(old(db.View()), o) && (if ok then o.Wrote? && o.rest.None? else o.Threw?)
  {
    ok := db.UpdateStatus(a, EmployerApproved, ReadyForDisbursal);
    if ok {
      var amount := application.employerApproved.GetOr(application.requested);
      db.applications := db.applications[a := db.applications[a].(adminApproved := Some(amount))];
    }
  }

  method AdminApprove(db: Database, a: Id, env: Env) returns (ok: bool)
    modifies db`applications, db`history
    ensures Completes(old(db.View()), Applications(ApplicationCall.AdminApprove(a)), env, db.View(), ok)
  {
    hide Alone, AdminApproveCommit, FeeStep, DisbursalStep, RepaymentStep, PayrollStep, SettlementStep, JobStep;
    AloneStep(db.View(), Applications(ApplicationCall.AdminApprove(a)), env);
    if a !in db.applications { return false; }
    var application := db.applications[a];
    if application.status != EmployerApproved { return false; }
    AloneStep(db.View(), Applications(AdminApproveFee(a, application)), env);
    var cleared := PlatformFeesService.IsFeeCleared(db, a);
    if !cleared { return false; }
    AloneStep(db.View(), Applications(AdminApproveWrite(a, application)), env);
    ok := AdminApproveUpdate(db, a, application);
  }

  method AdminReject(db: Database, a: Id, env: Env) returns (ok: bool)
    modifies db`applications, db`history
    ensures Completes(old(db.View()), Applications(ApplicationCall.AdminReject(a)), env, db.View(), ok)
  {
    hide Alone, FeeStep, DisbursalStep, RepaymentStep, PayrollStep, SettlementStep, JobStep;
    AloneStep(db.View(), Applications(ApplicationCall.AdminReject(a)), env);
    if a !in db.applications { return false; }
    var status := db.applications[a].status;
    if status !in {Submitted, AwaitingPlatformFee, EmployerApproved, ReadyForDisbursal} { return false; }
    AloneStep(db.View(), Applications(AdminRejectWrite(a, db.applications[a])), env);
    ok := db.UpdateStatus(a, status, AdminRejected);
  }
}
