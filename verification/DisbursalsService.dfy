/** src/disbursals/disbursals.service.ts, statement by statement. */
module DisbursalsService {
  import opened Wrappers
  import opened Tables
  import opened Steps
  import opened Lifecycle
  import Pricing
  import PlatformFeesService

  method Create(db: Database, a: Id, env: Env) returns (ok: bool)
    modifies db`disbursals
    ensures Completes(old(db.View()), Disbursals(CreateDisbursal(a)), env, db.View(), ok)
  {
    hide Alone, ApplicationStep, FeeStep, RepaymentStep, PayrollStep, SettlementStep, JobStep;
    ghost var before := db.View();
    AloneStep(before, Disbursals(CreateDisbursal(a)), env);
    if a !in db.applications { return false; }
    var application := db.applications[a];
    AloneStep(before, Disbursals(FindDisbursal(a, application)), env);
    if a in db.disbursals { return true; }
    AloneStep(before, Disbursals(DisbursalRisk(a, application)), env);
    if application.employer in db.risk && db.risk[application.employer] == Blocked { return false; }
    if application.status != ReadyForDisbursal { return false; }
    AloneStep(before, Disbursals(DisbursalFee(a, application)), env);
    var cleared := PlatformFeesService.IsFeeCleared(db, a);
    if !cleared { return false; }
    AloneStep(before, Disbursals(CreateDisbursalWrite(a, application)), env);
    var approved := application.adminApproved.GetOr(application.requested);
    db.disbursals := db.disbursals[a := Disbursal(application.requested, approved, Some(approved), Pending)];
    return true;
  }

  /** Claim, repayment and status move in one transaction. */
  method DisburseTransaction(db: Database, a: Id, amount: Paise, amounts: Breakdown, application: Application)
    returns (ok: bool)
    requires a in db.disbursals
    modifies db
    ensures ok <==> !DisburseCommit(old(db.View()), a, amount, amounts, application).Threw?
    ensures db.View() == After(old(db.View()), DisburseCommit(old(db.View()), a, amount, amounts, application))
  {
    var before := db.View();
    if db.disbursals[a].status != Pending { return true; }
    db.disbursals := db.disbursals[a := db.disbursals[a].(status := Success, disbursed := Some(amount))];
    if a !in db.repayments {
      db.repayments := db.repayments[a := Repayment(amount, amounts, application.terms.recoveryDate, Scheduled)];
    }
    ok := db.UpdateStatus(a, application.status, RepaymentScheduled);
    if !ok { db.Restore(before); }
  }

  method Disburse(db: Database, a: Id, env: Env) returns (ok: bool)
    modifies db
    ensures Completes(old(db.View()), Disbursals(DisbursalCall.Disburse(a)), env, db.View(), ok)
  {
    hide Alone, DisburseCommit, Pricing.ComputeRepaymentBreakdown,
         ApplicationStep, FeeStep, RepaymentStep, PayrollStep, SettlementStep, JobStep;
    ghost var before := db.View();
    AloneStep(before, Disbursals(DisbursalCall.Disburse(a)), env);
    if a !in db.disbursals { return false; }
    var disbursal := db.disbursals[a];
    if disbursal.status != Pending { return disbursal.status == Success; }
    AloneStep(before, Disbursals(DisburseApplication(a, disbursal)), env);
    if a !in db.applications { return false; }
    var application := db.applications[a];
    if application.employer in db.risk && db.risk[application.employer] == Blocked { return false; }
    AloneStep(before, Disbursals(DisburseFee(a, disbursal, application)), env);
    var cleared := PlatformFeesService.IsFeeCleared(db, a);
    if !cleared { return false; }
    var amount := disbursal.disbursed.GetOr(disbursal.approved);
    var amounts := Pricing.ComputeRepaymentBreakdown(amount, Pricing.FromColumns(application.terms));
    if !env.bankVerified { return false; }
    AloneStep(before, Disbursals(DisburseWrite(a, amount, amounts, application)), env);
    DisburseShape(before, a, amount, amounts, application);
    ok := DisburseTransaction(db, a, amount, amounts, application);
  }

  lemma DisburseShape(db: Db, a: Id, amount: Paise, amounts: Breakdown, application: Application)
    ensures var o := DisburseCommit(db, a, amount, amounts, application); !o.Read? && (o.Wrote? ==> o.rest.None?)
  {
  }
}
