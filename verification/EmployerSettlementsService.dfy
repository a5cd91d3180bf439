/** src/employer-settlements/employer-settlements.service.ts, statement by statement. */
module EmployerSettlementsService {
  import opened Wrappers
  import opened Tables
  import opened Steps
  import opened Lifecycle

  /** The loop of `updateEmployerRiskStatus`, up to its `break`. */
  method Assess(settlements: map<SettlementKey, Settlement>, keys: seq<SettlementKey>, env: Env)
    returns (risk: Risk, late: Option<SettlementKey>)
    requires forall k :: k in keys ==> k in settlements
    ensures (risk, late) == AssessRisk(keys, settlements, env, Good)
  {
    risk := Good;
    var i := 0;
    while i < |keys|
      invariant 0 <= i <= |keys|
      invariant AssessRisk(keys, settlements, env, Good) == AssessRisk(keys[i..], settlements, env, risk)
    {
      var due := settlements[keys[i]].dueDate;
      if env.now > due + env.graceDays * DAY { return Blocked, Some(keys[i]); }
      if env.now > due { risk := Warning; }
      i := i + 1;
    }
    late := None;
  }

  /** `found` is the order in which the query returned the open settlements. */
  method UpdateEmployerRiskStatus(db: Database, employer: Id, env: Env) returns (found: seq<SettlementKey>)
    modifies db`settlements, db`risk
    ensures Completes(old(db.View()), Settlements(UpdateRisk(employer)), env.(keys := found), db.View(), true)
  {
    hide Alone, AssessRisk, ApplicationStep, FeeStep, DisbursalStep, RepaymentStep, PayrollStep, JobStep;
    found := FindMany(OpenSettlements(db.View(), employer));
    ghost var env' := env.(keys := found);
    AloneStep(db.View(), Settlements(UpdateRisk(employer)), env');
    var risk, late := Assess(db.settlements, found, env);
    SameAssessment(found, db.settlements, env, env', Good);
    LateIsListed(found, db.settlements, env, Good);
    if late.Some? {
      AloneStep(db.View(), Settlements(RiskOverdueWrite(late.value)), env');
      db.settlements := db.settlements[late.value := db.settlements[late.value].(status := SettlementOverdue)];
    }
    AloneStep(db.View(), Settlements(RiskWrite(employer, risk)), env');
    db.risk := db.risk[employer := risk];
  }

  lemma {:induction false} SameAssessment(keys: seq<SettlementKey>, settlements: map<SettlementKey, Settlement>,
                                          env: Env, env': Env, soFar: Risk)
    requires forall k :: k in keys ==> k in settlements
    requires env.now == env'.now && env.graceDays == env'.graceDays
    ensures AssessRisk(keys, settlements, env, soFar) == AssessRisk(keys, settlements, env', soFar)
    decreases |keys|
  {
    if keys != [] && !(env.now > settlements[keys[0]].dueDate + env.graceDays * DAY) {
      var next := if env.now > settlements[keys[0]].dueDate then Warning else soFar;
      SameAssessment(keys[1..], settlements, env, env', next);
    }
  }

  lemma {:induction false} LateIsListed(keys: seq<SettlementKey>, settlements: map<SettlementKey, Settlement>, env: Env,
                                        soFar: Risk)
    requires forall k :: k in keys ==> k in settlements
    ensures var (risk, late) := AssessRisk(keys, settlements, env, soFar);
            late.Some? ==> late.value in keys && risk == Blocked
    decreases |keys|
  {
    if keys != [] && !(env.now > settlements[keys[0]].dueDate + env.graceDays * DAY) {
      var next := if env.now > settlements[keys[0]].dueDate then Warning else soFar;
      LateIsListed(keys[1..], settlements, env, next);
    }
  }

  /** The rows `createMany` inserts for the applications found before the status write. */
  method HistoryRows(applications: map<Id, Application>, ids: seq<Id>) returns (rows: seq<Entry>)
    ensures rows == Entries(ids, applications, Repaid)
  {
    rows := [];
    for i := 0 to |ids|
      invariant rows == Entries(ids[..i], applications, Repaid)
    {
      assert ids[..i + 1][..i] == ids[..i];
      if ids[i] in applications {
        rows := rows + [Entry(ids[i], Some(applications[ids[i]].status), Repaid)];
      }
    }
    assert ids[..|ids|] == ids;
  }

  method MarkPaidTransaction(db: Database, key: SettlementKey, items: seq<Id>) returns (transitioned: bool)
    requires key in db.settlements
    modifies db`settlements, db`applications, db`repayments, db`history
    ensures transitioned <==> MarkPaidCommit(old(db.View()), key, items).Wrote?
    ensures db.View() == After(old(db.View()), MarkPaidCommit(old(db.View()), key, items))
  {
    if db.settlements[key].status == SettlementPaid { return false; }
    db.settlements := db.settlements[key := db.settlements[key].(status := SettlementPaid, outstanding := 0)];
    if |items| > 0 {
      var rows := HistoryRows(db.applications, items);
      db.repayments :=
        map r | r in db.repayments :: if r in items then db.repayments[r].(status := Paid) else db.repayments[r];
      db.applications := map a | a in db.applications ::
        if a in items then db.applications[a].(status := Repaid) else db.applications[a];
      db.history := db.history + rows;
    } else {
      assert MarkRepaymentsPaid(db.repayments, items) == db.repayments;
      assert SetStatuses(db.applications, items, Repaid) == db.applications;
    }
    return true;
  }

  method MarkPaid(db: Database, key: SettlementKey, env: Env)
    returns (ok: bool, items: seq<Id>, found: seq<SettlementKey>)
    modifies db`settlements, db`applications, db`repayments, db`history, db`risk
    ensures Completes(old(db.View()), Settlements(SettlementCall.MarkPaid(key)), env.(rows := items, keys := found),
                      db.View(), ok)
    ensures ok <==> key in old(db.settlements)
  {
    hide Alone, UpdateRiskRead, ApplicationStep, FeeStep, DisbursalStep, RepaymentStep, PayrollStep, JobStep;
    ghost var before := db.View();
    found := [];
    items := FindMany(ItemsOf(db.View(), key));
    if key !in db.settlements || db.settlements[key].status == SettlementPaid {
      ok := key in db.settlements;
      AloneStep(before, Settlements(SettlementCall.MarkPaid(key)), env.(rows := items, keys := found));
      return;
    }
    var transitioned := MarkPaidTransaction(db, key, items);
    ghost var paid := db.View();
    found := UpdateEmployerRiskStatus(db, key.employer, env.(rows := items));
    AloneStep(before, Settlements(SettlementCall.MarkPaid(key)), env.(rows := items, keys := found));
    AloneStep(before, Settlements(MarkPaidWrite(key, items)), env.(rows := items, keys := found));
    return true, items, found;
  }
}
