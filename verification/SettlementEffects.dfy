/** What assessing an employer and paying its settlement do with nothing beside them, written out row by row. */
module SettlementEffects {
  import opened Wrappers
  import opened Tables
  import opened Steps
  import opened Lifecycle
  import LedgerSteps
  import RiskLaws

  /** The rows are the employer's settlements that are GENERATED, PARTIALLY_PAID or OVERDUE, each once. */
  ghost predicate ListsOpen(db: Db, keys: seq<SettlementKey>, employer: Id) {
    && (forall i, j :: 0 <= i < j < |keys| ==> keys[i] != keys[j])
    && (forall k :: k in keys <==> IsOpen(db, k, employer))
  }

  ghost predicate IsOpen(db: Db, k: SettlementKey, employer: Id) {
    && k in db.settlements && k.employer == employer
    && (db.settlements[k].status == Generated || db.settlements[k].status == PartiallyPaid
        || db.settlements[k].status == SettlementOverdue)
  }

  lemma OpenIsListed(db: Db, keys: seq<SettlementKey>, employer: Id)
    ensures IsListing(keys, OpenSettlements(db, employer)) <==> ListsOpen(db, keys, employer)
  {
    assert forall k :: k in OpenSettlements(db, employer) <==> IsOpen(db, k, employer);
  }

  /** The assessment throws only for an answer that lists other rows than the query's. It writes the employer's risk:
      BLOCKED if and only if an open settlement is more than the grace period past its due date, else WARNING if and
      only if one is past its due date, else GOOD. With BLOCKED the first row that late becomes OVERDUE; nothing else
      changes. */
  lemma RiskEffect(db: Db, employer: Id, env: Env)
    ensures var after := Alone(db, Settlements(UpdateRisk(employer)), env);
            var db' := after.db;
            && (after.threw <==> !ListsOpen(db, env.keys, employer))
            && (after.threw ==> db' == db)
            && (!after.threw ==>
                  && db' == db.(risk := db'.risk, settlements := db'.settlements)
                  && db'.risk.Keys == db.risk.Keys + {employer}
                  && (forall e: Id :: e in db.risk && e != employer ==> db'.risk[e] == db.risk[e])
                  && (db'.risk[employer] == Blocked <==>
                      exists k :: IsOpen(db, k, employer)
                                  && env.now > db.settlements[k].dueDate + env.graceDays * 86400000)
                  && (db'.risk[employer] == Warning <==>
                      db'.risk[employer] != Blocked
                      && exists k :: IsOpen(db, k, employer) && env.now > db.settlements[k].dueDate)
                  && (db'.risk[employer] != Blocked ==> db'.settlements == db.settlements)
                  && (db'.risk[employer] == Blocked ==>
                        exists i ::
                          && 0 <= i < |env.keys| && IsOpen(db, env.keys[i], employer)
                          && env.now > db.settlements[env.keys[i]].dueDate + env.graceDays * 86400000
                          && (forall j :: 0 <= j < i ==>
                                IsOpen(db, env.keys[j], employer)
                                && env.now <= db.settlements[env.keys[j]].dueDate + env.graceDays * 86400000)
                          && db'.settlements == db.settlements[env.keys[i] :=
                               db.settlements[env.keys[i]].(status := SettlementOverdue)]))
  {
    hide Alone, AssessRisk, IsListing, OpenSettlements, ListsOpen, IsOpen;
    OpenIsListed(db, env.keys, employer);
    if ListsOpen(db, env.keys, employer) {
      Opened(db, env.keys, employer);
      RiskLaws.RiskRuns(db, employer, env);
      RiskLaws.RiskMeaning(env.keys, db.settlements, env, Good);
      if AssessRisk(env.keys, db.settlements, env, Good).1.Some? {
        var i := StopsAtFirst(env.keys, db.settlements, env, Good);
        assert forall j :: 0 <= j <= i ==> env.keys[j] in env.keys;
      }
    } else {
      NotListedThrows(db, employer, env);
    }
  }

  /** The settlement the loop stops at is the first one past its grace period. */
  lemma {:induction false} StopsAtFirst(keys: seq<SettlementKey>, settlements: map<SettlementKey, Settlement>, env: Env,
                                        soFar: Risk) returns (i: nat)
    requires forall k :: k in keys ==> k in settlements
    requires AssessRisk(keys, settlements, env, soFar).1.Some?
    ensures i < |keys| && AssessRisk(keys, settlements, env, soFar).1 == Some(keys[i])
    ensures env.now > settlements[keys[i]].dueDate + env.graceDays * DAY
    ensures forall j :: 0 <= j < i ==> env.now <= settlements[keys[j]].dueDate + env.graceDays * DAY
    decreases |keys|
  {
    i := 0;
    if env.now <= settlements[keys[0]].dueDate + env.graceDays * DAY {
      var next := if env.now > settlements[keys[0]].dueDate then Warning else soFar;
      i := StopsAtFirst(keys[1..], settlements, env, next);
      i := i + 1;
    }
  }

  lemma Opened(db: Db, keys: seq<SettlementKey>, employer: Id)
    requires ListsOpen(db, keys, employer)
    ensures forall k :: k in keys <==> IsOpen(db, k, employer)
    ensures forall k :: k in keys ==> k in db.settlements && k.employer == employer
  {
  }

  lemma NotListedThrows(db: Db, employer: Id, env: Env)
    requires !IsListing(env.keys, OpenSettlements(db, employer))
    ensures Alone(db, Settlements(UpdateRisk(employer)), env) == Finished(db, true)
  {
    hide Alone, AssessRisk, IsListing, ApplicationStep, FeeStep, DisbursalStep, RepaymentStep, PayrollStep, JobStep;
    AloneStep(db, Settlements(UpdateRisk(employer)), env);
  }

  // Paying

  ghost predicate IsItem(db: Db, r: Id, key: SettlementKey) {
    r in db.lineItems && db.lineItems[r].settlement == key
  }

  /** The rows are the settlement's line items, each once. */
  ghost predicate ListsItems(db: Db, rows: seq<Id>, key: SettlementKey) {
    && (forall i, j :: 0 <= i < j < |rows| ==> rows[i] != rows[j])
    && (forall r: Id :: r in rows <==> IsItem(db, r, key))
  }

  /** The settlement is PAID with nothing outstanding, the repayments of its line items PAID, their applications
      REPAID. */
  ghost predicate SettlesWith(db: Db, db': Db, key: SettlementKey)
    requires key in db.settlements
  {
    && key in db'.settlements
    && db'.settlements[key] == db.settlements[key].(status := SettlementPaid, outstanding := 0)
    && db'.repayments.Keys == db.repayments.Keys
    && (forall r: Id :: r in db.repayments ==>
          db'.repayments[r] == if IsItem(db, r, key) then db.repayments[r].(status := Paid) else db.repayments[r])
    && db'.applications.Keys == db.applications.Keys
    && (forall a: Id :: a in db.applications ==>
          db'.applications[a]
          == if IsItem(db, a, key) then db.applications[a].(status := Repaid) else db.applications[a])
  }

  /** One more history entry for each application in the settlement, from the status it had to REPAID, and no
      other. */
  ghost predicate RecordsOnce(db: Db, db': Db, key: SettlementKey) {
    var n := |db.history|;
    && db.history <= db'.history
    && (forall i :: n <= i < |db'.history| ==>
          var a := db'.history[i].application;
          IsItem(db, a, key) && a in db.applications
          && db'.history[i] == Entry(a, Some(db.applications[a].status), Repaid))
    && (forall i, j :: n <= i < j < |db'.history| ==> db'.history[i].application != db'.history[j].application)
    && (forall a: Id :: IsItem(db, a, key) && a in db.applications ==>
          exists i :: n <= i < |db'.history| && db'.history[i].application == a)
  }

  ghost predicate DistinctApplications(es: seq<Entry>) {
    forall i, j :: 0 <= i < j < |es| ==> es[i].application != es[j].application
  }

  lemma DistinctAppend(es: seq<Entry>, e: Entry)
    requires DistinctApplications(es) && forall x :: x in es ==> x.application != e.application
    ensures DistinctApplications(es + [e])
  {
  }

  lemma {:induction false} EntriesDistinct(ids: seq<Id>, applications: map<Id, Application>, next: Status)
    requires forall i, j :: 0 <= i < j < |ids| ==> ids[i] != ids[j]
    ensures DistinctApplications(Entries(ids, applications, next))
    decreases |ids|
  {
    hide DistinctApplications;
    if ids == [] {
      NoEntries();
    } else {
      var init, a := ids[..|ids| - 1], ids[|ids| - 1];
      EntriesDistinct(init, applications, next);
      LedgerSteps.EntriesMeaning(init, applications, next);
      assert a !in init;
      var rest := Entries(init, applications, next);
      if a in applications {
        DistinctAppend(rest, Entry(a, Some(applications[a].status), next));
      } else {
        assert rest + [] == rest;
      }
    }
  }

  lemma NoEntries()
    ensures DistinctApplications([])
  {
  }

  lemma ItemsRecorded(db: Db, db': Db, key: SettlementKey, ids: seq<Id>)
    requires ListsItems(db, ids, key) && db'.history == db.history + Entries(ids, db.applications, Repaid)
    ensures RecordsOnce(db, db', key)
  {
    hide Entries;
    LedgerSteps.EntriesMeaning(ids, db.applications, Repaid);
    EntriesDistinct(ids, db.applications, Repaid);
    var n, es := |db.history|, Entries(ids, db.applications, Repaid);
    forall i | n <= i < |db'.history|
      ensures db'.history[i] == es[i - n] && es[i - n] in es
    {
    }
    forall a: Id | IsItem(db, a, key) && a in db.applications
      ensures exists i :: n <= i < |db'.history| && db'.history[i].application == a
    {
      var e := Entry(a, Some(db.applications[a].status), Repaid);
      assert a in ids && e in es;
      var i :| 0 <= i < |es| && es[i] == e;
      assert db'.history[n + i] == e;
    }
  }

  lemma PaidOnce(db: Db, key: SettlementKey, ids: seq<Id>)
    requires key in db.settlements && db.settlements[key].status != SettlementPaid && ListsItems(db, ids, key)
    ensures var o := MarkPaidCommit(db, key, ids);
            && o.Wrote? && o.rest == Some(Settlements(UpdateRisk(key.employer)))
            && SettlesWith(db, o.db, key) && RecordsOnce(db, o.db, key)
            && o.db == db.(settlements := o.db.settlements, repayments := o.db.repayments,
                           applications := o.db.applications, history := o.db.history)
            && o.db.settlements == db.settlements[key := o.db.settlements[key]]
  {
    hide Entries, RecordsOnce;
    ItemsRecorded(db, MarkPaidCommit(db, key, ids).db, key, ids);
  }

  lemma ItemsListed(db: Db, rows: seq<Id>, key: SettlementKey)
    ensures IsListing(rows, ItemsOf(db, key)) <==> ListsItems(db, rows, key)
  {
    assert forall r: Id :: r in ItemsOf(db, key) <==> IsItem(db, r, key);
  }

  /** No settlement, no answer; a PAID one is left alone. Any other is paid once, with its repayments, applications and
      history rows and nothing else, and then the employer is assessed on what that left. */
  lemma MarkPaidEffect(db: Db, key: SettlementKey, env: Env) returns (paid: Db)
    ensures var after := Alone(db, Settlements(MarkPaid(key)), env);
            if key !in db.settlements || !ListsItems(db, env.rows, key) then after == Finished(db, true)
            else if db.settlements[key].status == SettlementPaid then after == Finished(db, false)
            else
              && after == Alone(paid, Settlements(UpdateRisk(key.employer)), env)
              && SettlesWith(db, paid, key) && RecordsOnce(db, paid, key)
              && paid == db.(settlements := paid.settlements, repayments := paid.repayments,
                             applications := paid.applications, history := paid.history)
              && paid.settlements == db.settlements[key := paid.settlements[key]]
  {
    hide Alone, MarkPaidCommit, ListsItems, ItemsOf, IsListing, SettlesWith, RecordsOnce, UpdateRiskRead,
         ApplicationStep, FeeStep, DisbursalStep, RepaymentStep, PayrollStep, JobStep;
    paid := db;
    AloneStep(db, Settlements(MarkPaid(key)), env);
    AloneStep(db, Settlements(MarkPaidWrite(key, env.rows)), env);
    ItemsListed(db, env.rows, key);
    if key in db.settlements && db.settlements[key].status != SettlementPaid && ListsItems(db, env.rows, key) {
      PaidOnce(db, key, env.rows);
      paid := MarkPaidCommit(db, key, env.rows).db;
    }
  }

  /** The same by settlement: those that changed. */
  lemma Assessed(db: Db, employer: Id, env: Env)
    requires !Alone(db, Settlements(UpdateRisk(employer)), env).threw
    ensures var db' := Alone(db, Settlements(UpdateRisk(employer)), env).db;
            && db' == db.(risk := db'.risk, settlements := db'.settlements)
            && db'.settlements.Keys == db.settlements.Keys
            && (forall k :: k in db.settlements && db'.settlements[k] != db.settlements[k] ==>
                  IsOpen(db, k, employer)
                  && env.now > db.settlements[k].dueDate + env.graceDays * 86400000
                  && db'.settlements[k] == db.settlements[k].(status := SettlementOverdue))
            && employer in db'.risk
            && (db'.risk[employer] == Blocked <==>
                exists k :: IsOpen(db, k, employer)
                            && env.now > db.settlements[k].dueDate + env.graceDays * 86400000)
  {
    hide Alone, ListsOpen;
    RiskEffect(db, employer, env);
  }

  /** What is left of a settlement paid alone: the settlement, its repayments and their applications are paid for good
      by the whole call, every new history entry is theirs, and of the other settlements only open ones of the
      employer past their grace period may have changed, to OVERDUE. */
  lemma SettlementPaidEffect(db: Db, key: SettlementKey, env: Env)
    requires key in db.settlements && db.settlements[key].status != SettlementPaid
    requires !Alone(db, Settlements(MarkPaid(key)), env).threw
    ensures var db' := Alone(db, Settlements(MarkPaid(key)), env).db;
            && SettlesWith(db, db', key) && RecordsOnce(db, db', key)
            && db' == db.(settlements := db'.settlements, repayments := db'.repayments, risk := db'.risk,
                          applications := db'.applications, history := db'.history)
            && db'.settlements.Keys == db.settlements.Keys
            && (forall k :: k in db.settlements && k != key && db'.settlements[k] != db.settlements[k] ==>
                  IsOpen(db, k, key.employer)
                  && env.now > db.settlements[k].dueDate + env.graceDays * 86400000
                  && db'.settlements[k] == db.settlements[k].(status := SettlementOverdue))
  {
    hide *;
    var paid := MarkPaidEffect(db, key, env);
    Assessed(paid, key.employer, env);
    PaidAndAssessed(db, paid, Alone(db, Settlements(MarkPaid(key)), env).db, key, env);
  }

  lemma PaidAndAssessed(db: Db, paid: Db, db': Db, key: SettlementKey, env: Env)
    requires key in db.settlements && SettlesWith(db, paid, key) && RecordsOnce(db, paid, key)
    requires paid == db.(settlements := paid.settlements, repayments := paid.repayments,
                         applications := paid.applications, history := paid.history)
    requires paid.settlements == db.settlements[key := paid.settlements[key]]
    requires db' == paid.(risk := db'.risk, settlements := db'.settlements)
    requires db'.settlements.Keys == paid.settlements.Keys
    requires forall k :: k in paid.settlements && db'.settlements[k] != paid.settlements[k] ==>
               IsOpen(paid, k, key.employer)
               && env.now > paid.settlements[k].dueDate + env.graceDays * 86400000
               && db'.settlements[k] == paid.settlements[k].(status := SettlementOverdue)
    ensures SettlesWith(db, db', key) && RecordsOnce(db, db', key)
    ensures db' == db.(settlements := db'.settlements, repayments := db'.repayments, risk := db'.risk,
                       applications := db'.applications, history := db'.history)
    ensures db'.settlements.Keys == db.settlements.Keys
    ensures forall k :: k in db.settlements && k != key && db'.settlements[k] != db.settlements[k] ==>
              IsOpen(db, k, key.employer)
              && env.now > db.settlements[k].dueDate + env.graceDays * 86400000
              && db'.settlements[k] == db.settlements[k].(status := SettlementOverdue)
  {
    hide SettlesWith, RecordsOnce, IsOpen;
    SameOpen(db, paid, key);
    StaysSettled(db, paid, db', key);
  }

  /** And the employer is BLOCKED afterwards if and only if another of its open settlements is past its grace
      period. */
  lemma BlockedAfterPaying(db: Db, key: SettlementKey, env: Env)
    requires key in db.settlements && db.settlements[key].status != SettlementPaid
    requires !Alone(db, Settlements(MarkPaid(key)), env).threw
    ensures var risk := Alone(db, Settlements(MarkPaid(key)), env).db.risk;
            && key.employer in risk
            && (risk[key.employer] == Blocked <==>
                exists k :: k != key && IsOpen(db, k, key.employer)
                            && env.now > db.settlements[k].dueDate + env.graceDays * 86400000)
  {
    hide *;
    var paid := MarkPaidEffect(db, key, env);
    Assessed(paid, key.employer, env);
    SameOpen(db, paid, key);
  }

  lemma StaysSettled(db: Db, paid: Db, db': Db, key: SettlementKey)
    requires key in db.settlements && SettlesWith(db, paid, key) && RecordsOnce(db, paid, key)
    requires key in db'.settlements && db'.settlements[key] == paid.settlements[key]
    requires db' == paid.(settlements := db'.settlements, risk := db'.risk)
    ensures SettlesWith(db, db', key) && RecordsOnce(db, db', key)
  {
  }

  lemma SameOpen(db: Db, paid: Db, key: SettlementKey)
    requires key in db.settlements && SettlesWith(db, paid, key)
    requires paid.settlements == db.settlements[key := paid.settlements[key]]
    ensures forall k, e: Id :: IsOpen(paid, k, e) <==> k != key && IsOpen(db, k, e)
    ensures forall k, e: Id :: IsOpen(paid, k, e) ==> k in paid.settlements
    ensures forall k :: k in db.settlements && k != key ==> paid.settlements[k] == db.settlements[k]
  {
  }
}
