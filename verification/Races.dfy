/** Why the serial laws are not interleaved laws: schedules on which they fail, from any lawful state in which the
    calls have something to do. */
module Races {
  import opened Wrappers
  import opened Tables
  import opened Steps
  import opened Lifecycle
  import opened LedgerInvariant
  import opened SerialInvariant
  import opened SerialLaws

  /** The overdue job reads a scheduled repayment, the repayment is paid, and the job's write lands last. */
  function PayDuringOverdueJob(r: Id, env: Env): seq<Action> {
    [Begin(0, Jobs(RepaymentsOverdue)), Resume(0, env),
     Begin(1, Repayments(Pay(r))), Resume(1, env), Resume(1, env),
     Resume(0, env)]
  }

  lemma Run6(w: World, s: seq<Action>)
    requires |s| == 6
    ensures Run(w, s) == Step(Step(Step(Step(Step(Step(w, s[0]), s[1]), s[2]), s[3]), s[4]), s[5])
  {
    hide Step;
    assert s[..5][..4] == s[..4] && s[..4][..3] == s[..3] && s[..3][..2] == s[..2] && s[..2][..1] == s[..1]
        && s[..1][..0] == [];
    assert Run(w, s[..1]) == Step(Run(w, []), s[0]) by { assert s[..1][..0] == []; }
    assert Run(w, s[..3]) == Step(Run(w, s[..2]), s[2]);
    assert Run(w, s[..5]) == Step(Run(w, s[..4]), s[4]);
  }

  lemma Begins(w: World, id: nat, c: Call)
    requires id !in w.calls && IsRequest(c)
    ensures Step(w, Begin(id, c)) == World(w.db, w.calls[id := c])
  {
    hide Advance;
  }

  lemma Reads(w: World, id: nat, env: Env, next: Call)
    requires id in w.calls && Advance(w.db, w.calls[id], env) == Read(next)
    ensures Step(w, Resume(id, env)) == World(w.db, w.calls[id := next])
  {
    hide Advance;
  }

  lemma Commits(w: World, id: nat, env: Env, db': Db)
    requires id in w.calls && Advance(w.db, w.calls[id], env) == Wrote(db', None)
    ensures Step(w, Resume(id, env)) == World(db', w.calls - {id})
  {
    hide Advance;
  }

  lemma PaymentCommits(db: Db, r: Id)
    requires r in db.repayments && db.repayments[r].status == Scheduled && r in db.applications
    ensures PayCommit(db, r).Wrote? && PayCommit(db, r).rest == None
    ensures var db' := PayCommit(db, r).db;
            && r in db'.applications && db'.applications[r].status == Repaid
            && r in db'.repayments && db'.repayments[r].status == Paid
  {
  }

  /** From every lawful state with a late repayment, the job takes the payment back: REPAID with an OVERDUE
      repayment. */
  lemma OverdueJobUndoesPayment(db: Db, r: Id, env: Env)
    requires SerialInv(db)
    requires r in db.repayments && db.repayments[r].status == Scheduled && db.repayments[r].dueDate < env.now
    ensures var db' := Run(World(db, map[]), PayDuringOverdueJob(r, env)).db;
            && r in db'.applications && db'.applications[r].status == Repaid
            && r in db'.repayments && db'.repayments[r].status == Overdue
            && !SerialInv(db')
  {
    hide SerialInv, Step, Run, Advance, PayCommit, LateRepayments;
    var w, s := World(db, map[]), PayDuringOverdueJob(r, env);
    OwedByApplication(db, r);
    PaymentCommits(db, r);
    var overdue, paid := LateRepayments(db, env.now), PayCommit(db, r).db;
    OverdueJobAndPay(db, paid, r, env);
    var start, job := Jobs(RepaymentsOverdue), map[0 := Jobs(RepaymentsOverdueWrite(overdue))];
    var w1, w2 := World(db, map[0 := start]), World(db, job);
    var w3, w4, w5 :=
      World(db, job[1 := Repayments(Pay(r))]), World(db, job[1 := Repayments(PayWrite(r))]), World(paid, job);
    var late := RepaymentsOverdueCommit(paid, overdue).db;
    Begins(w, 0, start);
    Reads(w1, 0, env, job[0]);
    assert w1.calls[0 := job[0]] == job;
    Begins(w2, 1, Repayments(Pay(r)));
    Reads(w3, 1, env, Repayments(PayWrite(r)));
    assert w3.calls[1 := Repayments(PayWrite(r))] == w4.calls;
    Commits(w4, 1, env, paid);
    assert w4.calls - {1} == job;
    Commits(w5, 0, env, late);
    Run6(w, s);
    assert Run(w, s).db == late;
    RepaidButOverdue(late, r);
  }

  lemma OverdueJobAndPay(db: Db, paid: Db, r: Id, env: Env)
    requires r in db.repayments && db.repayments[r].status == Scheduled && db.repayments[r].dueDate < env.now
    ensures var overdue := LateRepayments(db, env.now);
            && r in overdue
            && Advance(db, Jobs(RepaymentsOverdue), env) == Read(Jobs(RepaymentsOverdueWrite(overdue)))
            && Advance(paid, Jobs(RepaymentsOverdueWrite(overdue)), env) == RepaymentsOverdueCommit(paid, overdue)
    ensures Advance(db, Repayments(Pay(r)), env) == Read(Repayments(PayWrite(r)))
    ensures Advance(db, Repayments(PayWrite(r)), env) == PayCommit(db, r)
  {
    hide PayCommit;
    assert r in LateRepayments(db, env.now);
  }

  lemma OwedByApplication(db: Db, r: Id)
    requires SerialInv(db) && r in db.repayments
    ensures r in db.applications
  {
  }

  lemma RepaidButOverdue(db: Db, r: Id)
    requires r in db.applications && db.applications[r].status == Repaid
    requires r in db.repayments && db.repayments[r].status == Overdue
    ensures !SerialInv(db)
  {
  }

  /** The employee cancels while the employer approves. */
  function CancelDuringApproval(a: Id, employee: Id, employer: Id, env: Env): seq<Action> {
    [Begin(0, Applications(Cancel(a, employee))), Resume(0, env),
     Begin(1, Applications(EmployerApprove(a, employer))), Resume(1, env), Resume(1, env), Resume(1, env),
     Resume(0, env)]
  }

  lemma Run7(w: World, s: seq<Action>)
    requires |s| == 7
    ensures Run(w, s) == Step(Step(Step(Step(Step(Step(Step(w, s[0]), s[1]), s[2]), s[3]), s[4]), s[5]), s[6])
  {
    hide Step;
    Run6(w, s[..6]);
  }

  lemma ApprovalCommits(db: Db, a: Id, feeAmount: Option<Paise>)
    requires a in db.applications && IndexAllows(db, a, AwaitingPlatformFee) && (a in db.fees || feeAmount.Some?)
    ensures var o := EmployerApproveCommit(db, a, db.applications[a], feeAmount);
            && o.Wrote? && o.rest == None && a in o.db.applications && a in o.db.fees
            && o.db.history == db.history + [Entry(a, Some(Submitted), AwaitingPlatformFee)]
  {
  }

  lemma CancelCommits(db: Db, a: Id)
    requires a in db.applications
    ensures StatusWrite(db, a, Submitted, Cancelled) == Wrote(Move(db, a, Some(Submitted), Cancelled), None)
  {
  }

  lemma CancelAndApprove(db: Db, approved: Db, a: Id, env: Env)
    requires a in db.applications && db.applications[a].status == Submitted
    requires !exists b :: b in db.applications && b != a && db.applications[b].employee == db.applications[a].employee
                          && InProgress(db.applications[b].status)
    ensures var app := db.applications[a];
            && Advance(db, Applications(Cancel(a, app.employee)), env) == Read(Applications(CancelWrite(a)))
            && Advance(db, Applications(EmployerApprove(a, app.employer)), env)
               == Read(Applications(EmployerApproveCheck(a, app)))
            && Advance(db, Applications(EmployerApproveCheck(a, app)), env)
               == Read(Applications(EmployerApproveWrite(a, app)))
            && Advance(db, Applications(EmployerApproveWrite(a, app)), env)
               == EmployerApproveCommit(db, a, app, env.feeAmount)
    ensures Advance(approved, Applications(CancelWrite(a)), env) == StatusWrite(approved, a, Submitted, Cancelled)
  {
    hide EmployerApproveCommit, StatusWrite;
  }

  /** From every lawful state with a submitted application, both go through: the approval's fee is asked of a
      cancelled application, and the history is no longer a chain. */
  lemma CancelAndApproveBothCommit(db: Db, a: Id, env: Env)
    requires SerialInv(db) && a in db.applications && db.applications[a].status == Submitted
    requires a in db.fees || env.feeAmount.Some?
    ensures var s := CancelDuringApproval(a, db.applications[a].employee, db.applications[a].employer, env);
            var db' := Run(World(db, map[]), s).db;
            && db'.history
               == db.history + [Entry(a, Some(Submitted), AwaitingPlatformFee), Entry(a, Some(Submitted), Cancelled)]
            && a in db'.applications && db'.applications[a].status == Cancelled && a in db'.fees
            && !Chained(db'.history)
  {
    hide SerialInv, Step, Run, Advance, StatusWrite, EmployerApproveCommit, IndexAllows, Chained;
    var app := db.applications[a];
    OnlyActive(db, a);
    var w, s := World(db, map[]), CancelDuringApproval(a, app.employee, app.employer, env);
    ApprovalCommits(db, a, env.feeAmount);
    var approved := EmployerApproveCommit(db, a, app, env.feeAmount).db;
    CancelAndApprove(db, approved, a, env);
    CancelCommits(approved, a);
    var start, cancel := Applications(Cancel(a, app.employee)), map[0 := Applications(CancelWrite(a))];
    var read, checked := Applications(EmployerApproveCheck(a, app)), Applications(EmployerApproveWrite(a, app));
    var w1, w2, w3 :=
      World(db, map[0 := start]), World(db, cancel),
      World(db, cancel[1 := Applications(EmployerApprove(a, app.employer))]);
    var w4, w5, w6 := World(db, cancel[1 := read]), World(db, cancel[1 := checked]), World(approved, cancel);
    var done := Move(approved, a, Some(Submitted), Cancelled);
    Begins(w, 0, start);
    Reads(w1, 0, env, cancel[0]);
    assert w1.calls[0 := cancel[0]] == cancel;
    Begins(w2, 1, Applications(EmployerApprove(a, app.employer)));
    Reads(w3, 1, env, read);
    assert w3.calls[1 := read] == w4.calls;
    Reads(w4, 1, env, checked);
    assert w4.calls[1 := checked] == w5.calls;
    Commits(w5, 1, env, approved);
    assert w5.calls - {1} == cancel;
    Commits(w6, 0, env, done);
    Run7(w, s);
    assert Run(w, s).db == done;
    BrokenChain(db.history, a);
  }

  lemma OnlyActive(db: Db, a: Id)
    requires SerialInv(db) && a in db.applications && db.applications[a].status == Submitted
    ensures IndexAllows(db, a, AwaitingPlatformFee)
    ensures !exists b :: b in db.applications && b != a && db.applications[b].employee == db.applications[a].employee
                         && InProgress(db.applications[b].status)
  {
    assert OneActiveAdvance(db.applications);
  }

  lemma BrokenChain(history: seq<Entry>, a: Id)
    ensures !Chained(history + [Entry(a, Some(Submitted), AwaitingPlatformFee), Entry(a, Some(Submitted), Cancelled)])
  {
    var h := history + [Entry(a, Some(Submitted), AwaitingPlatformFee)];
    var h' := history + [Entry(a, Some(Submitted), AwaitingPlatformFee), Entry(a, Some(Submitted), Cancelled)];
    assert h'[..|h|] == h;
    NewestAppend(history, Entry(a, Some(Submitted), AwaitingPlatformFee), a);
    assert h'[|h|].previous != Newest(h'[..|h|], a);
  }

  // A settlement paid during an assessment or a job

  lemma Continues(w: World, id: nat, env: Env, db': Db, rest: Call)
    requires id in w.calls && Advance(w.db, w.calls[id], env) == Wrote(db', Some(rest))
    ensures Step(w, Resume(id, env)) == World(db', w.calls[id := rest])
  {
    hide Advance;
  }

  /** A call reads, the settlement is paid, and the call's write lands last. */
  function MarkPaidDuring(start: Call, key: SettlementKey, env: Env): seq<Action> {
    [Begin(0, start), Resume(0, env),
     Begin(1, Settlements(MarkPaid(key))), Resume(1, env), Resume(1, env),
     Resume(0, env)]
  }

  lemma PaymentOvertakes(db: Db, start: Call, late: Call, key: SettlementKey, env: Env)
    requires IsRequest(start) && Advance(db, start, env) == Read(late)
    requires key in db.settlements && db.settlements[key].status != SettlementPaid
    requires IsListing(env.rows, ItemsOf(db, key))
    requires Advance(MarkPaidCommit(db, key, env.rows).db, late, env).Wrote?
    ensures Run(World(db, map[]), MarkPaidDuring(start, key, env)).db
            == Advance(MarkPaidCommit(db, key, env.rows).db, late, env).db
  {
    hide Step, Run, Advance, MarkPaidCommit, IsRequest;
    var w, s := World(db, map[]), MarkPaidDuring(start, key, env);
    var pay, write := Settlements(MarkPaid(key)), Settlements(MarkPaidWrite(key, env.rows));
    SettlementPays(db, key, env);
    var paid, rest := MarkPaidCommit(db, key, env.rows).db, Settlements(UpdateRisk(key.employer));
    var job := map[0 := late];
    var w1, w2, w3, w4, w5 :=
      World(db, map[0 := start]), World(db, job), World(db, job[1 := pay]),
      World(db, job[1 := write]), World(paid, job[1 := rest]);
    Begins(w, 0, start);
    Reads(w1, 0, env, late);
    assert w1.calls[0 := late] == job;
    Begins(w2, 1, pay);
    Reads(w3, 1, env, write);
    assert w3.calls[1 := write] == w4.calls;
    Continues(w4, 1, env, paid, rest);
    assert w4.calls[1 := rest] == w5.calls;
    LastWrite(w5, 0, env);
    Run6(w, s);
  }

  lemma LastWrite(w: World, id: nat, env: Env)
    requires id in w.calls && Advance(w.db, w.calls[id], env).Wrote?
    ensures Step(w, Resume(id, env)).db == Advance(w.db, w.calls[id], env).db
  {
    hide Advance;
  }

  lemma SettlementPays(db: Db, key: SettlementKey, env: Env)
    requires key in db.settlements && db.settlements[key].status != SettlementPaid
    requires IsListing(env.rows, ItemsOf(db, key))
    ensures IsRequest(Settlements(MarkPaid(key)))
    ensures Advance(db, Settlements(MarkPaid(key)), env) == Read(Settlements(MarkPaidWrite(key, env.rows)))
    ensures Advance(db, Settlements(MarkPaidWrite(key, env.rows)), env)
            == Wrote(MarkPaidCommit(db, key, env.rows).db, Some(Settlements(UpdateRisk(key.employer))))
    ensures MarkPaidCommit(db, key, env.rows).Wrote?
    ensures var paid := MarkPaidCommit(db, key, env.rows).db.settlements;
            key in paid && paid[key] == db.settlements[key].(status := SettlementPaid, outstanding := 0)
  {
    hide ItemsOf, IsListing, MarkRepaymentsPaid, SetStatuses, Entries;
  }

  /** An overdue settlement that owes nothing although it has a total. */
  predicate OverdueWithNothingOwed(db: Db, key: SettlementKey) {
    key in db.settlements && db.settlements[key].status == SettlementOverdue && db.settlements[key].outstanding == 0
  }

  lemma NothingOwedBreaks(db: Db, key: SettlementKey)
    requires OverdueWithNothingOwed(db, key) && db.settlements[key].total != 0
    ensures !SerialInv(db)
  {
  }

  /** From every lawful state in which an assessment finds a settlement past grace, paying it before the assessment
      writes leaves it OVERDUE with nothing outstanding. */
  lemma AssessmentUndoesSettlement(db: Db, key: SettlementKey, env: Env)
    requires SerialInv(db) && key in db.settlements && IsListing(env.rows, ItemsOf(db, key))
    requires IsListing(env.keys, OpenSettlements(db, key.employer))
    requires AssessRisk(env.keys, db.settlements, env, Good).1 == Some(key)
    requires db.settlements[key].status != SettlementPaid
    ensures var db' := Run(World(db, map[]), MarkPaidDuring(Settlements(UpdateRisk(key.employer)), key, env)).db;
            && OverdueWithNothingOwed(db', key) && db'.settlements[key].total == db.settlements[key].total
            && (db.settlements[key].total != 0 ==> !SerialInv(db'))
  {
    hide SerialInv, Run, Step, Advance, MarkPaidCommit, AssessRisk, IsListing, ItemsOf, OpenSettlements;
    var start, late := Settlements(UpdateRisk(key.employer)), Settlements(RiskOverdueWrite(key));
    SettlementPays(db, key, env);
    AssessmentSteps(db, MarkPaidCommit(db, key, env.rows).db, key, env);
    PaymentOvertakes(db, start, late, key, env);
    var db' := Run(World(db, map[]), MarkPaidDuring(start, key, env)).db;
    if db.settlements[key].total != 0 { NothingOwedBreaks(db', key); }
  }

  lemma AssessmentSteps(db: Db, paid: Db, key: SettlementKey, env: Env)
    requires IsListing(env.keys, OpenSettlements(db, key.employer))
    requires AssessRisk(env.keys, db.settlements, env, Good).1 == Some(key) && key in paid.settlements
    ensures Advance(db, Settlements(UpdateRisk(key.employer)), env) == Read(Settlements(RiskOverdueWrite(key)))
    ensures Advance(paid, Settlements(RiskOverdueWrite(key)), env)
            == Wrote(paid.(settlements := paid.settlements[key := paid.settlements[key].(status := SettlementOverdue)]),
                     Some(Settlements(RiskWrite(key.employer, Blocked))))
  {
    hide AssessRisk;
  }

  /** From every lawful state with a late settlement, paying it before the overdue job writes does the same. */
  lemma OverdueJobUndoesSettlement(db: Db, key: SettlementKey, env: Env)
    requires SerialInv(db) && IsListing(env.rows, ItemsOf(db, key))
    requires key in db.settlements && db.settlements[key].dueDate < env.now
    requires db.settlements[key].status == Generated || db.settlements[key].status == PartiallyPaid
    ensures var db' := Run(World(db, map[]), MarkPaidDuring(Jobs(SettlementsOverdue), key, env)).db;
            && OverdueWithNothingOwed(db', key) && db'.settlements[key].total == db.settlements[key].total
            && (db.settlements[key].total != 0 ==> !SerialInv(db'))
  {
    LateIsFound(db, key, env);
    hide SerialInv, Run, Step, Advance, MarkPaidCommit, IsListing, ItemsOf, LateSettlements;
    var start, late := Jobs(SettlementsOverdue), Jobs(SettlementsOverdueWrite(LateSettlements(db, env.now)));
    SettlementPays(db, key, env);
    var paid := MarkPaidCommit(db, key, env.rows).db;
    JobSteps(db, paid, key, env);
    PaymentOvertakes(db, start, late, key, env);
    var db' := Run(World(db, map[]), MarkPaidDuring(start, key, env)).db;
    if db.settlements[key].total != 0 { NothingOwedBreaks(db', key); }
  }

  lemma LateIsFound(db: Db, key: SettlementKey, env: Env)
    requires key in db.settlements && db.settlements[key].dueDate < env.now
    requires db.settlements[key].status == Generated || db.settlements[key].status == PartiallyPaid
    ensures key in LateSettlements(db, env.now)
  {
  }

  lemma JobSteps(db: Db, paid: Db, key: SettlementKey, env: Env)
    requires key in LateSettlements(db, env.now) && key in paid.settlements
    ensures var late := LateSettlements(db, env.now);
            && Advance(db, Jobs(SettlementsOverdue), env) == Read(Jobs(SettlementsOverdueWrite(late)))
            && Advance(paid, Jobs(SettlementsOverdueWrite(late)), env).Wrote?
            && (var after := Advance(paid, Jobs(SettlementsOverdueWrite(late)), env).db.settlements;
                key in after && after[key] == paid.settlements[key].(status := SettlementOverdue))
  {
    hide LateSettlements;
  }

  // Two submissions at once

  /** Both submissions of one employee pass the gate before either is written. */
  function SubmitTwice(first: ApplicationCall, second: ApplicationCall, env: Env): seq<Action> {
    [Begin(0, Applications(first)), Resume(0, env),
     Begin(1, Applications(second)), Resume(1, env), Resume(1, env),
     Resume(0, env)]
  }

  lemma Throws(w: World, id: nat, env: Env)
    requires id in w.calls && Advance(w.db, w.calls[id], env).Threw?
    ensures Step(w, Resume(id, env)) == World(w.db, w.calls - {id})
  {
    hide Advance;
  }

  lemma SubmissionSteps(db: Db, a: Id, employee: Id, employer: Id, requested: Paise, terms: Terms, env: Env)
    requires env.otherGates && a !in db.applications
    requires forall b :: b in db.applications && db.applications[b].employee == employee ==>
               !IsActive(db.applications[b].status)
    ensures Advance(db, Applications(Submit(a, employee, employer, requested, terms)), env)
            == Read(Applications(SubmitWrite(a, employee, employer, requested, terms)))
    ensures var row := Application(employee, employer, Submitted, requested, None, None, env.now, terms);
            Advance(db, Applications(SubmitWrite(a, employee, employer, requested, terms)), env)
            == Wrote(db.(applications := db.applications[a := row],
                         history := db.history + [Entry(a, None, Submitted)]), None)
  {
  }

  lemma SubmissionRefused(db: Db, b: Id, a: Id, employee: Id, employer: Id, requested: Paise, terms: Terms, env: Env)
    requires b in db.applications && db.applications[b].employee == employee && IsActive(db.applications[b].status)
    ensures Advance(db, Applications(SubmitWrite(a, employee, employer, requested, terms)), env).Threw?
  {
    assert b in ActiveOf(db, employee);
  }

  /** A submission past the gate is refused exactly when its write finds the id taken or an active advance. */
  lemma SubmissionRefusedIff(db: Db, a: Id, employee: Id, employer: Id, requested: Paise, terms: Terms, env: Env)
    ensures Advance(db, Applications(SubmitWrite(a, employee, employer, requested, terms)), env).Threw?
       <==> a in db.applications
            || exists b :: b in db.applications && db.applications[b].employee == employee
                           && IsActive(db.applications[b].status)
  {
    if ActiveOf(db, employee) != {} {
      var b :| b in ActiveOf(db, employee);
    }
    assert forall b :: b in db.applications && db.applications[b].employee == employee
                       && IsActive(db.applications[b].status) ==>
                         b in ActiveOf(db, employee);
  }

  /** From every lawful state without an active advance of the employee, two submissions at once both pass the gate,
      and then it is the index that refuses the second write. */
  lemma IndexRefusesWhatGatePassed(db: Db, a: Id, b: Id, employee: Id, employer: Id, requested: Paise, terms: Terms,
                                   env: Env)
    requires SerialInv(db) && env.otherGates && a !in db.applications && b !in db.applications && a != b
    requires forall c :: c in db.applications && db.applications[c].employee == employee ==>
               !IsActive(db.applications[c].status)
    ensures var first, second := Submit(a, employee, employer, requested, terms),
                                 Submit(b, employee, employer, requested, terms);
            var w := Run(World(db, map[]), SubmitTwice(first, second, env));
            && !SubmitRead(db, a, employee, employer, requested, terms, env).Threw?
            && w.calls == map[] && w.db.applications.Keys == db.applications.Keys + {b} && SerialInv(w.db)
  {
    hide SerialInv, Step, Run, Advance, IsActive;
    var first, second :=
      Submit(a, employee, employer, requested, terms), Submit(b, employee, employer, requested, terms);
    var write := Applications(SubmitWrite(a, employee, employer, requested, terms));
    var other := Applications(SubmitWrite(b, employee, employer, requested, terms));
    var w, s, job := World(db, map[]), SubmitTwice(first, second, env), map[0 := write];
    SubmissionSteps(db, a, employee, employer, requested, terms, env);
    SubmissionSteps(db, b, employee, employer, requested, terms, env);
    var db' := Advance(db, other, env).db;
    var w1, w2, w3, w4, w5 := World(db, map[0 := Applications(first)]), World(db, job),
                              World(db, job[1 := Applications(second)]),
                              World(db, job[1 := other]), World(db', job);
    Begins(w, 0, Applications(first));
    Reads(w1, 0, env, write);
    assert w1.calls[0 := write] == job;
    Begins(w2, 1, Applications(second));
    Reads(w3, 1, env, other);
    assert w3.calls[1 := other] == w4.calls;
    Commits(w4, 1, env, db');
    assert w4.calls - {1} == job;
    SubmittedIsActive();
    SubmissionRefused(db', b, a, employee, employer, requested, terms, env);
    Throws(w5, 0, env);
    assert w5.calls - {0} == map[];
    Run6(w, s);
    GatePasses(db, a, employee, employer, requested, terms, env);
    SecondSubmissionLawful(db, b, employee, employer, requested, terms, env);
  }

  lemma SubmittedIsActive()
    ensures IsActive(Submitted)
  {
  }

  lemma GatePasses(db: Db, a: Id, employee: Id, employer: Id, requested: Paise, terms: Terms, env: Env)
    requires Advance(db, Applications(Submit(a, employee, employer, requested, terms)), env).Read?
    ensures !SubmitRead(db, a, employee, employer, requested, terms, env).Threw?
  {
    hide SubmitRead;
  }

  lemma SecondSubmissionLawful(db: Db, a: Id, employee: Id, employer: Id, requested: Paise, terms: Terms, env: Env)
    requires SerialInv(db)
    requires Advance(db, Applications(SubmitWrite(a, employee, employer, requested, terms)), env).Wrote?
    ensures SerialInv(Advance(db, Applications(SubmitWrite(a, employee, employer, requested, terms)), env).db)
  {
    hide SerialInv, SubmitCommit;
    SubmitSerial(db, a, employee, employer, requested, terms, env.now);
  }

  // A rejection during the creation of a disbursal

  /** The disbursal is read as creatable, the application is rejected, and the disbursal is written last. */
  function RejectDuringCreation(a: Id, env: Env): seq<Action> {
    [Begin(0, Disbursals(CreateDisbursal(a))), Resume(0, env), Resume(0, env), Resume(0, env), Resume(0, env),
     Begin(1, Applications(AdminReject(a))), Resume(1, env), Resume(1, env),
     Resume(0, env)]
  }

  lemma Run9(w: World, s: seq<Action>)
    requires |s| == 9
    ensures Run(w, s)
         == Step(Step(Step(Step(Step(Step(Step(Step(Step(w, s[0]), s[1]), s[2]), s[3]), s[4]),
                    s[5]), s[6]), s[7]), s[8])
  {
    hide Step;
    Run7(w, s[..7]);
    assert s[..8][..7] == s[..7];
    assert Run(w, s[..8]) == Step(Run(w, s[..7]), s[7]);
  }

  lemma CreationReads(db: Db, a: Id, env: Env)
    requires a in db.applications && db.applications[a].status == ReadyForDisbursal && a !in db.disbursals
    requires !IsBlocked(db, db.applications[a].employer) && Cleared(db.fees, a)
    ensures var app := db.applications[a];
            && Advance(db, Disbursals(CreateDisbursal(a)), env) == Read(Disbursals(FindDisbursal(a, app)))
            && Advance(db, Disbursals(FindDisbursal(a, app)), env) == Read(Disbursals(DisbursalRisk(a, app)))
            && Advance(db, Disbursals(DisbursalRisk(a, app)), env) == Read(Disbursals(DisbursalFee(a, app)))
            && Advance(db, Disbursals(DisbursalFee(a, app)), env) == Read(Disbursals(CreateDisbursalWrite(a, app)))
            && Advance(db, Applications(AdminReject(a)), env) == Read(Applications(AdminRejectWrite(a, app)))
            && Advance(db, Applications(AdminRejectWrite(a, app)), env)
               == Wrote(Move(db, a, Some(ReadyForDisbursal), AdminRejected), None)
  {
    hide IsBlocked, Cleared;
  }

  lemma CreationLands(db: Db, a: Id, seen: Application, env: Env)
    requires a !in db.disbursals
    ensures var o := Advance(db, Disbursals(CreateDisbursalWrite(a, seen)), env);
            && o.Wrote? && o.rest == None && o.db == db.(disbursals := o.db.disbursals)
            && a in o.db.disbursals && o.db.disbursals[a].status == Pending
  {
  }

  lemma ReadyFee(db: Db, a: Id)
    requires SerialInv(db) && a in db.applications && db.applications[a].status == ReadyForDisbursal
    ensures Cleared(db.fees, a)
  {
  }

  /** From every lawful state with an advance that is ready and has no disbursal, rejecting it while its disbursal is
      being created leaves a rejected application whose disbursal can still be paid out, which serially only a
      rejection after the creation does. */
  lemma CreationOutlivesRejection(db: Db, a: Id, env: Env)
    requires SerialInv(db) && a in db.applications && db.applications[a].status == ReadyForDisbursal
    requires a !in db.disbursals
    requires !IsBlocked(db, db.applications[a].employer)
    ensures var db' := Run(World(db, map[]), RejectDuringCreation(a, env)).db;
            && a in db'.applications && db'.applications[a].status == AdminRejected
            && a in db'.disbursals && db'.disbursals[a].status == Pending
            && db'.history == db.history + [Entry(a, Some(ReadyForDisbursal), AdminRejected)]
  {
    hide SerialInv, Step, Run, Advance;
    ReadyFee(db, a);
    CreationReads(db, a, env);
    var app, w, s := db.applications[a], World(db, map[]), RejectDuringCreation(a, env);
    var c0, c1, c2, c3, c4 := Disbursals(CreateDisbursal(a)), Disbursals(FindDisbursal(a, app)),
                              Disbursals(DisbursalRisk(a, app)),
                              Disbursals(DisbursalFee(a, app)), Disbursals(CreateDisbursalWrite(a, app));
    var reject, write, rejected := Applications(AdminReject(a)), Applications(AdminRejectWrite(a, app)),
                                   Move(db, a, Some(ReadyForDisbursal), AdminRejected);
    CreationLands(rejected, a, app, env);
    Begins(w, 0, c0);
    Reads(World(db, map[0 := c0]), 0, env, c1);
    Reads(World(db, map[0 := c0][0 := c1]), 0, env, c2);
    Reads(World(db, map[0 := c0][0 := c1][0 := c2]), 0, env, c3);
    Reads(World(db, map[0 := c0][0 := c1][0 := c2][0 := c3]), 0, env, c4);
    var waiting := map[0 := c0][0 := c1][0 := c2][0 := c3][0 := c4];
    Begins(World(db, waiting), 1, reject);
    Reads(World(db, waiting[1 := reject]), 1, env, write);
    Commits(World(db, waiting[1 := reject][1 := write]), 1, env, rejected);
    LastWrite(World(rejected, waiting[1 := reject][1 := write] - {1}), 0, env);
    Run9(w, s);
  }
}
