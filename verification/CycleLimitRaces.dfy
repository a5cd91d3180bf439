/** The per-cycle request limit when calls interleave: its gate is read before the submission is written. */
module CycleLimitRaces {
  import opened Wrappers
  import opened Tables
  import opened Steps
  import opened Lifecycle
  import opened LedgerInvariant
  import opened LedgerSteps
  import opened InterleavedLaws
  import opened SerialInvariant
  import opened SerialSteps
  import opened SerialLaws
  import opened StaleWrites
  import opened Calendar
  import opened RecoveryDates
  import opened Rejections
  import opened InterleavedRejections
  import opened Progress
  import opened CycleLimit
  import opened CycleLimitLaws

  // Gated runs

  /** Below the limit in the cycle the gate counts on a day, with that day's recovery date. */
  predicate BelowLimit(db: Db, employee: Id, terms: Terms, day: Civil, rules: Rules) {
    && terms.recoveryDate == Milliseconds(ResolveRecoveryDate(day, rules.payrollDay, rules.cutoff), 0)
    && |RepaidIn(db, employee, CountedCycle(day, rules))| < rules.limit
  }

  /** A rejected advance of the employee may still be paid out. */
  ghost predicate MayReturn(w: World, employee: Id) {
    exists a :: Rejected(w.db, a) && w.db.applications[a].employee == employee
                && (Waiting(w.db, a) || CreationUnderWay(w, a))
  }

  /** What is allowed: on which days the gate is read, and whether a submission may be written while a rejected advance
      may return (`mayWait`) or after the gate's reads have changed (`mayLag`). */
  datatype Policy = Policy(rules: Rules, days: iset<Civil>, mayWait: bool, mayLag: bool)

  ghost predicate GateOpen(w: World, employee: Id, terms: Terms, env: Env, rules: Rules, days: iset<Civil>) {
    && CivilOf(env.now) in days
    && terms.recoveryDate == Milliseconds(ResolveRecoveryDate(CivilOf(env.now), rules.payrollDay, rules.cutoff), 0)
    && (env.otherGates ==> BelowLimit(w.db, employee, terms, CivilOf(env.now), rules))
  }

  ghost predicate LandingAllowed(w: World, employee: Id, terms: Terms, p: Policy) {
    && (p.mayWait || !MayReturn(w, employee))
    && (p.mayLag || exists day :: day in p.days && BelowLimit(w.db, employee, terms, day, p.rules))
  }

  predicate Lands(w: World, action: Action, employee: Id) {
    && action.Resume? && action.id in w.calls
    && var c := w.calls[action.id];
    && c.Applications? && c.application.SubmitWrite? && c.application.employee == employee
    && Advance(w.db, c, action.env).Wrote?
  }

  predicate ReadsGate(w: World, action: Action, employee: Id) {
    && action.Resume? && action.id in w.calls
    && var c := w.calls[action.id];
    && c.Applications? && c.application.Submit? && c.application.employee == employee
  }

  ghost predicate StepInPolicy(w: World, action: Action, employee: Id, p: Policy) {
    && !LandsStale(w, action)
    && (ReadsGate(w, action, employee) ==>
          GateOpen(w, employee, w.calls[action.id].application.terms, action.env, p.rules, p.days))
    && (Lands(w, action, employee) ==> LandingAllowed(w, employee, w.calls[action.id].application.terms, p))
  }

  ghost predicate RunInPolicy(w: World, actions: seq<Action>, employee: Id, p: Policy) {
    forall i :: 0 <= i < |actions| ==> StepInPolicy(Run(w, actions[..i]), actions[i], employee, p)
  }

  lemma InitInPolicy(w: World, actions: seq<Action>, employee: Id, p: Policy)
    requires RunInPolicy(w, actions, employee, p) && actions != []
    ensures RunInPolicy(w, actions[..|actions| - 1], employee, p)
    ensures StepInPolicy(Run(w, actions[..|actions| - 1]), actions[|actions| - 1], employee, p)
  {
    hide StepInPolicy, Run;
    var init := actions[..|actions| - 1];
    forall i | 0 <= i < |init|
      ensures StepInPolicy(Run(w, init[..i]), init[i], employee, p)
    {
      assert init[..i] == actions[..i];
    }
  }

  lemma PolicyConcat(w: World, actions: seq<Action>, more: seq<Action>, employee: Id, p: Policy)
    requires RunInPolicy(w, actions, employee, p) && RunInPolicy(Run(w, actions), more, employee, p)
    ensures RunInPolicy(w, actions + more, employee, p) && Run(w, actions + more) == Run(Run(w, actions), more)
  {
    hide StepInPolicy, Run;
    RunConcat(w, actions, more);
    var all := actions + more;
    forall i | 0 <= i < |all|
      ensures StepInPolicy(Run(w, all[..i]), all[i], employee, p)
    {
      if i < |actions| {
        assert all[..i] == actions[..i];
      } else {
        assert all[..i] == actions + more[..i - |actions|];
        RunConcat(w, actions, more[..i - |actions|]);
      }
    }
  }

  // The limit is kept

  /** Repaid, or still to be: active, or rejected with a disbursal pending or under way. */
  ghost predicate Counts(w: World, a: Id) {
    && a in w.db.applications
    && (w.db.applications[a].status == Repaid || Live(w.db, a) || (Rejected(w.db, a) && CreationUnderWay(w, a)))
  }

  ghost function Counting(w: World, employee: Id, cycle: int): set<Id> {
    set a | a in w.db.applications && w.db.applications[a].employee == employee
            && CycleOf(w.db.applications[a]) == cycle
            && Counts(w, a)
  }

  /** Over, and nothing brings it back. */
  ghost predicate Closed(w: World, a: Id) {
    a in w.db.applications && (IsDead(w.db.applications[a].status) || NothingOnItsWay(w, a))
  }

  lemma CountsUnlessClosed(w: World, a: Id)
    requires SerialInv(w.db) && a in w.db.applications
    ensures Closed(w, a) <==> !Counts(w, a)
  {
    hide CreationUnderWay;
    TakenUnlessEnded(w.db, a);
    if Rejected(w.db, a) { RejectedRows(w.db, a); }
  }

  lemma ClosedStep(w: World, action: Action, a: Id)
    requires Lawful(w) && Closed(w, a) && !LandsStale(w, action)
    ensures Closed(Step(w, action), a)
  {
    LawfulStep(w, action);
    hide WorldInv, SerialInv, LandsStale, Step, Grows, CreationUnderWay;
    if IsDead(w.db.applications[a].status) {
      StaysEnded(w.db, Step(w, action).db, a);
    } else {
      SettledStep(w, action, a);
    }
  }

  lemma StepAddsNoneOf(w: World, action: Action, employee: Id)
    requires !Lands(w, action, employee)
    ensures forall a :: a in Step(w, action).db.applications
                        && Step(w, action).db.applications[a].employee == employee ==>
              a in w.db.applications
  {
    hide Advance;
    if action.Resume? && action.id in w.calls {
      var c := w.calls[action.id];
      if c.Applications? && c.application.SubmitWrite? {
        SubmissionRow(w.db, c.application, action.env);
      } else {
        StepAddsNone(w.db, c, action.env);
      }
    }
  }

  lemma SubmissionRow(db: Db, c: ApplicationCall, env: Env)
    requires c.SubmitWrite?
    ensures var o := Advance(db, Applications(c), env);
            var row := Application(c.employee, c.employer, Submitted, c.requested, None, None, env.now, c.terms);
            o.Wrote? ==>
              && o.rest.None? && c.a !in db.applications && ActiveOf(db, c.employee) == {}
              && o.db == db.(applications := db.applications[c.a := row], history := o.db.history)
  {
    hide ActiveOf;
  }

  lemma CountingShrinks(w: World, action: Action, employee: Id, cycle: int)
    requires Lawful(w) && !LandsStale(w, action) && !Lands(w, action, employee)
    ensures |Counting(Step(w, action), employee, cycle)| <= |Counting(w, employee, cycle)|
  {
    LawfulStep(w, action);
    StepAddsNoneOf(w, action, employee);
    hide WorldInv, SerialInv, LandsStale, Step, Grows, Counts, Closed, CycleOf, Lands;
    var w' := Step(w, action);
    forall a | a in Counting(w', employee, cycle)
      ensures a in Counting(w, employee, cycle)
    {
      SameTerms(w.db, w'.db, a);
      CountsUnlessClosed(w, a);
      CountsUnlessClosed(w', a);
      if Closed(w, a) { ClosedStep(w, action, a); }
    }
    SubsetSize(Counting(w', employee, cycle), Counting(w, employee, cycle));
  }

  lemma NothingOpen(w: World, employee: Id, cycle: int)
    requires ActiveOf(w.db, employee) == {} && !MayReturn(w, employee)
    ensures Counting(w, employee, cycle) == RepaidIn(w.db, employee, cycle)
  {
    hide CycleOf, CreationUnderWay, Waiting;
    forall a | a in Counting(w, employee, cycle)
      ensures a in RepaidIn(w.db, employee, cycle)
    {
      assert IsActive(w.db.applications[a].status) ==> a in ActiveOf(w.db, employee);
    }
  }

  /** What a submission that lands makes of the world. */
  lemma LandingWorld(w: World, action: Action, employee: Id)
    requires Lands(w, action, employee)
    ensures var c, w' := w.calls[action.id].application, Step(w, action);
            && c.a !in w.db.applications && ActiveOf(w.db, employee) == {} && w'.calls == w.calls - {action.id}
            && w'.db.disbursals == w.db.disbursals && c.a in w'.db.applications
            && w'.db.applications == w.db.applications[c.a := w'.db.applications[c.a]]
            && w'.db.applications[c.a].terms == c.terms && w'.db.applications[c.a].employee == employee
  {
    hide Advance, ActiveOf;
    SubmissionRow(w.db, w.calls[action.id].application, action.env);
  }

  lemma CountingOne(w: World, w': World, a: Id, employee: Id, cycle: int)
    requires a !in w.db.applications && a in w'.db.applications && w'.db.disbursals == w.db.disbursals
    requires w'.db.applications == w.db.applications[a := w'.db.applications[a]] && w'.calls.Keys <= w.calls.Keys
    requires forall t :: t in w'.calls ==> w'.calls[t] == w.calls[t]
    ensures var more := if CycleOf(w'.db.applications[a]) == cycle then 1 else 0;
            |Counting(w', employee, cycle)| <= |Counting(w, employee, cycle)| + more
  {
    hide CycleOf, PastStatusCheck;
    var one := if CycleOf(w'.db.applications[a]) == cycle then {a} else {};
    forall b | b in Counting(w', employee, cycle) && b != a
      ensures b in Counting(w, employee, cycle)
    {
    }
    SubsetSize(Counting(w', employee, cycle), Counting(w, employee, cycle) + one);
  }

  lemma LandingFits(w: World, action: Action, employee: Id, p: Policy, cycle: int)
    requires Lands(w, action, employee) && LandingAllowed(w, employee, w.calls[action.id].application.terms, p)
    requires !p.mayWait && !p.mayLag && p.days <= AgreeingDays(p.rules)
    requires |Counting(w, employee, cycle)| <= p.rules.limit
    ensures |Counting(Step(w, action), employee, cycle)| <= p.rules.limit
  {
    hide Step, Advance, MayReturn, CycleOf, CivilOf, Counting, ResolveRecoveryDate, Milliseconds, StoredCycle,
         CountedCycle, RepaidIn;
    var c, w' := w.calls[action.id].application, Step(w, action);
    var day :| day in p.days && BelowLimit(w.db, employee, c.terms, day, p.rules);
    LandingWorld(w, action, employee);
    NewCycle(w'.db.applications[c.a], day, p.rules);
    NothingOpen(w, employee, cycle);
    CountingOne(w, w', c.a, employee, cycle);
  }

  lemma {:induction false} CountingBounded(actions: seq<Action>, employee: Id, p: Policy, cycle: int)
    requires RunInPolicy(EMPTY_WORLD, actions, employee, p)
    requires !p.mayWait && !p.mayLag && p.days <= AgreeingDays(p.rules)
    ensures |Counting(Run(EMPTY_WORLD, actions), employee, cycle)| <= p.rules.limit && Lawful(Run(EMPTY_WORLD, actions))
    decreases |actions|
  {
    hide RunInPolicy, Step, LandsStale, Lands, LandingAllowed, ReadsGate, GateOpen, Lawful, Counts, CycleOf;
    if actions == [] {
      EmptyLawful();
      assert Counting(EMPTY_WORLD, employee, cycle) == {};
    } else {
      hide Counting;
      var init, last := actions[..|actions| - 1], actions[|actions| - 1];
      InitInPolicy(EMPTY_WORLD, actions, employee, p);
      CountingBounded(init, employee, p, cycle);
      var w := Run(EMPTY_WORLD, init);
      LawfulStep(w, last);
      if Lands(w, last, employee) {
        LandingFits(w, last, employee, p, cycle);
      } else {
        CountingShrinks(w, last, employee, cycle);
      }
    }
  }

  lemma EmptyLawful()
    ensures Lawful(EMPTY_WORLD)
  {
    hide Inv, SerialInv, CallOk;
    EmptyWorldKeeps();
    EmptySerial();
  }

  /** Under any interleaving in which no write lands stale: gates read on agreeing days, and each submission written
      while the gate would still pass and no rejected advance of the employee may return, keep every cycle in limit. */
  lemma LimitKeptInterleaved(actions: seq<Action>, employee: Id, p: Policy, cycle: int)
    requires RunInPolicy(EMPTY_WORLD, actions, employee, p)
    requires !p.mayWait && !p.mayLag && p.days <= AgreeingDays(p.rules)
    ensures |RepaidIn(Run(EMPTY_WORLD, actions).db, employee, cycle)| <= p.rules.limit
  {
    hide RunInPolicy, Run, CycleOf, CreationUnderWay, Live;
    CountingBounded(actions, employee, p, cycle);
    var w := Run(EMPTY_WORLD, actions);
    SubsetSize(RepaidIn(w.db, employee, cycle), Counting(w, employee, cycle));
  }

  // Serial requests as gated actions

  /** Neither a submission of the employee nor its write. */
  predicate Quiet(c: Call, employee: Id) {
    c.Applications? && (c.application.Submit? || c.application.SubmitWrite?) ==> c.application.employee != employee
  }

  predicate QuietNext(o: Outcome, employee: Id) {
    (o.Read? ==> Quiet(o.next, employee)) && (o.Wrote? && o.rest.Some? ==> Quiet(o.rest.value, employee))
  }

  lemma QuietGoesOn(db: Db, c: Call, env: Env, employee: Id)
    requires Quiet(c, employee)
    ensures QuietNext(Advance(db, c, env), employee)
  {
    hide Advance;
    if NotSubmitting(c) {
      GoesOnNotSubmitting(db, c, env);
    } else {
      SubmissionGoesOn(db, c.application, env);
    }
  }

  lemma SubmissionGoesOn(db: Db, c: ApplicationCall, env: Env)
    requires c.Submit? || c.SubmitWrite?
    ensures var o := Advance(db, Applications(c), env);
            var write := if c.Submit? then SubmitWrite(c.a, c.employee, c.employer, c.requested, c.terms) else c;
            if c.Submit? then !o.Wrote? && (o.Read? ==> env.otherGates && o.next == Applications(write))
            else !o.Read? && (o.Wrote? ==> o.rest.None?)
  {
    hide ActiveOf, BlocksSubmission;
  }

  lemma QuietInPolicy(w: World, id: nat, env: Env, employee: Id, p: Policy)
    requires id in w.calls && Fresh(w.db, w.calls[id]) && Quiet(w.calls[id], employee)
    ensures StepInPolicy(w, Resume(id, env), employee, p)
  {
    hide Fresh, LandsStale, Advance;
    ResumeFresh(w, id, env);
  }

  lemma OneInPolicy(w: World, action: Action, employee: Id, p: Policy)
    requires StepInPolicy(w, action, employee, p)
    ensures Run(w, [action]) == Step(w, action) && RunInPolicy(w, [action], employee, p)
  {
    hide Step, StepInPolicy;
    assert [action][..0] == [];
    assert Run(w, []) == w;
  }

  lemma {:induction false} QuietAlone(db: Db, calls: map<nat, Call>, id: nat, c: Call, env: Env, employee: Id,
                                      p: Policy)
    requires id !in calls && SerialInv(db) && CallOk(db, c) && Fresh(db, c) && Quiet(c, employee)
    ensures var w := World(db, calls[id := c]);
            && Run(w, AloneActions(db, c, env, id)) == World(Alone(db, c, env).db, calls)
            && RunInPolicy(w, AloneActions(db, c, env, id), employee, p)
    decreases StepsLeft(c)
  {
    hide SerialInv, Inv, Grows, CallOk, Fresh, Advance, StepsLeft, Step, Run, RunInPolicy, StepInPolicy, Quiet;
    var w := World(db, calls[id := c]);
    InvOf(db);
    AdvanceKeeps(db, c, env);
    AdvanceSerial(db, c, env);
    StepsDecrease(db, c, env);
    QuietGoesOn(db, c, env, employee);
    QuietInPolicy(w, id, env, employee, p);
    ResumeStep(db, calls, id, c, env);
    OneInPolicy(w, Resume(id, env), employee, p);
    match Advance(db, c, env)
    case Read(next) =>
      QuietAlone(db, calls, id, next, env, employee, p);
      PolicyConcat(w, [Resume(id, env)], AloneActions(db, next, env, id), employee, p);
    case Wrote(db', Some(rest)) =>
      QuietAlone(db', calls, id, rest, env, employee, p);
      PolicyConcat(w, [Resume(id, env)], AloneActions(db', rest, env, id), employee, p);
    case Wrote(_, None) => assert AloneActions(db, c, env, id) == [Resume(id, env)];
    case Returned => assert AloneActions(db, c, env, id) == [Resume(id, env)];
    case Threw => assert AloneActions(db, c, env, id) == [Resume(id, env)];
  }

  lemma BeginInPolicy(w: World, id: nat, c: Call, employee: Id, p: Policy)
    requires id !in w.calls && IsRequest(c)
    ensures Run(w, [Begin(id, c)]) == World(w.db, w.calls[id := c]) && RunInPolicy(w, [Begin(id, c)], employee, p)
  {
    hide Step, Run, LandsStale, Advance, IsRequest;
    BeginStep(w, id, c);
    OneInPolicy(w, Begin(id, c), employee, p);
  }

  lemma QuietRequest(w: World, r: Request, employee: Id, p: Policy) returns (actions: seq<Action>)
    requires Lawful(w) && IsRequest(r.call) && Quiet(r.call, employee)
    ensures Run(w, actions) == World(Alone(w.db, r.call, r.env).db, w.calls) && RunInPolicy(w, actions, employee, p)
  {
    hide WorldInv, SerialInv, Alone, RunInPolicy, Step, Run, Fresh, CallOk, Quiet, IsRequest;
    var id := UpperBound(w.calls.Keys);
    RequestFresh(w.db, r.call);
    BeginInPolicy(w, id, r.call, employee, p);
    QuietAlone(w.db, w.calls, id, r.call, r.env, employee, p);
    PolicyConcat(w, [Begin(id, r.call)], AloneActions(w.db, r.call, r.env, id), employee, p);
    actions := [Begin(id, r.call)] + AloneActions(w.db, r.call, r.env, id);
  }

  lemma LawfulInPolicy(w: World, actions: seq<Action>, employee: Id, p: Policy)
    requires Lawful(w) && RunInPolicy(w, actions, employee, p)
    ensures Lawful(Run(w, actions))
  {
    hide Lawful, LandsStale, Run, ReadsGate, Lands;
    LawfulRun(w, actions);
  }

  lemma {:induction false} QuietRequests(w: World, requests: seq<Request>, employee: Id, p: Policy)
    returns (actions: seq<Action>)
    requires Lawful(w) && forall i :: 0 <= i < |requests| ==> Quiet(requests[i].call, employee)
    ensures Run(w, actions) == World(Serial(w.db, requests), w.calls) && RunInPolicy(w, actions, employee, p)
    decreases |requests|
  {
    hide Lawful, Alone, StepInPolicy, Step, IsRequest, Quiet;
    if requests == [] {
      actions := [];
    } else {
      var last := requests[|requests| - 1];
      actions := QuietRequests(w, requests[..|requests| - 1], employee, p);
      if IsRequest(last.call) {
        LawfulInPolicy(w, actions, employee, p);
        var more := QuietRequest(Run(w, actions), last, employee, p);
        PolicyConcat(w, actions, more, employee, p);
        actions := actions + more;
      }
    }
  }

  // A submission served alone

  predicate NoCreation(calls: map<nat, Call>) {
    forall t :: t in calls ==> !calls[t].Disbursals?
  }

  lemma NoneReturns(w: World, employee: Id)
    requires NoCreation(w.calls)
    ensures MayReturn(w, employee) <==> MayComeBack(w.db, employee)
  {
    hide Waiting;
    assert forall a :: !CreationUnderWay(w, a);
  }

  /** Gate and write of a submission in a row. */
  lemma SubmissionInPolicy(w: World, r: Request, employee: Id, p: Policy) returns (actions: seq<Action>)
    requires Lawful(w) && Submits(r, employee) && GateRead(w.db, r, employee, p.rules) && CivilOf(r.env.now) in p.days
    requires NoCreation(w.calls) && (p.mayWait || !MayComeBack(w.db, employee))
    ensures Run(w, actions) == World(Alone(w.db, r.call, r.env).db, w.calls) && RunInPolicy(w, actions, employee, p)
  {
    hide WorldInv, SerialInv, Alone, RunInPolicy, Step, Run, LandsStale, CivilOf, RepaidIn, ResolveRecoveryDate,
         Milliseconds, CountedCycle, MayComeBack, StepsLeft;
    var c := r.call.application;
    var id := UpperBound(w.calls.Keys);
    var write := Applications(SubmitWrite(c.a, employee, c.employer, c.requested, c.terms));
    var asked := World(w.db, w.calls[id := r.call]);
    BeginInPolicy(w, id, r.call, employee, p);
    GateInPolicy(asked, id, r.env, employee, p);
    OneInPolicy(asked, Resume(id, r.env), employee, p);
    ResumeStep(w.db, w.calls, id, r.call, r.env);
    AloneStep(w.db, r.call, r.env);
    SubmissionGoesOn(w.db, c, r.env);
    PolicyConcat(w, [Begin(id, r.call)], [Resume(id, r.env)], employee, p);
    actions := [Begin(id, r.call)] + [Resume(id, r.env)];
    if Advance(w.db, r.call, r.env).Read? {
      var passed := World(w.db, w.calls[id := write]);
      NoneReturns(passed, employee);
      LandingInPolicy(passed, id, r.env, employee, p, CivilOf(r.env.now));
      OneInPolicy(passed, Resume(id, r.env), employee, p);
      ResumeStep(w.db, w.calls, id, write, r.env);
      AloneStep(w.db, write, r.env);
      SubmissionGoesOn(w.db, write.application, r.env);
      PolicyConcat(w, actions, [Resume(id, r.env)], employee, p);
      actions := actions + [Resume(id, r.env)];
    }
  }

  lemma GateInPolicy(w: World, id: nat, env: Env, employee: Id, p: Policy)
    requires id in w.calls && Submits(Request(w.calls[id], env), employee)
    requires GateRead(w.db, Request(w.calls[id], env), employee, p.rules) && CivilOf(env.now) in p.days
    ensures StepInPolicy(w, Resume(id, env), employee, p)
  {
    hide Advance, CivilOf, RepaidIn, ResolveRecoveryDate, Milliseconds, CountedCycle;
    SubmissionGoesOn(w.db, w.calls[id].application, env);
  }

  lemma LandingInPolicy(w: World, id: nat, env: Env, employee: Id, p: Policy, day: Civil)
    requires id in w.calls && w.calls[id].Applications? && w.calls[id].application.SubmitWrite?
    requires p.mayWait || !MayReturn(w, employee)
    requires p.mayLag || (day in p.days && BelowLimit(w.db, employee, w.calls[id].application.terms, day, p.rules))
    ensures StepInPolicy(w, Resume(id, env), employee, p)
  {
    hide Advance, BelowLimit, MayReturn;
  }

  /** Every gated serial run, in one-day policy, is a gated interleaved run beside calls that create no disbursal. */
  lemma {:induction false} SerialInPolicy(w: World, requests: seq<Request>, rules: Rules, day: Civil, p: Policy)
    returns (actions: seq<Action>)
    requires Lawful(w) && w.db == EMPTY_DB && NoCreation(w.calls) && InPolicy(requests, rules, day, p.mayWait)
    requires p.rules == rules && day in p.days
    ensures Run(w, actions) == World(Serial(EMPTY_DB, requests), w.calls) && RunInPolicy(w, actions, 0, p)
    decreases |requests|
  {
    hide Lawful, Alone, StepInPolicy, Step, IsRequest, Quiet, NoCreation, GateRead, MayComeBack, Submits, CivilOf;
    if requests == [] {
      actions := [];
    } else {
      var init, last := requests[..|requests| - 1], requests[|requests| - 1];
      PolicyPrefix(requests, rules, day, p.mayWait);
      actions := SerialInPolicy(w, init, rules, day, p);
      if IsRequest(last.call) {
        LawfulInPolicy(w, actions, 0, p);
        var more;
        if Submits(last, 0) {
          more := SubmissionInPolicy(Run(w, actions), last, 0, p);
        } else {
          NotSubmittedIsQuiet(last);
          more := QuietRequest(Run(w, actions), last, 0, p);
        }
        PolicyConcat(w, actions, more, 0, p);
        actions := actions + more;
      }
    }
  }

  lemma NotSubmittedIsQuiet(r: Request)
    requires IsRequest(r.call) && !Submits(r, 0)
    ensures Quiet(r.call, 0)
  {
  }

  lemma PolicyPrefix(requests: seq<Request>, rules: Rules, day: Civil, mayWait: bool)
    requires InPolicy(requests, rules, day, mayWait) && requests != []
    ensures var init, last := requests[..|requests| - 1], requests[|requests| - 1];
            && InPolicy(init, rules, day, mayWait) && GateRead(Serial(EMPTY_DB, init), last, 0, rules)
            && (Submits(last, 0) ==>
                 CivilOf(last.env.now) == day && (mayWait || !MayComeBack(Serial(EMPTY_DB, init), 0)))
  {
    hide Serial, GateRead, MayComeBack, Submits, CivilOf;
    var init := requests[..|requests| - 1];
    forall i | 0 <= i < |init|
      ensures init[..i] == requests[..i] && init[i] == requests[i]
    {
    }
  }

  // A gate read too early

  /** On any day, with writes allowed after the gate's reads have changed: a submission passes the gate, as many
      advances as the limit allows are taken and repaid, and then it is written, taken and repaid as well. */
  lemma EarlyGateFails(day: Civil, rules: Rules, p: Policy) returns (actions: seq<Action>)
    requires IsDate(day) && rules.limit > 0 && p.mayLag && p.rules == rules && day in p.days
    ensures RunInPolicy(EMPTY_WORLD, actions, 0, p)
    ensures |RepaidIn(Run(EMPTY_WORLD, actions).db, 0, StoredCycle(day, rules))| == rules.limit + 1
  {
    hide Lawful, Alone, RunInPolicy, StepInPolicy, Step, Run, Serial, Rows, InPolicy, Round, StoredCycle, CountedCycle,
         RepaidIn, TermsOn, EnvOn;
    var n := rules.limit;
    var rounds := Rounds([], 0, n, day, rules);
    NoRequests(rules, day, p.mayWait);
    RoundsWork([], 0, n, day, rules, p.mayWait);
    var before := Serial(EMPTY_DB, rounds);
    EmptyLawful();
    var waiting, read := FirstRead(day, rules, p);
    LawfulInPolicy(EMPTY_WORLD, read, 0, p);
    var others := SerialInPolicy(waiting, rounds, rules, day, p);
    PolicyConcat(EMPTY_WORLD, read, others, 0, p);
    LawfulInPolicy(waiting, others, 0, p);
    var land := LateLanding(World(before, waiting.calls), day, rules, p);
    PolicyConcat(EMPTY_WORLD, read + others, land, 0, p);
    LawfulInPolicy(World(before, waiting.calls), land, 0, p);
    var rest := RestOfRound(Run(World(before, waiting.calls), land), before, n, day, rules, p);
    PolicyConcat(EMPTY_WORLD, read + others + land, rest, 0, p);
    actions := read + others + land + rest;
    RoundRows(before, n, 0, day, rules);
    RowsRepaid(Run(EMPTY_WORLD, actions).db, n + 1, 0, day, rules, StoredCycle(day, rules));
  }

  function Late(day: Civil, rules: Rules): ApplicationCall {
    SubmitWrite(rules.limit, 0, 0, 0, TermsOn(day, rules))
  }

  lemma FirstRead(day: Civil, rules: Rules, p: Policy) returns (waiting: World, actions: seq<Action>)
    requires IsDate(day) && rules.limit > 0 && p.rules == rules && day in p.days
    ensures waiting == World(EMPTY_DB, map[0 := Applications(Late(day, rules))]) && NoCreation(waiting.calls)
    ensures Run(EMPTY_WORLD, actions) == waiting && RunInPolicy(EMPTY_WORLD, actions, 0, p)
  {
    hide RunInPolicy, Step, Run, LandsStale, CivilOf, ResolveRecoveryDate, Milliseconds, CountedCycle, TermsOn, EnvOn;
    var r := Request(Applications(Submit(rules.limit, 0, 0, 0, TermsOn(day, rules))), EnvOn(day, rules.limit));
    var write := Applications(Late(day, rules));
    FirstGate(day, rules);
    BeginInPolicy(EMPTY_WORLD, 0, r.call, 0, p);
    var asked := World(EMPTY_DB, map[0 := r.call]);
    assert EMPTY_WORLD.calls[0 := r.call] == asked.calls;
    GateInPolicy(asked, 0, r.env, 0, p);
    OneInPolicy(asked, Resume(0, r.env), 0, p);
    ResumeStep(EMPTY_DB, map[], 0, r.call, r.env);
    PolicyConcat(EMPTY_WORLD, [Begin(0, r.call)], [Resume(0, r.env)], 0, p);
    actions := [Begin(0, r.call)] + [Resume(0, r.env)];
    waiting := World(EMPTY_DB, map[0 := write]);
  }

  lemma FirstGate(day: Civil, rules: Rules)
    requires IsDate(day) && rules.limit > 0
    ensures var r := Request(Applications(Submit(rules.limit, 0, 0, 0, TermsOn(day, rules))), EnvOn(day, rules.limit));
            && Submits(r, 0) && GateRead(EMPTY_DB, r, 0, rules) && CivilOf(r.env.now) == day
            && Advance(EMPTY_DB, r.call, r.env) == Read(Applications(Late(day, rules)))
  {
    hide CivilOf, ResolveRecoveryDate, Milliseconds, CountedCycle;
    CivilOfDay(day, 0);
    assert RepaidIn(EMPTY_DB, 0, CountedCycle(day, rules)) == {};
  }

  lemma LateLanding(w: World, day: Civil, rules: Rules, p: Policy) returns (actions: seq<Action>)
    requires Lawful(w) && p.mayLag && p.rules == rules && w.calls == map[0 := Applications(Late(day, rules))]
    requires Rows(w.db, rules.limit, 0, day, rules)
    ensures RunInPolicy(w, actions, 0, p)
    ensures var r := Request(Applications(Submit(rules.limit, 0, 0, 0, TermsOn(day, rules))), EnvOn(day, rules.limit));
            Run(w, actions) == World(Alone(w.db, r.call, r.env).db, map[])
  {
    hide WorldInv, SerialInv, RunInPolicy, Step, Run, LandsStale, TermsOn, Alone, AwaitsPayout, MayReturn, MayComeBack;
    var env := EnvOn(day, rules.limit);
    var write := Applications(Late(day, rules));
    var submit := Applications(Submit(rules.limit, 0, 0, 0, TermsOn(day, rules)));
    RowsClear(w.db, rules.limit, 0, day, rules);
    NoneBack(w.db, rules.limit, day, rules);
    NoneReturns(w, 0);
    LandingInPolicy(w, 0, env, 0, p, day);
    OneInPolicy(w, Resume(0, env), 0, p);
    assert w.calls == map[][0 := write];
    ResumeStep(w.db, map[], 0, write, env);
    SubmissionGoesOn(w.db, write.application, env);
    GatePassed(w.db, submit.application, env);
    AloneStep(w.db, submit, env);
    AloneStep(w.db, write, env);
    actions := [Resume(0, env)];
  }

  lemma GatePassed(db: Db, c: ApplicationCall, env: Env)
    requires c.Submit? && ActiveOf(db, c.employee) == {} && env.otherGates
    ensures Advance(db, Applications(c), env)
         == Read(Applications(SubmitWrite(c.a, c.employee, c.employer, c.requested, c.terms)))
  {
    forall b | b in db.applications && db.applications[b].employee == c.employee
      ensures !BlocksSubmission(db.applications[b].status)
    {
      GateListsIndexStatuses(db.applications[b].status);
      assert b !in ActiveOf(db, c.employee);
    }
  }

  /** The requests of a round after its submission. */
  lemma RestOfRound(w: World, before: Db, n: nat, day: Civil, rules: Rules, p: Policy) returns (actions: seq<Action>)
    requires Lawful(w) && w.calls == map[]
    requires w.db == Alone(before, Applications(Submit(n, 0, 0, 0, TermsOn(day, rules))), EnvOn(day, n)).db
    ensures RunInPolicy(w, actions, 0, p) && Run(w, actions) == World(Serial(before, Round(n, day, rules)), map[])
  {
    hide Lawful, RunInPolicy, Run, Serial, TermsOn, EnvOn, Alone, Round;
    var round := Round(n, day, rules);
    RoundSubmitsOnce(n, day, rules);
    forall i | 0 <= i < |round[1..]|
      ensures Quiet(round[1..][i].call, 0)
    {
      assert round[1..][i] == round[i + 1];
      NotSubmitsIsQuiet(round, i + 1, n, day, rules);
    }
    actions := QuietRequests(w, round[1..], 0, p);
    SerialConcat(before, [round[0]], round[1..]);
    assert [round[0]] + round[1..] == round;
    OneRequest(before, round[0]);
  }

  lemma OneRequest(db: Db, r: Request)
    requires IsRequest(r.call)
    ensures Serial(db, [r]) == Alone(db, r.call, r.env).db
  {
    hide Alone;
    assert [r][..0] == [];
    assert Serial(db, []) == db;
  }

  lemma NotSubmitsIsQuiet(round: seq<Request>, i: nat, n: nat, day: Civil, rules: Rules)
    requires round == Round(n, day, rules) && 0 < i < |round|
    ensures Quiet(round[i].call, 0)
  {
    hide TermsOn, EnvOn;
  }

  /** On any one day the limit holds in all gated interleaved runs in which nothing lands stale, if and only if the
      day's cycles agree, no submission is written while a rejected advance of the employee may return, and none is
      written after the gate's reads have changed. */
  lemma LimitKeptInterleavedIff(day: Civil, rules: Rules, p: Policy)
    requires IsDate(day) && IsDayOfMonth(rules.payrollDay) && IsDayOfMonth(rules.cutoff) && !TwoDigitYear(day)
    requires rules.limit > 0 && p.rules == rules && p.days == iset{day}
    ensures (forall actions, cycle :: RunInPolicy(EMPTY_WORLD, actions, 0, p) ==>
               |RepaidIn(Run(EMPTY_WORLD, actions).db, 0, cycle)| <= rules.limit)
       <==> !p.mayWait && !p.mayLag
            && (day.day < rules.cutoff || day.day <= MonthLength(day.month + 1)
                || rules.payrollDay > MonthLength(day.month + 1))
  {
    hide Serial, RepaidIn, MonthLength, Run, RunInPolicy, InPolicy;
    CyclesAgreeIff(day, rules.payrollDay, rules.cutoff);
    EmptyLawful();
    if StoredCycle(day, rules) != CountedCycle(day, rules) {
      var requests := DisagreeingDayFails(day, rules, p.mayWait);
      var actions := SerialInPolicy(EMPTY_WORLD, requests, rules, day, p);
    } else if p.mayWait {
      var requests := RejectedComesBack(day, rules);
      var actions := SerialInPolicy(EMPTY_WORLD, requests, rules, day, p);
    } else if p.mayLag {
      var actions := EarlyGateFails(day, rules, p);
    } else {
      forall actions, cycle | RunInPolicy(EMPTY_WORLD, actions, 0, p)
        ensures |RepaidIn(Run(EMPTY_WORLD, actions).db, 0, cycle)| <= rules.limit
      {
        LimitKeptInterleaved(actions, 0, p, cycle);
      }
    }
  }
}
