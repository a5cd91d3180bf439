/** When a rejection is final although other calls are in progress. */
module InterleavedRejections {
  import opened Tables
  import opened Steps
  import opened Lifecycle
  import opened LedgerInvariant
  import opened LedgerSteps
  import opened InterleavedLaws
  import opened SerialInvariant
  import opened SerialSteps
  import opened SerialLaws
  import opened StaleWrites
  import opened RiskLaws
  import opened Rejections
  import Pricing

  // Runs in which nothing lands stale

  ghost predicate Lawful(w: World) {
    WorldInv(w) && SerialInv(w.db)
  }

  ghost predicate NothingStale(w: World, actions: seq<Action>) {
    forall i :: 0 <= i < |actions| ==> !LandsStale(Run(w, actions[..i]), actions[i])
  }

  lemma LawfulStep(w: World, action: Action)
    requires Lawful(w) && !LandsStale(w, action)
    ensures Lawful(Step(w, action)) && Grows(w.db, Step(w, action).db)
  {
    hide WorldInv, SerialInv, LandsStale, Step, PaidStays, Grows;
    StepKeeps(w, action);
    StepKeptIff(w, action);
  }

  lemma InitStale(w: World, actions: seq<Action>)
    requires NothingStale(w, actions) && actions != []
    ensures NothingStale(w, actions[..|actions| - 1])
    ensures !LandsStale(Run(w, actions[..|actions| - 1]), actions[|actions| - 1])
  {
    hide LandsStale, Run;
    var init := actions[..|actions| - 1];
    forall i | 0 <= i < |init|
      ensures !LandsStale(Run(w, init[..i]), init[i])
    {
      assert init[..i] == actions[..i];
    }
  }

  lemma {:induction false} LawfulRun(w: World, actions: seq<Action>)
    requires Lawful(w) && NothingStale(w, actions)
    ensures Lawful(Run(w, actions))
    decreases |actions|
  {
    hide Lawful, NothingStale, LandsStale, Step;
    if actions != [] {
      InitStale(w, actions);
      LawfulRun(w, actions[..|actions| - 1]);
      LawfulStep(Run(w, actions[..|actions| - 1]), actions[|actions| - 1]);
    }
  }

  lemma StaleConcat(w: World, actions: seq<Action>, more: seq<Action>)
    requires NothingStale(w, actions) && NothingStale(Run(w, actions), more)
    ensures NothingStale(w, actions + more) && Run(w, actions + more) == Run(Run(w, actions), more)
  {
    hide LandsStale, Run;
    RunConcat(w, actions, more);
    var all := actions + more;
    forall i | 0 <= i < |all|
      ensures !LandsStale(Run(w, all[..i]), all[i])
    {
      if i < |actions| {
        assert all[..i] == actions[..i];
      } else {
        assert all[..i] == actions + more[..i - |actions|];
        RunConcat(w, actions, more[..i - |actions|]);
      }
    }
  }

  lemma OneAction(w: World, action: Action)
    ensures Run(w, [action]) == Step(w, action) && (!LandsStale(w, action) ==> NothingStale(w, [action]))
  {
    hide Step, LandsStale;
    assert [action][..0] == [];
    assert Run(w, []) == w;
  }

  // Serial requests as interleaved actions

  lemma FreshIsTrue(db: Db, c: Call)
    requires Fresh(db, c)
    ensures StillTrue(db, c)
  {
  }

  function AloneActions(db: Db, c: Call, env: Env, id: nat): seq<Action>
    decreases StepsLeft(c)
  {
    StepsDecrease(db, c, env);
    [Resume(id, env)]
    + match Advance(db, c, env)
      case Read(next) => AloneActions(db, next, env, id)
      case Wrote(db', Some(rest)) => AloneActions(db', rest, env, id)
      case _ => []
  }

  lemma ResumeFresh(w: World, id: nat, env: Env)
    requires id in w.calls && Fresh(w.db, w.calls[id])
    ensures !LandsStale(w, Resume(id, env))
  {
    hide Fresh, StillTrue, Advance;
    FreshIsTrue(w.db, w.calls[id]);
  }

  /** What the next step of a fresh call makes of a world. */
  lemma ResumeStep(db: Db, calls: map<nat, Call>, id: nat, c: Call, env: Env)
    requires id !in calls
    ensures var w := Step(World(db, calls[id := c]), Resume(id, env));
            w == match Advance(db, c, env)
                 case Read(next) => World(db, calls[id := next])
                 case Wrote(db', Some(rest)) => World(db', calls[id := rest])
                 case Wrote(db', None) => World(db', calls)
                 case Returned => World(db, calls)
                 case Threw => World(db, calls)
  {
    hide Advance;
    assert calls[id := c] - {id} == calls;
    var o := Advance(db, c, env);
    if o.Read? { assert calls[id := c][id := o.next] == calls[id := o.next]; }
    if o.Wrote? && o.rest.Some? { assert calls[id := c][id := o.rest.value] == calls[id := o.rest.value]; }
  }

  lemma {:induction false} AloneInterleaved(db: Db, calls: map<nat, Call>, id: nat, c: Call, env: Env)
    requires id !in calls && SerialInv(db) && CallOk(db, c) && Fresh(db, c)
    ensures var w := World(db, calls[id := c]);
            && Run(w, AloneActions(db, c, env, id)) == World(Alone(db, c, env).db, calls)
            && NothingStale(w, AloneActions(db, c, env, id))
    decreases StepsLeft(c)
  {
    hide SerialInv, Inv, Grows, CallOk, Fresh, Advance, StepsLeft, Step, Run, NothingStale, LandsStale, StillTrue;
    var w := World(db, calls[id := c]);
    InvOf(db);
    AdvanceKeeps(db, c, env);
    AdvanceSerial(db, c, env);
    StepsDecrease(db, c, env);
    ResumeFresh(w, id, env);
    ResumeStep(db, calls, id, c, env);
    OneAction(w, Resume(id, env));
    match Advance(db, c, env)
    case Read(next) =>
      AloneInterleaved(db, calls, id, next, env);
      StaleConcat(w, [Resume(id, env)], AloneActions(db, next, env, id));
    case Wrote(db', Some(rest)) =>
      AloneInterleaved(db', calls, id, rest, env);
      StaleConcat(w, [Resume(id, env)], AloneActions(db', rest, env, id));
    case Wrote(_, None) => assert AloneActions(db, c, env, id) == [Resume(id, env)];
    case Returned => assert AloneActions(db, c, env, id) == [Resume(id, env)];
    case Threw => assert AloneActions(db, c, env, id) == [Resume(id, env)];
  }

  lemma {:induction false} UpperBound(s: set<nat>) returns (n: nat)
    ensures forall x :: x in s ==> x < n
    decreases s
  {
    if s == {} {
      n := 0;
    } else {
      var x :| x in s;
      var rest := UpperBound(s - {x});
      n := if x < rest then rest else x + 1;
      assert forall y :: y in s ==> y == x || y in s - {x};
    }
  }

  lemma RequestInterleaved(w: World, r: Request) returns (actions: seq<Action>)
    requires Lawful(w) && IsRequest(r.call)
    ensures Run(w, actions) == World(Alone(w.db, r.call, r.env).db, w.calls) && NothingStale(w, actions)
  {
    hide WorldInv, SerialInv, Alone, NothingStale, Step, Run, Fresh, CallOk, LandsStale;
    var id := UpperBound(w.calls.Keys);
    var begin := Begin(id, r.call);
    RequestFresh(w.db, r.call);
    BeginStep(w, id, r.call);
    OneAction(w, begin);
    AloneInterleaved(w.db, w.calls, id, r.call, r.env);
    StaleConcat(w, [begin], AloneActions(w.db, r.call, r.env, id));
    actions := [begin] + AloneActions(w.db, r.call, r.env, id);
  }

  lemma BeginStep(w: World, id: nat, c: Call)
    requires id !in w.calls && IsRequest(c)
    ensures Step(w, Begin(id, c)) == World(w.db, w.calls[id := c]) && !LandsStale(w, Begin(id, c))
  {
    hide Advance;
  }

  /** Any serial continuation can be had beside the calls in progress, and nothing of it lands stale. */
  lemma {:induction false} SerialInterleaved(w: World, requests: seq<Request>) returns (actions: seq<Action>)
    requires Lawful(w)
    ensures Run(w, actions) == World(Serial(w.db, requests), w.calls) && NothingStale(w, actions)
    decreases |requests|
  {
    hide Lawful, Alone, LandsStale, Step, IsRequest;
    if requests == [] {
      actions := [];
    } else {
      var last := requests[|requests| - 1];
      actions := SerialInterleaved(w, requests[..|requests| - 1]);
      if IsRequest(last.call) {
        LawfulRun(w, actions);
        var more := RequestInterleaved(Run(w, actions), last);
        StaleConcat(w, actions, more);
        actions := actions + more;
      }
    }
  }

  // Rejected, and nothing on its way

  /** The creation of a disbursal has seen the application ready. */
  predicate PastStatusCheck(c: Call, a: Id) {
    match c
    case Disbursals(FindDisbursal(b, seen)) => b == a && seen.status == ReadyForDisbursal
    case Disbursals(DisbursalRisk(b, seen)) => b == a && seen.status == ReadyForDisbursal
    case Disbursals(DisbursalFee(b, _)) => b == a
    case Disbursals(CreateDisbursalWrite(b, _)) => b == a
    case _ => false
  }

  predicate CreationUnderWay(w: World, a: Id) {
    exists t :: t in w.calls && PastStatusCheck(w.calls[t], a)
  }

  predicate Rejected(db: Db, a: Id) {
    a in db.applications && db.applications[a].status == AdminRejected
  }

  lemma StaysInService(db: Db, c: Call, env: Env)
    requires !c.Disbursals?
    ensures var o := Advance(db, c, env);
            (o.Read? ==> !o.next.Disbursals?) && (o.Wrote? && o.rest.Some? ==> !o.rest.value.Disbursals?)
  {
    hide ApplicationStep, FeeStep, RepaymentStep, PayrollStep, SettlementStep, JobStep;
    match c
    case Applications(call) => ApplicationsLeaveRisk(db, call, env);
    case Fees(call) => FeesLeaveRisk(db, call, env);
    case Repayments(call) => RepaymentsLeaveRisk(db, call, env);
    case Payroll(call) => PayrollLeavesRisk(db, call, env);
    case Settlements(call) => SettlementsStay(db, call, env);
    case Jobs(call) => JobsLeaveRisk(db, call, env);
  }

  lemma SettlementsStay(db: Db, c: SettlementCall, env: Env)
    ensures var o := SettlementStep(db, c, env);
            (o.Read? ==> o.next.Settlements?) && (o.Wrote? && o.rest.Some? ==> o.rest.value.Settlements?)
  {
    hide AssessRisk, IsListing, MarkRepaymentsPaid, SetStatuses, Entries;
  }

  lemma DisbursalStepCreatesNone(db: Db, c: DisbursalCall, env: Env, a: Id)
    requires Rejected(db, a) && a !in db.disbursals && !PastStatusCheck(Disbursals(c), a)
    ensures var o := DisbursalStep(db, c, env);
            && a !in After(db, o).disbursals
            && (o.Read? ==> !PastStatusCheck(o.next, a)) && (o.Wrote? ==> o.rest.None?)
  {
    hide IndexAllows, Cleared, Pricing.ComputeRepaymentBreakdown;
  }

  lemma StepCreatesNone(db: Db, c: Call, env: Env, a: Id)
    requires Rejected(db, a) && a !in db.disbursals && !PastStatusCheck(c, a)
    ensures var o := Advance(db, c, env);
            && a !in After(db, o).disbursals
            && (o.Read? ==> !PastStatusCheck(o.next, a))
            && (o.Wrote? && o.rest.Some? ==> !PastStatusCheck(o.rest.value, a))
  {
    hide ApplicationStep, FeeStep, DisbursalStep, RepaymentStep, PayrollStep, SettlementStep, JobStep;
    if c.Disbursals? {
      DisbursalStepCreatesNone(db, c.disbursal, env, a);
    } else {
      StaysInService(db, c, env);
      OtherServicesPayNothing(db, c, env);
    }
  }

  ghost predicate NothingOnItsWay(w: World, a: Id) {
    Rejected(w.db, a) && a !in w.db.disbursals && !CreationUnderWay(w, a)
  }

  lemma SettledStep(w: World, action: Action, a: Id)
    requires Lawful(w) && NothingOnItsWay(w, a) && !LandsStale(w, action)
    ensures NothingOnItsWay(Step(w, action), a)
  {
    LawfulStep(w, action);
    NoneCreated(w, action, a);
    hide WorldInv, SerialInv, LandsStale, Step, Grows, CreationUnderWay;
    StaysEnded(w.db, Step(w, action).db, a);
  }

  lemma NoneCreated(w: World, action: Action, a: Id)
    requires NothingOnItsWay(w, a)
    ensures a !in Step(w, action).db.disbursals && !CreationUnderWay(Step(w, action), a)
  {
    hide Advance;
    if action.Resume? && action.id in w.calls { StepCreatesNone(w.db, w.calls[action.id], action.env, a); }
  }

  lemma {:induction false} SettledRun(w: World, actions: seq<Action>, a: Id)
    requires Lawful(w) && NothingOnItsWay(w, a) && NothingStale(w, actions)
    ensures NothingOnItsWay(Run(w, actions), a)
    decreases |actions|
  {
    hide Lawful, NothingOnItsWay, NothingStale, LandsStale, Step;
    if actions != [] {
      var init := actions[..|actions| - 1];
      InitStale(w, actions);
      SettledRun(w, init, a);
      LawfulRun(w, init);
      SettledStep(Run(w, init), actions[|actions| - 1], a);
    }
  }

  // A creation under way

  lemma CreationGoesOn(w: World, t: nat, a: Id, env: Env)
    requires WorldInv(w) && t in w.calls && PastStatusCheck(w.calls[t], a)
    requires Rejected(w.db, a) && a !in w.db.disbursals && !IsBlocked(w.db, w.db.applications[a].employer)
    ensures var o := Advance(w.db, w.calls[t], env);
            if w.calls[t].disbursal.CreateDisbursalWrite? then
              && o.Wrote? && o.rest.None? && o.db == w.db.(disbursals := o.db.disbursals) && Waiting(o.db, a)
              && StillTrue(w.db, w.calls[t])
            else
              o.Read? && PastStatusCheck(o.next, a) && StepsLeft(o.next) < StepsLeft(w.calls[t])
  {
    hide Inv, Cleared;
    assert CallOk(w.db, w.calls[t]);
  }

  /** Resumed until it has written, while the employer is not blocked. */
  lemma {:induction false} CreationLands(w: World, t: nat, a: Id, env: Env) returns (actions: seq<Action>)
    requires Lawful(w) && t in w.calls && PastStatusCheck(w.calls[t], a)
    requires Rejected(w.db, a) && a !in w.db.disbursals && !IsBlocked(w.db, w.db.applications[a].employer)
    ensures NothingStale(w, actions) && Rejected(Run(w, actions).db, a) && Waiting(Run(w, actions).db, a)
    decreases StepsLeft(w.calls[t])
  {
    hide WorldInv, SerialInv, NothingStale, Advance, StillTrue, Run, StepsLeft, IsBlocked;
    CreationGoesOn(w, t, a, env);
    var action := Resume(t, env);
    OneAction(w, action);
    LawfulStep(w, action);
    actions := [action];
    if !w.calls[t].disbursal.CreateDisbursalWrite? {
      var more := CreationLands(Step(w, action), t, a, env);
      StaleConcat(w, actions, more);
      actions := actions + more;
    }
  }

  lemma CanComeBack(w: World, a: Id) returns (actions: seq<Action>)
    requires Lawful(w) && Rejected(w.db, a) && (Waiting(w.db, a) || CreationUnderWay(w, a))
    ensures NothingStale(w, actions) && !Rejected(Run(w, actions).db, a)
  {
    hide WorldInv, SerialInv, NothingStale, Run, Serial, Alone, Waiting, IsBlocked, StepsLeft, PastStatusCheck,
         LandsStale;
    actions := [];
    NoActions(w);
    LawfulDb(w);
    RejectedRows(w.db, a);
    if !Waiting(w.db, a) {
      var t :| t in w.calls && PastStatusCheck(w.calls[t], a);
      var env := CanUnblock(w.db, w.db.applications[a].employer);
      var unblock := RequestInterleaved(w, Request(Settlements(UpdateRisk(w.db.applications[a].employer)), env));
      LawfulRun(w, unblock);
      var w1 := Run(w, unblock);
      var create := CreationLands(w1, t, a, env);
      StaleConcat(w, unblock, create);
      actions := unblock + create;
    }
    LawfulRun(w, actions);
    var w2 := Run(w, actions);
    LawfulDb(w2);
    var requests := CanBePaidOut(w2.db, a);
    var pay := SerialInterleaved(w2, requests);
    StaleConcat(w, actions, pay);
    actions := actions + pay;
  }

  lemma NoActions(w: World)
    ensures Run(w, []) == w && NothingStale(w, [])
  {
  }

  lemma LawfulDb(w: World)
    requires Lawful(w)
    ensures SerialInv(w.db)
  {
  }

  /** With any calls in progress, a rejected application stays rejected in every continuation in which no write lands
      stale, if and only if no disbursal of it is PENDING and none is being created by a call that saw it ready. */
  lemma RejectedIsFinalIff(w: World, a: Id)
    requires WorldInv(w) && SerialInv(w.db) && Rejected(w.db, a)
    ensures (forall actions :: NothingStale(w, actions) ==> Rejected(Run(w, actions).db, a))
       <==> !(a in w.db.disbursals && w.db.disbursals[a].status == Pending) && !CreationUnderWay(w, a)
  {
    hide WorldInv, SerialInv, NothingStale, Run, CreationUnderWay;
    RejectedRows(w.db, a);
    if Waiting(w.db, a) || CreationUnderWay(w, a) {
      var actions := CanComeBack(w, a);
    } else {
      forall actions | NothingStale(w, actions)
        ensures Rejected(Run(w, actions).db, a)
      {
        SettledRun(w, actions, a);
      }
    }
  }
}
