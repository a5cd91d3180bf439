/** Which applications have come to their end, and what brings a rejected one back. */
module Rejections {
  import opened Wrappers
  import opened Tables
  import opened Steps
  import opened Lifecycle
  import opened LedgerInvariant
  import opened LedgerSteps
  import opened InterleavedLaws
  import opened SerialInvariant
  import opened SerialSteps
  import opened SerialLaws
  import opened Progress
  import opened RiskLaws
  import Pricing

  // What history allows

  predicate IsDead(s: Status) {
    s in {EmployerRejected, Cancelled, Expired}
  }

  /** Whether the services' edges lead from one status to another. */
  predicate Leads(s: Status, t: Status) {
    t == s
    || (!IsDead(s) && s != AdminRejected && s != RepaymentScheduled && s != Repaid)
    || (s == AdminRejected && t in {RepaymentScheduled, Repaid})
    || (s == RepaymentScheduled && t == Repaid)
  }

  lemma EdgeLeads(s: Status, t: Status, u: Status)
    requires Leads(s, t) && Edge(Some(t), u)
    ensures Leads(s, u)
  {
  }

  /** A later history takes an application only where its status leads. */
  lemma {:induction false} HistoryLeads(history: seq<Entry>, later: seq<Entry>, a: Id, s: Status)
    requires history <= later && Chained(later) && Edges(later) && Newest(history, a) == Some(s)
    ensures Newest(later, a).Some? && Leads(s, Newest(later, a).value)
    decreases |later|
  {
    if |later| > |history| {
      var init, last := later[..|later| - 1], later[|later| - 1];
      ShorterHistory(later);
      HistoryLeads(history, init, a, s);
      assert later[|later| - 1] in later;
      assert last.previous == Newest(init, last.application);
      if last.application == a { EdgeLeads(s, Newest(init, a).value, last.next); }
    } else {
      assert history == later;
    }
  }

  lemma ShorterHistory(history: seq<Entry>)
    requires Chained(history) && Edges(history) && history != []
    ensures Chained(history[..|history| - 1]) && Edges(history[..|history| - 1])
  {
    var init := history[..|history| - 1];
    forall i | 0 <= i < |init|
      ensures init[i].previous == Newest(init[..i], init[i].application)
    {
      assert init[..i] == history[..i];
    }
  }

  // Applications that have ended

  predicate Waiting(db: Db, a: Id) {
    a in db.disbursals && db.disbursals[a].status == Pending
  }

  /** Cancelled, expired or rejected, and no disbursal left behind. */
  predicate Ended(db: Db, a: Id) {
    a in db.applications
    && (IsDead(db.applications[a].status) || (db.applications[a].status == AdminRejected && a !in db.disbursals))
  }

  lemma RejectedRows(db: Db, a: Id)
    requires SerialInv(db) && a in db.applications && db.applications[a].status == AdminRejected
    ensures a in db.disbursals <==> Waiting(db, a)
    ensures a !in db.repayments && (a in db.disbursals ==> Cleared(db.fees, a))
  {
  }

  /** No step gives a rejected application a disbursal. */
  lemma NoDisbursalFor(db: Db, c: Call, env: Env, a: Id)
    requires Fresh(db, c) && a in db.applications && db.applications[a].status == AdminRejected && a !in db.disbursals
    ensures a !in After(db, Advance(db, c, env)).disbursals
  {
    hide ApplicationStep, FeeStep, RepaymentStep, PayrollStep, SettlementStep, JobStep, DisbursalStep;
    if c.Disbursals? { NoDisbursalStep(db, c.disbursal, env, a); } else { OtherServicesPayNothing(db, c, env); }
  }

  lemma NoDisbursalStep(db: Db, c: DisbursalCall, env: Env, a: Id)
    requires Fresh(db, Disbursals(c)) && a in db.applications && db.applications[a].status == AdminRejected
    requires a !in db.disbursals
    ensures a !in After(db, DisbursalStep(db, c, env)).disbursals
  {
    hide IndexAllows, Pricing.ComputeRepaymentBreakdown;
  }

  /** A lawful successor with a longer history and no new disbursal leaves an ended application as it was. */
  lemma StaysEnded(db: Db, db': Db, a: Id)
    requires SerialInv(db) && SerialInv(db') && Grows(db, db') && Ended(db, a)
    requires db.applications[a].status == AdminRejected ==> a !in db'.disbursals
    ensures Ended(db', a) && db'.applications[a].status == db.applications[a].status
  {
    hide SerialInv, Grows;
    GrownRows(db, db', a);
    HistoryFacts(db, a);
    HistoryFacts(db', a);
    HistoryLeads(db.history, db'.history, a, db.applications[a].status);
    NoDisbursalNoRepayment(db', a);
  }

  lemma GrownRows(db: Db, db': Db, a: Id)
    requires Grows(db, db') && a in db.applications
    ensures a in db'.applications && db.history <= db'.history
  {
  }

  lemma HistoryFacts(db: Db, a: Id)
    requires SerialInv(db) && a in db.applications
    ensures Newest(db.history, a) == Some(db.applications[a].status) && Chained(db.history) && Edges(db.history)
  {
  }

  lemma NoDisbursalNoRepayment(db: Db, a: Id)
    requires SerialInv(db) && a in db.applications
    ensures a !in db.disbursals ==> db.applications[a].status !in {RepaymentScheduled, Repaid}
  {
    assert a in db.repayments <==> PaidOut(db.disbursals, a);
  }

  lemma StepStaysEnded(db: Db, c: Call, env: Env, a: Id)
    requires SerialInv(db) && CallOk(db, c) && Fresh(db, c) && Ended(db, a)
    ensures var db' := After(db, Advance(db, c, env));
            Ended(db', a) && db'.applications[a].status == db.applications[a].status
  {
    hide SerialInv, Inv, Grows, CallOk, Fresh, Advance;
    InvOf(db);
    AdvanceKeeps(db, c, env);
    AdvanceSerial(db, c, env);
    if Advance(db, c, env).Wrote? {
      if db.applications[a].status == AdminRejected { NoDisbursalFor(db, c, env, a); }
      StaysEnded(db, Advance(db, c, env).db, a);
    }
  }

  lemma {:induction false} AloneStaysEnded(db: Db, c: Call, env: Env, a: Id)
    requires SerialInv(db) && CallOk(db, c) && Fresh(db, c) && Ended(db, a)
    ensures var db' := Alone(db, c, env).db; Ended(db', a) && db'.applications[a].status == db.applications[a].status
    decreases StepsLeft(c)
  {
    hide SerialInv, Inv, Grows, CallOk, Fresh, Advance, StepsLeft;
    InvOf(db);
    AdvanceKeeps(db, c, env);
    AdvanceSerial(db, c, env);
    StepsDecrease(db, c, env);
    StepStaysEnded(db, c, env, a);
    match Advance(db, c, env)
    case Read(next) => AloneStaysEnded(db, next, env, a);
    case Wrote(db', Some(rest)) => AloneStaysEnded(db', rest, env, a);
    case Wrote(_, None) =>
    case Returned =>
    case Threw =>
  }

  /** What has ended stays as it ended in every serial continuation. */
  lemma {:induction false} EndedForever(db: Db, requests: seq<Request>, a: Id)
    requires SerialInv(db) && Ended(db, a)
    ensures var db' := Serial(db, requests); Ended(db', a) && db'.applications[a].status == db.applications[a].status
    decreases |requests|
  {
    hide SerialInv, Ended, Alone, CallOk, Fresh, IsRequest;
    if requests == [] {
    } else {
      var init, last := requests[..|requests| - 1], requests[|requests| - 1];
      EndedForever(db, init, a);
      SerialRun(db, init);
      if IsRequest(last.call) {
        RequestFresh(Serial(db, init), last.call);
        AloneStaysEnded(Serial(db, init), last.call, last.env, a);
      }
      EndedIsThere(db, a);
      EndedIsThere(Serial(db, init), a);
      EndedIsThere(Serial(db, requests), a);
    }
  }

  lemma EndedIsThere(db: Db, a: Id)
    ensures Ended(db, a) ==> a in db.applications
  {
  }

  // The paying call

  /** Executing the disbursal of a rejected application pays out exactly when it is pending and the risk, bank and
      index guards let it; otherwise nothing is written. */
  lemma RejectedPaysOutIff(db: Db, a: Id, env: Env)
    requires SerialInv(db) && a in db.applications && db.applications[a].status == AdminRejected
    ensures var done := Alone(db, Disbursals(Disburse(a)), env);
            if Waiting(db, a) && !IsBlocked(db, db.applications[a].employer)
               && env.bankVerified && IndexAllows(db, a, RepaymentScheduled)
            then
              && !done.threw && a in done.db.repayments && a in done.db.applications
              && done.db.applications[a].status == RepaymentScheduled
              && done.db.history == db.history + [Entry(a, Some(AdminRejected), RepaymentScheduled)]
            else done == Finished(db, true)
  {
    hide SerialInv, Alone, DisburseCommit, IndexAllows, Pricing.ComputeRepaymentBreakdown;
    RejectedRows(db, a);
    var app := db.applications[a];
    AloneStep(db, Disbursals(Disburse(a)), env);
    if Waiting(db, a) {
      var d := db.disbursals[a];
      AloneStep(db, Disbursals(DisburseApplication(a, d)), env);
      AloneStep(db, Disbursals(DisburseFee(a, d, app)), env);
      var amount := d.disbursed.GetOr(d.approved);
      var amounts := Pricing.ComputeRepaymentBreakdown(amount, Pricing.FromColumns(app.terms));
      AloneStep(db, Disbursals(DisburseWrite(a, amount, amounts, app)), env);
      RejectedCommit(db, a, amount, amounts);
    }
  }

  lemma RejectedCommit(db: Db, a: Id, amount: Paise, amounts: Breakdown)
    requires a in db.applications && db.applications[a].status == AdminRejected && Waiting(db, a) && a !in db.repayments
    ensures var o := DisburseCommit(db, a, amount, amounts, db.applications[a]);
            if IndexAllows(db, a, RepaymentScheduled) then
              && o.Wrote? && o.rest.None? && a in o.db.repayments && a in o.db.applications
              && o.db.applications[a].status == RepaymentScheduled
              && o.db.history == db.history + [Entry(a, Some(AdminRejected), RepaymentScheduled)]
            else o.Threw?
  {
  }

  // Every continuation

  lemma {:induction false} ListingExists<T>(s: set<T>) returns (rows: seq<T>)
    ensures IsListing(rows, s)
    decreases |s|
  {
    if s == {} {
      rows := [];
    } else {
      var x :| x in s;
      var rest := ListingExists(s - {x});
      rows := rest + [x];
      assert forall y :: y in s ==> y == x || y in rest;
    }
  }

  /** A grace period long enough for every listed settlement. */
  lemma {:induction false} LongGrace(keys: seq<SettlementKey>, settlements: map<SettlementKey, Settlement>,
                                     now: Instant)
    returns (graceDays: nat)
    requires forall k :: k in keys ==> k in settlements
    ensures forall k :: k in keys ==> now <= settlements[k].dueDate + graceDays * DAY
    decreases |keys|
  {
    if keys == [] {
      graceDays := 0;
    } else {
      var rest := LongGrace(keys[1..], settlements, now);
      var due := settlements[keys[0]].dueDate;
      graceDays := rest + if now > due then now - due else 0;
      assert forall k :: k in keys <==> k == keys[0] || k in keys[1..];
    }
  }

  const CALM := Env(0, None, 0, true, true, 0, [], [])

  /** Reassessed under a longer grace period, an employer is not blocked. */
  lemma CanUnblock(db: Db, employer: Id) returns (env: Env)
    ensures var done := Alone(db, Settlements(UpdateRisk(employer)), env);
            !IsBlocked(done.db, employer) && done.db == db.(risk := done.db.risk, settlements := done.db.settlements)
  {
    hide Alone, OpenSettlements;
    var keys := ListingExists(OpenSettlements(db, employer));
    ListedKeys(db, employer, keys);
    var graceDays := LongGrace(keys, db.settlements, 0);
    env := CALM.(graceDays := graceDays, keys := keys);
    RiskRecorded(db, employer, env);
    assert forall k :: k in OpenSettlements(db, employer) ==> k in keys && !PastGrace(db.settlements[k], env);
  }

  /** Repaying or rejecting one advance leaves the employee without an active one there, and touches nothing else. */
  ghost predicate StepsAside(db: Db, db': Db, b: Id)
    requires b in db.applications
  {
    && b in db'.applications && !IsActive(db'.applications[b].status) && db'.risk == db.risk
    && SameBut(db.applications, db'.applications, b) && db'.applications[b].employee == db.applications[b].employee
    && db'.disbursals == db.disbursals && db'.fees == db.fees && SameBut(db.repayments, db'.repayments, b)
  }

  lemma RepaidStepsAside(db: Db, b: Id)
    requires b in db.applications && b in db.repayments && db.repayments[b].status != Paid
    ensures StepsAside(db, Alone(db, Repayments(Pay(b)), CALM).db, b)
  {
    hide Alone;
    AloneStep(db, Repayments(Pay(b)), CALM);
    AloneStep(db, Repayments(PayWrite(b)), CALM);
  }

  lemma RejectedStepsAside(db: Db, b: Id)
    requires b in db.applications
    requires db.applications[b].status in {Submitted, AwaitingPlatformFee, EmployerApproved, ReadyForDisbursal}
    ensures StepsAside(db, Alone(db, Applications(AdminReject(b)), CALM).db, b)
  {
    hide Alone;
    AloneStep(db, Applications(AdminReject(b)), CALM);
    AloneStep(db, Applications(AdminRejectWrite(b, db.applications[b])), CALM);
  }

  /** The one active advance that may stand in the way can be rejected or repaid. */
  lemma CanStepAside(db: Db, b: Id) returns (call: Call)
    requires SerialInv(db) && b in db.applications && IsActive(db.applications[b].status)
    ensures IsRequest(call) && StepsAside(db, Alone(db, call, CALM).db, b)
  {
    hide SerialInv, Alone, StepsAside;
    StandsActive(db, b);
    if db.applications[b].status == RepaymentScheduled {
      call := Repayments(Pay(b));
      RepaidStepsAside(db, b);
    } else {
      call := Applications(AdminReject(b));
      RejectedStepsAside(db, b);
    }
  }

  lemma StandsActive(db: Db, b: Id)
    requires SerialInv(db) && b in db.applications && IsActive(db.applications[b].status)
    ensures db.applications[b].status != Disbursed
    ensures db.applications[b].status == RepaymentScheduled ==> b in db.repayments && db.repayments[b].status != Paid
  {
  }

  lemma OthersInactive(db: Db, b: Id)
    requires SerialInv(db) && b in db.applications && IsActive(db.applications[b].status)
    ensures forall c :: c in db.applications && c != b && db.applications[c].employee == db.applications[b].employee ==>
              !IsActive(db.applications[c].status)
  {
    assert OneActiveAdvance(db.applications);
  }

  /** Whatever stands in the way, some serial continuation pays a waiting disbursal of a rejected application. */
  lemma CanBePaidOut(db: Db, a: Id) returns (requests: seq<Request>)
    requires SerialInv(db) && a in db.applications && db.applications[a].status == AdminRejected && Waiting(db, a)
    ensures var db' := Serial(db, requests); a in db'.applications && db'.applications[a].status == RepaymentScheduled
  {
    hide SerialInv, Alone, Serial, ActiveOf, IsBlocked, OnlyAbout;
    var row := db.applications[a];
    RejectedRows(db, a);
    EmptyRun(db);
    var env := CanUnblock(db, row.employer);
    Then(db, [], Settlements(UpdateRisk(row.employer)), env);
    requests := [] + [Request(Settlements(UpdateRisk(row.employer)), env)];
    var db1 := Serial(db, requests);
    SerialRun(db, requests);
    if b :| b in db1.applications && db1.applications[b].employee == row.employee
            && IsActive(db1.applications[b].status) {
      var call := CanStepAside(db1, b);
      OthersInactive(db1, b);
      Then(db, requests, call, CALM);
      requests := requests + [Request(call, CALM)];
      SameRisk(db1, Serial(db, requests), row.employer);
    }
    var db2 := Serial(db, requests);
    DisburseWorks(db2, a, row, CALM);
    Then(db, requests, Disbursals(Disburse(a)), CALM);
    requests := requests + [Request(Disbursals(Disburse(a)), CALM)];
  }

  lemma SameRisk(db: Db, db': Db, employer: Id)
    requires db'.risk == db.risk
    ensures IsBlocked(db', employer) <==> IsBlocked(db, employer)
  {
  }

  /** A rejected application stays rejected in every serial continuation if and only if no disbursal of it is
      PENDING. */
  lemma RejectedIsFinalIff(db: Db, a: Id)
    requires SerialInv(db) && a in db.applications && db.applications[a].status == AdminRejected
    ensures (forall requests :: a in Serial(db, requests).applications
                                && Serial(db, requests).applications[a].status == AdminRejected)
       <==> !(a in db.disbursals && db.disbursals[a].status == Pending)
  {
    hide SerialInv, Serial;
    RejectedRows(db, a);
    if Waiting(db, a) {
      var requests := CanBePaidOut(db, a);
      assert Serial(db, requests).applications[a].status != AdminRejected;
    } else {
      forall requests
        ensures a in Serial(db, requests).applications && Serial(db, requests).applications[a].status == AdminRejected
      {
        EndedForever(db, requests, a);
      }
    }
  }

  /** The state exists: from empty tables a run of accepted requests leaves a rejected application with its disbursal
      PENDING. */
  lemma RejectedWithDisbursalIsReached(a: Id, employee: Id, employer: Id, requested: Paise, terms: Terms, env: Env)
    requires env.feeAmount.Some? && env.bankVerified && env.otherGates
    ensures var requests := ToRejected(a, employee, employer, requested, terms, env);
            var db := Serial(EMPTY_DB, requests);
            && Accepted(EMPTY_DB, requests)
            && a in db.applications && db.applications[a].status == AdminRejected
            && a in db.disbursals && db.disbursals[a].status == Pending && Cleared(db.fees, a)
  {
    hide Serial, Accepted;
    assert ActiveOf(EMPTY_DB, employee) == {};
    RejectionCanLeaveDisbursal(EMPTY_DB, a, employee, employer, requested, terms, env);
  }
}
