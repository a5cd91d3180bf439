/** Which writes of an interleaved run break a serial law: exactly those whose reads are no longer true. */
module StaleWrites {
  import opened Wrappers
  import opened Tables
  import opened Steps
  import opened Lifecycle
  import opened LedgerInvariant
  import opened LedgerSteps
  import opened InterleavedLaws
  import opened SerialInvariant
  import opened SerialSteps
  import opened SerialLaws

  predicate StatusIs(db: Db, a: Id, s: Status) {
    a in db.applications ==> db.applications[a].status == s
  }

  /** What the call has read, and its write does not check again, is still true. */
  ghost predicate StillTrue(db: Db, c: Call) {
    match c
    case Applications(CancelWrite(a)) => StatusIs(db, a, Submitted)
    case Applications(EmployerApproveWrite(a, _)) => StatusIs(db, a, Submitted)
    case Applications(EmployerRejectWrite(a)) => StatusIs(db, a, Submitted)
    case Applications(AdminApproveWrite(a, _)) => StatusIs(db, a, EmployerApproved)
    case Applications(AdminRejectWrite(a, seen)) =>
      StatusIs(db, a, seen.status) && Edge(Some(seen.status), AdminRejected)
    case Fees(WaiveWrite(a, seen)) => seen.status == AwaitingPlatformFee ==> StatusIs(db, a, AwaitingPlatformFee)
    case Disbursals(CreateDisbursalWrite(a, _)) =>
      a in db.disbursals || StatusIs(db, a, ReadyForDisbursal) || StatusIs(db, a, AdminRejected)
    case Disbursals(DisburseWrite(a, _, _, seen)) => StatusIs(db, a, seen.status)
    case Settlements(RiskOverdueWrite(key)) => key in db.settlements ==> db.settlements[key].status != SettlementPaid
    case Jobs(ExpireStaleWrite(ids)) => Distinct(ids) && forall a :: a in ids ==> StatusIs(db, a, Submitted)
    case Jobs(RepaymentsOverdueWrite(overdue)) =>
      forall r :: r in overdue && r in db.repayments ==> db.repayments[r].status != Paid
    case Jobs(SettlementsOverdueWrite(late)) =>
      forall k :: k in late && k in db.settlements ==> db.settlements[k].status != SettlementPaid
    case _ => true
  }

  /** The serial invariant holds afterwards, and nothing paid has been reopened. */
  ghost predicate LawsKept(db: Db, db': Db) {
    SerialInv(db') && PaidStays(db, db')
  }

  lemma UnchangedKeeps(db: Db)
    requires SerialInv(db)
    ensures LawsKept(db, db)
  {
    hide SerialInv;
  }

  lemma OkKeeps(db: Db, o: Outcome)
    requires SerialInv(db) && SerialStepOk(db, o)
    ensures LawsKept(db, After(db, o))
  {
    hide SerialInv, Fresh;
  }

  // Status writes

  lemma StaleEntryBreaks(db: Db, e: Entry, db': Db)
    requires SerialInv(db) && e.application in db.applications && db'.history == db.history + [e]
    requires e.previous != Some(db.applications[e.application].status)
    ensures !SerialInv(db')
  {
    var h := db'.history;
    assert h[..|db.history|] == db.history && h[|db.history|] == e;
    assert Newest(db.history, e.application) == Some(db.applications[e.application].status);
  }

  lemma WrongEdgeBreaks(db: Db, e: Entry, db': Db)
    requires db'.history == db.history + [e] && !Edge(e.previous, e.next)
    ensures !SerialInv(db')
  {
    assert e in db'.history;
  }

  lemma StatusWriteKeptIff(db: Db, a: Id, previous: Status, next: Status)
    requires SerialInv(db) && next !in {RepaymentScheduled, Repaid} && Edge(Some(previous), next)
    requires NeedsClearedFee(next) ==> Cleared(db.fees, a)
    ensures var o := StatusWrite(db, a, previous, next);
            LawsKept(db, After(db, o)) <==> (o.Wrote? ==> StatusIs(db, a, previous))
  {
    hide SerialInv, PaidStays, IndexAllows, Edge, Fresh;
    var o := StatusWrite(db, a, previous, next);
    if !o.Wrote? {
      UnchangedKeeps(db);
    } else if StatusIs(db, a, previous) {
      StatusWriteSerial(db, a, next);
      OkKeeps(db, o);
    } else {
      StaleEntryBreaks(db, Entry(a, Some(previous), next), o.db);
    }
  }

  lemma AdminRejectKeptIff(db: Db, a: Id, seen: Application)
    requires SerialInv(db)
    ensures var o := StatusWrite(db, a, seen.status, AdminRejected);
            LawsKept(db, After(db, o))
            <==> (o.Wrote? ==> StatusIs(db, a, seen.status) && Edge(Some(seen.status), AdminRejected))
  {
    hide SerialInv, PaidStays, IndexAllows, Edge;
    var o := StatusWrite(db, a, seen.status, AdminRejected);
    if Edge(Some(seen.status), AdminRejected) {
      StatusWriteKeptIff(db, a, seen.status, AdminRejected);
    } else if o.Wrote? {
      WrongEdgeBreaks(db, Entry(a, Some(seen.status), AdminRejected), o.db);
    } else {
      UnchangedKeeps(db);
    }
  }

  /** Of a row read earlier the approval uses only what never changes. */
  lemma ApprovalFromCurrentRow(db: Db, a: Id, seen: Application, feeAmount: Option<Paise>)
    requires Seen(db.applications, a, seen)
    ensures EmployerApproveCommit(db, a, seen, feeAmount) == EmployerApproveCommit(db, a, db.applications[a], feeAmount)
  {
    hide IndexAllows;
  }

  lemma CurrentRowSeen(db: Db, a: Id)
    requires SerialInv(db) && a in db.applications
    ensures Current(db, a, db.applications[a]) && Seen(db.applications, a, db.applications[a])
  {
  }

  lemma EmployerApproveKeptIff(db: Db, a: Id, seen: Application, feeAmount: Option<Paise>)
    requires SerialInv(db) && Seen(db.applications, a, seen)
    ensures var o := EmployerApproveCommit(db, a, seen, feeAmount);
            LawsKept(db, After(db, o)) <==> (o.Wrote? ==> StatusIs(db, a, Submitted))
  {
    hide SerialInv, PaidStays, IndexAllows, Fresh, EmployerApproveCommit;
    ApprovalFromCurrentRow(db, a, seen, feeAmount);
    CurrentRowSeen(db, a);
    var o := EmployerApproveCommit(db, a, db.applications[a], feeAmount);
    if !o.Wrote? {
      UnchangedKeeps(db);
    } else if StatusIs(db, a, Submitted) {
      EmployerApproveSerial(db, a, db.applications[a], feeAmount);
      OkKeeps(db, o);
    } else {
      ApprovalWrites(db, a, db.applications[a], feeAmount);
      StaleEntryBreaks(db, Entry(a, Some(Submitted), AwaitingPlatformFee), o.db);
    }
  }

  lemma AdminApprovalFromCurrentRow(db: Db, a: Id, seen: Application)
    requires Seen(db.applications, a, seen) && Seen(db.applications, a, db.applications[a])
    ensures AdminApproveCommit(db, a, seen) == AdminApproveCommit(db, a, db.applications[a])
    ensures var o := AdminApproveCommit(db, a, seen);
            o.Wrote? ==> o.db.history == db.history + [Entry(a, Some(EmployerApproved), ReadyForDisbursal)]
  {
    hide IndexAllows;
  }

  lemma AdminApproveKeptIff(db: Db, a: Id, seen: Application)
    requires SerialInv(db) && Seen(db.applications, a, seen) && Cleared(db.fees, a)
    ensures var o := AdminApproveCommit(db, a, seen);
            LawsKept(db, After(db, o)) <==> (o.Wrote? ==> StatusIs(db, a, EmployerApproved))
  {
    hide SerialInv, PaidStays, IndexAllows, Fresh, AdminApproveCommit;
    CurrentRowSeen(db, a);
    AdminApprovalFromCurrentRow(db, a, seen);
    var o := AdminApproveCommit(db, a, db.applications[a]);
    if !o.Wrote? {
      UnchangedKeeps(db);
    } else if StatusIs(db, a, EmployerApproved) {
      AdminApproveSerial(db, a, db.applications[a]);
      OkKeeps(db, o);
    } else {
      StaleEntryBreaks(db, Entry(a, Some(EmployerApproved), ReadyForDisbursal), o.db);
    }
  }

  lemma ApplicationWriteKeptIff(db: Db, c: ApplicationCall, env: Env)
    requires SerialInv(db) && ApplicationCallOk(db, c)
    ensures var o := ApplicationStep(db, c, env);
            LawsKept(db, After(db, o)) <==> (o.Wrote? ==> StillTrue(db, Applications(c)))
  {
    hide SerialInv, PaidStays, LawsKept, SubmitCommit, StatusWrite, EmployerApproveCommit, AdminApproveCommit, StatusIs,
         CancelRead, EmployerApproveRead, EmployerRejectRead, AdminApproveRead, AdminRejectRead;
    UnchangedKeeps(db);
    match c
    case SubmitWrite(a, employee, employer, requested, terms) =>
      SubmitSerial(db, a, employee, employer, requested, terms, env.now);
      OkKeeps(db, ApplicationStep(db, c, env));
    case CancelWrite(a) => StatusWriteKeptIff(db, a, Submitted, Cancelled);
    case EmployerApproveWrite(a, seen) => EmployerApproveKeptIff(db, a, seen, env.feeAmount);
    case EmployerRejectWrite(a) => StatusWriteKeptIff(db, a, Submitted, EmployerRejected);
    case AdminApproveWrite(a, seen) => AdminApproveKeptIff(db, a, seen);
    case AdminRejectWrite(a, seen) => AdminRejectKeptIff(db, a, seen);
    case _ => ApplicationReads(db, c, env);
  }

  lemma ApplicationReads(db: Db, c: ApplicationCall, env: Env)
    requires c.Submit? || c.Cancel? || c.EmployerApprove? || c.EmployerApproveCheck? || c.EmployerReject?
             || c.AdminApprove? || c.AdminApproveFee? || c.AdminReject?
    ensures !ApplicationStep(db, c, env).Wrote?
  {
  }

  // Fees and disbursals

  lemma WaiveTables(db: Db, a: Id, seen: Application)
    requires SerialInv(db) && a in db.fees
    ensures var waived := db.(fees := db.fees[a := db.fees[a].(status := FeeWaived)]);
            && SerialInv(waived) && Cleared(waived.fees, a) && a in db.applications
            && WaiveCommit(db, a, seen)
               == if seen.status == AwaitingPlatformFee then StatusWrite(waived, a, seen.status, EmployerApproved)
                                           else Wrote(waived, None)
  {
    hide SerialInv, Inv, Grows, StatusWrite;
    InvOf(db);
    ClearFeeKeeps(db, a, FeeWaived);
    FrameSerial(db, db.(fees := db.fees[a := db.fees[a].(status := FeeWaived)]));
    FeesOfApplications(db);
  }

  lemma FeesOfApplications(db: Db)
    requires Inv(db)
    ensures forall a :: a in db.fees ==> a in db.applications
  {
  }

  lemma WaiveKeptIff(db: Db, a: Id, seen: Application)
    requires SerialInv(db)
    ensures var o := WaiveCommit(db, a, seen);
            LawsKept(db, After(db, o)) <==> (o.Wrote? ==> StillTrue(db, Fees(WaiveWrite(a, seen))))
  {
    hide SerialInv, WaiveCommit, StatusWrite, IndexAllows;
    if a in db.fees {
      WaiveTables(db, a, seen);
      var waived := db.(fees := db.fees[a := db.fees[a].(status := FeeWaived)]);
      if seen.status == AwaitingPlatformFee {
        StatusWriteKeptIff(waived, a, seen.status, EmployerApproved);
        WriteKeepsPayments(waived, a, seen.status, EmployerApproved);
      }
    } else {
      WaiveRefused(db, a, seen);
      UnchangedKeeps(db);
    }
  }

  lemma WaiveRefused(db: Db, a: Id, seen: Application)
    requires a !in db.fees
    ensures WaiveCommit(db, a, seen).Threw?
  {
  }

  lemma WriteKeepsPayments(db: Db, a: Id, previous: Status, next: Status)
    ensures var db' := After(db, StatusWrite(db, a, previous, next));
            db'.repayments == db.repayments && db'.settlements == db.settlements
  {
    hide IndexAllows;
  }

  lemma FeeWriteKeptIff(db: Db, c: FeeCall, env: Env)
    requires SerialInv(db) && FeeCallOk(db, c)
    ensures var o := FeeStep(db, c, env);
            LawsKept(db, After(db, o)) <==> (o.Wrote? ==> StillTrue(db, Fees(c)))
  {
    hide SerialInv, LawsKept, WaiveCommit, FeeStep;
    UnchangedKeeps(db);
    match c
    case WaiveWrite(a, seen) => WaiveKeptIff(db, a, seen); FeeWriteSteps(db, c, env);
    case CaptureWrite(o, a) => CaptureSerial(db, o, a); FeeWriteSteps(db, c, env); OkKeeps(db, FeeStep(db, c, env));
    case CreateFee(_, _) => FeeWritesSerial(db, c, env); OkKeeps(db, FeeStep(db, c, env));
    case CreateOrder(_, _) => FeeWritesSerial(db, c, env); OkKeeps(db, FeeStep(db, c, env));
    case FailPaymentWrite(_) => FeeWritesSerial(db, c, env); OkKeeps(db, FeeStep(db, c, env));
    case _ => FeeReads(db, c, env);
  }

  lemma FeeReads(db: Db, c: FeeCall, env: Env)
    requires c.InitiatePayment? || c.EnsureFee? || c.FindOrder? || c.Waive? || c.Capture? || c.FailPayment?
    ensures !FeeStep(db, c, env).Wrote?
  {
    hide Cleared;
  }

  lemma CreateDisbursalFromCurrentRow(db: Db, a: Id, seen: Application)
    requires Seen(db.applications, a, seen) && Seen(db.applications, a, db.applications[a])
    ensures CreateDisbursalCommit(db, a, seen) == CreateDisbursalCommit(db, a, db.applications[a])
  {
  }

  lemma MisplacedDisbursalBreaks(db: Db, a: Id, db': Db)
    requires a in db'.disbursals && db'.disbursals[a].status == Pending && a in db'.applications
    requires db'.applications[a].status !in {ReadyForDisbursal, AdminRejected}
    ensures !SerialInv(db')
  {
  }

  lemma CreateDisbursalKeptIff(db: Db, a: Id, seen: Application)
    requires SerialInv(db) && Seen(db.applications, a, seen) && Cleared(db.fees, a)
    ensures var o := CreateDisbursalCommit(db, a, seen);
            LawsKept(db, After(db, o)) <==> (o.Wrote? ==> StillTrue(db, Disbursals(CreateDisbursalWrite(a, seen))))
  {
    hide SerialInv, PaidStays, Fresh;
    CurrentRowSeen(db, a);
    CreateDisbursalFromCurrentRow(db, a, seen);
    var o := CreateDisbursalCommit(db, a, db.applications[a]);
    if a in db.disbursals {
      UnchangedKeeps(db);
    } else if db.applications[a].status in {ReadyForDisbursal, AdminRejected} {
      CreateDisbursalSerial(db, a, db.applications[a]);
      OkKeeps(db, o);
    } else {
      MisplacedDisbursalBreaks(db, a, o.db);
    }
  }

  lemma PayoutFromCurrentRow(db: Db, a: Id, amount: Paise, amounts: Breakdown, seen: Application)
    requires Seen(db.applications, a, seen)
    ensures var o := DisburseCommit(db, a, amount, amounts, seen);
            && (seen.status == db.applications[a].status ==>
                 o == DisburseCommit(db, a, amount, amounts, db.applications[a]))
            && (o.Wrote? ==> o.db.history == db.history + [Entry(a, Some(seen.status), RepaymentScheduled)])
  {
    hide IndexAllows;
  }

  lemma DisburseKeptIff(db: Db, a: Id, amount: Paise, amounts: Breakdown, seen: Application)
    requires SerialInv(db) && DisbursalCallOk(db, DisburseWrite(a, amount, amounts, seen))
    ensures var o := DisburseCommit(db, a, amount, amounts, seen);
            LawsKept(db, After(db, o)) <==> (o.Wrote? ==> StatusIs(db, a, seen.status))
  {
    hide SerialInv, PaidStays, Fresh, DisburseCommit, Balanced;
    CurrentRowSeen(db, a);
    PayoutFromCurrentRow(db, a, amount, amounts, seen);
    var o := DisburseCommit(db, a, amount, amounts, seen);
    if !o.Wrote? {
      UnchangedKeeps(db);
    } else if seen.status == db.applications[a].status {
      DisburseSerial(db, a, amount, amounts, db.applications[a]);
      OkKeeps(db, o);
    } else {
      StaleEntryBreaks(db, Entry(a, Some(seen.status), RepaymentScheduled), o.db);
    }
  }

  lemma DisbursalWriteKeptIff(db: Db, c: DisbursalCall, env: Env)
    requires SerialInv(db) && DisbursalCallOk(db, c)
    ensures var o := DisbursalStep(db, c, env);
            LawsKept(db, After(db, o)) <==> (o.Wrote? ==> StillTrue(db, Disbursals(c)))
  {
    hide SerialInv, LawsKept, CreateDisbursalCommit, DisburseCommit, Cleared;
    UnchangedKeeps(db);
    match c
    case CreateDisbursalWrite(a, seen) => CreateDisbursalKeptIff(db, a, seen);
    case DisburseWrite(a, amount, amounts, seen) => DisburseKeptIff(db, a, amount, amounts, seen);
    case _ =>
  }

  // Repayments and settlements

  lemma RepaymentWriteKept(db: Db, c: RepaymentCall, env: Env)
    requires SerialInv(db) && RepaymentCallOk(db, c)
    ensures LawsKept(db, After(db, RepaymentStep(db, c, env)))
  {
    hide SerialInv, LawsKept;
    RepaymentStepSerial(db, c, env);
    OkKeeps(db, RepaymentStep(db, c, env));
  }

  lemma PayrollWriteKept(db: Db, c: PayrollCall, env: Env)
    requires SerialInv(db) && PayrollCallOk(db, c)
    ensures LawsKept(db, After(db, PayrollStep(db, c, env)))
  {
    hide SerialInv, LawsKept, PayrollStep;
    PayrollStepSerial(db, c, env);
    OkKeeps(db, PayrollStep(db, c, env));
  }

  lemma RiskOverdueKeptIff(db: Db, key: SettlementKey)
    requires SerialInv(db)
    ensures var o := RiskOverdueCommit(db, key);
            LawsKept(db, After(db, o)) <==> (o.Wrote? ==> StillTrue(db, Settlements(RiskOverdueWrite(key))))
  {
    hide SerialInv, Fresh;
    if key !in db.settlements {
      UnchangedKeeps(db);
    } else if db.settlements[key].status != SettlementPaid {
      RiskOverdueSerial(db, key);
      OkKeeps(db, RiskOverdueCommit(db, key));
    } else {
      Reopened(db, RiskOverdueCommit(db, key).db, key);
    }
  }

  lemma Reopened(db: Db, db': Db, key: SettlementKey)
    requires key in db.settlements && db.settlements[key].status == SettlementPaid
    requires key in db'.settlements && db'.settlements[key].status != SettlementPaid
    ensures !PaidStays(db, db')
  {
  }

  lemma SettlementWriteKeptIff(db: Db, c: SettlementCall, env: Env)
    requires SerialInv(db) && SettlementCallOk(db, c)
    ensures var o := SettlementStep(db, c, env);
            LawsKept(db, After(db, o)) <==> (o.Wrote? ==> StillTrue(db, Settlements(c)))
  {
    hide SerialInv, LawsKept, SettlementStep;
    match c
    case RiskOverdueWrite(key) =>
      RiskOverdueKeptIff(db, key);
      RiskOverdueStep(db, key, env);
    case _ =>
      SettlementFresh(db, c);
      SettlementStepSerial(db, c, env);
      OkKeeps(db, SettlementStep(db, c, env));
  }

  lemma RiskOverdueStep(db: Db, key: SettlementKey, env: Env)
    ensures SettlementStep(db, RiskOverdueWrite(key), env) == RiskOverdueCommit(db, key)
  {
  }

  lemma SettlementFresh(db: Db, c: SettlementCall)
    requires SettlementCallOk(db, c) && !c.RiskOverdueWrite?
    ensures Fresh(db, Settlements(c))
  {
  }

  // Jobs

  lemma ExpiredNewest(history: seq<Entry>, ids: seq<Id>, a: Id)
    ensures Newest(history + ExpiredEntries(ids), a) == if a in ids then Some(Expired) else Newest(history, a)
  {
    hide Newest;
    NewestConcat(history, ExpiredEntries(ids), Expired, a);
    if a in ids {
      var j :| 0 <= j < |ids| && ids[j] == a;
      assert ExpiredEntries(ids)[j].application == a;
    }
  }

  lemma ExpiryEntry(history: seq<Entry>, ids: seq<Id>, i: nat)
    requires Chained(history + ExpiredEntries(ids)) && i < |ids|
    ensures Newest(history + ExpiredEntries(ids[..i]), ids[i]) == Some(Submitted)
  {
    hide Newest;
    var h, n := history + ExpiredEntries(ids), |history| + i;
    assert h[n] == Entry(ids[i], Some(Submitted), Expired);
    assert ExpiredEntries(ids)[..i] == ExpiredEntries(ids[..i]);
    assert h[..n] == history + ExpiredEntries(ids)[..i];
  }

  /** An expiry that writes its history as a chain found every application it names submitted, once. */
  lemma ExpiryChain(db: Db, ids: seq<Id>)
    requires HistoryTip(db.applications, db.history) && Chained(db.history + ExpiredEntries(ids))
    requires forall a :: a in ids ==> a in db.applications
    ensures StillTrue(db, Jobs(ExpireStaleWrite(ids)))
  {
    hide Newest, ExpiredEntries, Chained;
    forall i | 0 <= i < |ids|
      ensures ids[i] !in ids[..i] && db.applications[ids[i]].status == Submitted
    {
      ExpiryEntry(db.history, ids, i);
      ExpiredNewest(db.history, ids[..i], ids[i]);
    }
    forall i, j | 0 <= i < j < |ids|
      ensures ids[i] != ids[j]
    {
      assert ids[..j][i] == ids[i];
    }
  }

  lemma ChainOf(db: Db, db': Db)
    requires SerialInv(db')
    ensures Chained(db'.history)
  {
  }

  lemma ExpireKeptIff(db: Db, ids: seq<Id>)
    requires SerialInv(db) && forall a :: a in ids ==> a in db.applications
    ensures LawsKept(db, ExpireStaleCommit(db, ids).db) <==> StillTrue(db, Jobs(ExpireStaleWrite(ids)))
  {
    hide SerialInv, PaidStays, Fresh, Chained, HistoryTip;
    if StillTrue(db, Jobs(ExpireStaleWrite(ids))) {
      ExpireSerial(db, ids);
      OkKeeps(db, ExpireStaleCommit(db, ids));
    }
    if LawsKept(db, ExpireStaleCommit(db, ids).db) {
      ChainOf(db, ExpireStaleCommit(db, ids).db);
      HistoryTipOf(db);
      ExpiryChain(db, ids);
    }
  }

  lemma HistoryTipOf(db: Db)
    requires SerialInv(db)
    ensures HistoryTip(db.applications, db.history)
  {
  }

  /** Rows that are gone or already overdue are not rewritten. */
  lemma OnlyScheduledRewritten(db: Db, overdue: set<Id>)
    requires forall r :: r in overdue && r in db.repayments ==> db.repayments[r].status != Paid
    ensures var scheduled := set r | r in overdue && r in db.repayments && db.repayments[r].status == Scheduled;
            RepaymentsOverdueCommit(db, overdue) == RepaymentsOverdueCommit(db, scheduled)
  {
    var scheduled := set r | r in overdue && r in db.repayments && db.repayments[r].status == Scheduled;
    assert RepaymentsOverdueCommit(db, overdue).db.repayments == RepaymentsOverdueCommit(db, scheduled).db.repayments;
  }

  lemma RepaymentsOverdueKeptIff(db: Db, overdue: set<Id>)
    requires SerialInv(db)
    ensures LawsKept(db, RepaymentsOverdueCommit(db, overdue).db)
       <==> StillTrue(db, Jobs(RepaymentsOverdueWrite(overdue)))
  {
    hide SerialInv, Fresh;
    if forall r :: r in overdue && r in db.repayments ==> db.repayments[r].status != Paid {
      OnlyScheduledRewritten(db, overdue);
      var scheduled := set r | r in overdue && r in db.repayments && db.repayments[r].status == Scheduled;
      RepaymentsOverdueSerial(db, scheduled);
      OkKeeps(db, RepaymentsOverdueCommit(db, scheduled));
    } else {
      var r :| r in overdue && r in db.repayments && db.repayments[r].status == Paid;
      assert RepaymentsOverdueCommit(db, overdue).db.repayments[r].status == Overdue;
    }
  }

  lemma OnlyExistingRewritten(db: Db, late: set<SettlementKey>)
    ensures SettlementsOverdueCommit(db, late) == SettlementsOverdueCommit(db, late * db.settlements.Keys)
  {
    assert SettlementsOverdueCommit(db, late).db.settlements
        == SettlementsOverdueCommit(db, late * db.settlements.Keys).db.settlements;
  }

  lemma SettlementsOverdueKeptIff(db: Db, late: set<SettlementKey>)
    requires SerialInv(db)
    ensures LawsKept(db, SettlementsOverdueCommit(db, late).db) <==> StillTrue(db, Jobs(SettlementsOverdueWrite(late)))
  {
    hide SerialInv, Fresh;
    if forall k :: k in late && k in db.settlements ==> db.settlements[k].status != SettlementPaid {
      OnlyExistingRewritten(db, late);
      SettlementsOverdueSerial(db, late * db.settlements.Keys);
      OkKeeps(db, SettlementsOverdueCommit(db, late * db.settlements.Keys));
    } else {
      var k :| k in late && k in db.settlements && db.settlements[k].status == SettlementPaid;
      Reopened(db, SettlementsOverdueCommit(db, late).db, k);
    }
  }

  lemma JobWriteKeptIff(db: Db, c: JobCall, env: Env)
    requires SerialInv(db) && JobCallOk(db, c)
    ensures var o := JobStep(db, c, env);
            LawsKept(db, After(db, o)) <==> (o.Wrote? ==> StillTrue(db, Jobs(c)))
  {
    hide SerialInv, LawsKept, StillTrue, ExpiredEntries;
    UnchangedKeeps(db);
    match c
    case ExpireStaleWrite(ids) => ExpireKeptIff(db, ids);
    case RepaymentsOverdueWrite(overdue) => RepaymentsOverdueKeptIff(db, overdue);
    case SettlementsOverdueWrite(late) => SettlementsOverdueKeptIff(db, late);
    case _ =>
  }

  // The law

  /** From any state that meets the serial laws, whatever else is in progress, the next step of a call keeps them
      exactly when it commits nothing or what its write takes for granted is still true. */
  lemma KeptIff(db: Db, c: Call, env: Env)
    requires SerialInv(db) && CallOk(db, c)
    ensures var o := Advance(db, c, env);
            LawsKept(db, After(db, o)) <==> (o.Wrote? ==> StillTrue(db, c))
  {
    hide SerialInv, LawsKept, ApplicationStep, FeeStep, DisbursalStep, RepaymentStep, PayrollStep, SettlementStep,
         JobStep;
    match c
    case Applications(call) => ApplicationWriteKeptIff(db, call, env);
    case Fees(call) => FeeWriteKeptIff(db, call, env);
    case Disbursals(call) => DisbursalWriteKeptIff(db, call, env);
    case Repayments(call) => RepaymentWriteKept(db, call, env);
    case Payroll(call) => PayrollWriteKept(db, call, env);
    case Settlements(call) => SettlementWriteKeptIff(db, call, env);
    case Jobs(call) => JobWriteKeptIff(db, call, env);
  }

  /** A write lands although what it takes for granted has changed. */
  ghost predicate LandsStale(w: World, action: Action) {
    && action.Resume? && action.id in w.calls
    && Advance(w.db, w.calls[action.id], action.env).Wrote? && !StillTrue(w.db, w.calls[action.id])
  }

  lemma StepKeptIff(w: World, action: Action)
    requires WorldInv(w) && SerialInv(w.db)
    ensures LawsKept(w.db, Step(w, action).db) <==> !LandsStale(w, action)
  {
    hide Inv, SerialInv, LawsKept, StillTrue, CallOk, Advance;
    UnchangedKeeps(w.db);
    if action.Resume? && action.id in w.calls {
      KeptIff(w.db, w.calls[action.id], action.env);
      StepIsAdvance(w, action.id, action.env);
    }
  }

  lemma StepIsAdvance(w: World, id: nat, env: Env)
    requires id in w.calls
    ensures Step(w, Resume(id, env)).db == After(w.db, Advance(w.db, w.calls[id], env))
  {
    hide Advance;
  }

  /** The world before the `i`th action of a run from empty tables. */
  function Before(actions: seq<Action>, i: nat): World
    requires i <= |actions|
  {
    Run(EMPTY_WORLD, actions[..i])
  }

  /** An interleaved run keeps every serial law at every step exactly when none of its writes lands stale. */
  lemma SerialLawsIffNothingStale(actions: seq<Action>)
    ensures (forall i :: 0 <= i < |actions| ==> LawsKept(Before(actions, i).db, Before(actions, i + 1).db))
       <==> (forall i :: 0 <= i < |actions| ==> !LandsStale(Before(actions, i), actions[i]))
  {
    hide LawsKept, LandsStale, Before;
    if forall i :: 0 <= i < |actions| ==> LawsKept(Before(actions, i).db, Before(actions, i + 1).db) {
      forall i | 0 <= i < |actions|
        ensures !LandsStale(Before(actions, i), actions[i])
      {
        if i > 0 { assert LawsKept(Before(actions, i - 1).db, Before(actions, i - 1 + 1).db); }
        KeptSoFar(actions, i);
      }
    }
    if forall i :: 0 <= i < |actions| ==> !LandsStale(Before(actions, i), actions[i]) {
      NothingStaleKeeps(actions, |actions|);
    }
  }

  lemma BeforeNext(actions: seq<Action>, i: nat)
    requires i < |actions|
    ensures Before(actions, i + 1) == Step(Before(actions, i), actions[i]) && WorldInv(Before(actions, i))
    ensures i == 0 ==> SerialInv(Before(actions, i).db)
  {
    hide Inv, CallOk, Step, SerialInv;
    Reachable(actions[..i]);
    EmptySerial();
    assert actions[..i + 1][..i] == actions[..i];
  }

  lemma KeptSoFar(actions: seq<Action>, i: nat)
    requires i < |actions| && LawsKept(Before(actions, i).db, Before(actions, i + 1).db)
    requires i > 0 ==> LawsKept(Before(actions, i - 1).db, Before(actions, i).db)
    ensures !LandsStale(Before(actions, i), actions[i])
  {
    hide SerialInv, LandsStale, Before, Step, PaidStays;
    BeforeNext(actions, i);
    StepKeptIff(Before(actions, i), actions[i]);
  }

  lemma {:induction false} NothingStaleKeeps(actions: seq<Action>, n: nat)
    requires n <= |actions| && forall i :: 0 <= i < n ==> !LandsStale(Before(actions, i), actions[i])
    ensures forall i :: 0 <= i < n ==> LawsKept(Before(actions, i).db, Before(actions, i + 1).db)
    ensures SerialInv(Before(actions, n).db)
  {
    hide SerialInv, LandsStale, Before, Step, PaidStays;
    if n == 0 {
      EmptyBefore(actions);
    } else {
      NothingStaleKeeps(actions, n - 1);
      BeforeNext(actions, n - 1);
      StepKeptIff(Before(actions, n - 1), actions[n - 1]);
    }
  }

  lemma EmptyBefore(actions: seq<Action>)
    ensures SerialInv(Before(actions, 0).db)
  {
    hide SerialInv;
    EmptySerial();
  }
}
