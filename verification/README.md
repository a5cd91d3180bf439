# Salary-advance ledger: a verified model

The backend is a ledger for salary advances. An employee applies for an advance; the
employer approves it; a one-time platform fee is paid or waived; an administrator
approves and pays out; the advance is recovered through payroll in monthly settlements.
Several services write the same rows. They rely on conditional updates, unique
constraints and rows read before the transaction that writes, and nothing else keeps
them apart.

The project models those services and proves what holds in every run.

**Two granularities.** `Steps` gives each service method as a chain of atomic steps:
every read made outside a transaction keeps the rows it saw, and every transaction,
nested write or single write commits as a whole or not at all. `Lifecycle` runs them in
two ways. *Interleaved*: any number of calls in progress, one step of any of them at a
time, so a write may rest on rows that have changed since. *Serial*: each call runs to
its end before the next begins. A law is stated for interleaved runs where it survives
them and for serial runs where it does not (`SerialLaws`, `Rejections`, `CycleLimit`). For
the laws of `SerialLaws` on rows and history `StaleWrites` gives the exact condition: an
interleaved run keeps them at every step if and only if none of its writes lands after what
it takes for granted has changed. `Races` gives schedules, from any lawful state in which
the calls have something to do, that break each law of `SerialLaws` and the finality of a
rejection. `InterleavedRejections` and `CycleLimitRaces` give the exact conditions of the
finality of a rejection and of the cycle limit for the runs in which nothing lands stale.

**The services in their own form.** Each service has a module with imperative methods on
the mutable tables of `Tables.Database` (`PlatformFeesService`, `DisbursalsService`,
`LoanApplicationsService`, `RepaymentsService`, `PayrollService`,
`EmployerSettlementsService`, `BusinessJobsService`). Each method is proved to do exactly
what the steps of its call do one after another (`Completes`): same tables, same
exceptions, including rolled-back transactions. The laws about runs are therefore laws
about these methods. `LoanProductsService`, `AuthService`, `EmployerMembersService`,
`NumberSource`, `EmployerBucket` and `Date` do the same for the smaller stateful parts.

**What one call does.** The `…Effects` modules state every operation a second time,
without its steps, queries and guards: when it succeeds, if and only if, in statuses, times
and amounts written out, and the whole state it leaves, row by row. They are proved of the
same composition of steps the methods are proved against, so a step or a method that
selected other rows, wrote another value or let another caller through would contradict
them. `PaisePricing` does this for the price, in whole numbers only.

**Money** is in whole paise. Pricing is exact rational arithmetic with the code's own
roundings; `DecimalJs` is the same chain in decimal.js's 20 significant digits, and the
two are proved equal over the column ranges. **Dates** are the Gregorian calendar in one
fixed local offset, with `Date`'s carrying of days and months.

Where the code differs from its own comments, the model follows the code:

- ADMIN_REJECTED is a final status if and only if no disbursal of the application is
  PENDING: `disburse` does not look at the application's status, so a disbursal created
  before the rejection still pays out (`Rejections.RejectedIsFinalIff`,
  `Rejections.RejectedPaysOutIff`), and with calls in progress none is being created
  (`InterleavedRejections.RejectedIsFinalIff`).
- "Only one active config per product at all times" holds if and only if every create that
  commits does so while the version it read is still the newest handed out
  (`ConfigVersionLaws.OneActiveIffNotOvertaken`, per commit `CommitLawfulIff`). Deletes of
  that version or of older ones do no harm (`OneActiveHighestWithDeletes`), deletes of newer
  ones can (`DeleteUnderCreateMakesTwoActive`).
- The last-owner guards of member management are read before the write. An employer keeps
  an owner if and only if no write takes an active owner's row while there is no other: the
  code's own count, taken at the write (`MemberRaces.OwnersKeptIff`, per write
  `OwnerKeptIff`). Any number of owners can remove, suspend or demote each other
  (`MemberRaces.OwnersEndEachOther`).
- At most one invite is pending for an address, and none for a member, if and only if no
  write lands opposed (`MemberRaces.InvitesKeptOverRunIff`); two invitations at once leave
  two (`MemberRaces.InvitesCross`).
- A user has at most one active session if and only if no forced password change opens one
  beside another (`SessionLaws.OneActiveSessionIff`, `LoginDuringChangeMakesTwo`).
- The per-cycle request limit counts one payroll cycle and stores another on days whose
  number does not exist in the next month, and it does not count a rejected advance whose
  disbursal is still PENDING; served one after another, it is kept in all other cases
  (`CycleLimitLaws.LimitKeptIff`). With calls in between, its gate is also read too early
  (`CycleLimitRaces.LimitKeptInterleavedIff`).
- A rate with more decimals than its column is charged as its column rounds it, not as it
  was previewed. Rates that fit are charged as previewed, whatever the amount
  (`PreviewLaws.PreviewIsCharge`); a rate that does not fit shows on some amount of the
  columns when it has at most 7, 11 or 5 decimals (`PreviewLaws.PreviewIsChargeIff`), but
  can be too close to its column for any of them to show it
  (`PreviewLaws.TinyMisfitIsUnseen`).

A step takes what it gets from outside the database from `Env`: the clock, the configured
fee, the gateway's order id, the answers of the bank check and of the other eligibility
gates, and the order in which a query returns its rows. An order
that lists other rows than the query's stands for no answer, and the call stops there.

## Model

| member | source | states |
|---|---|---|
| InterleavedLaws.FeeBeforeMoney | src/loan-applications/loan-applications.service.ts:1031-1066 | in every reachable state an application past employer approval, and any application with a disbursal, has a PAID or WAIVED fee, although the fee was checked on stale reads |
| InterleavedLaws.ClearedForever | src/platform-fees/platform-fees.service.ts:97-114 | a cleared fee is cleared in every later state, whatever runs in between |
| InterleavedLaws.ClearedIffPaidOrWaived | src/platform-fees/platform-fees.service.ts:97-114 | after any run the fee check answers true if and only if a capture that finalized the fee, or a waiver, has committed |
| InterleavedLaws.FinalizedOnce | src/platform-fees/platform-fees.service.ts:535-612 | over any run, however often checkout and webhooks report payments on however many orders, at most one capture turns the fee into PAID |
| InterleavedLaws.CapturesAccounted | src/platform-fees/platform-fees.service.ts:287-325 | a CAPTURED order has a cleared fee and a captured event, and captured events never outnumber failed events plus one, that one only while the order is CAPTURED |
| InterleavedLaws.PaidOutOnce | src/disbursals/disbursals.service.ts:235-322 | over any run the committed payouts of an advance number one if its disbursal is SUCCESS and none otherwise, and a repayment exists exactly then |
| InterleavedLaws.OneAmount | src/disbursals/disbursals.service.ts:77-92 | requested, employer-approved, admin-approved, disbursed, owed principal and deducted principal are one amount wherever they are set |
| InterleavedLaws.SettlementFrozen | src/payroll/payroll.service.ts:152-221 | each column of a settlement, its total and its count included, is the sum of that column over its line items, and neither changes in any continuation |
| InterleavedLaws.LineItemFrozen | src/payroll/payroll.service.ts:201-218 | a repayment once in a settlement stays in it, with the same line item |
| InterleavedLaws.BooksBalance | src/reports/reports.service.ts:103-128 | total disbursed plus interest, fees and GST equals total recovered plus outstanding, to the paisa, in every reachable state |
| InterleavedLaws.StatusIsRecorded | src/loan-applications/loan-applications.service.ts:1049-1066 | an application's status is the one its newest history entry records, and never DISBURSED |
| InterleavedLaws.OneActiveAdvanceEach | prisma/migrations/20260721000000_one_active_advance_index/migration.sql:5-14 | no employee ever has two active advances |
| PricedRepayments.RepaymentIsPriceOfTerms | src/disbursals/disbursals.service.ts:196-224 | every repayment's amounts are the price of the requested amount under the terms frozen at submission, due on the frozen recovery date |
| PricedRepayments.OwedAsPreviewed | src/loan-applications/loan-applications.service.ts:120-154 | an advance submitted with the snapshot it was previewed with is owed exactly as previewed, after any run |
| SerialLaws.RepaidIffPaid | src/repayments/repayments.service.ts:61-105 | serially an application is REPAID exactly when its repayment is PAID |
| SerialLaws.SettlementPaidInFull | src/employer-settlements/employer-settlements.service.ts:133-189 | serially a PAID settlement owes nothing and every advance in it is repaid; any other settlement owes its whole total |
| SerialLaws.PaidForever | src/business-jobs/business-jobs.service.ts:56-176 | serially no later payment, overdue job or risk assessment undoes a paid repayment, its REPAID application or a paid settlement |
| SerialLaws.HistoryClimbs | src/employer-settlements/employer-settlements.service.ts:155-181 | serially each history entry starts where the application's previous one ended, is one of the services' edges, never reaches DISBURSED and climbs a rank unless it is REPAID to REPAID |
| SerialLaws.GateListsIndexStatuses | src/eligibility/eligibility.service.ts:40-47 | the statuses the gate lists are the statuses the partial index lists, none missing on either side |
| SerialLaws.IndexAgreesWithGate | src/loan-applications/loan-applications.service.ts:338-347 | serially a submission is refused if and only if the eligibility check refuses it: the index never refuses what the gates let through |
| StaleWrites.KeptIff | src/loan-applications/loan-applications.service.ts:553-567 | from every lawful state, with any other calls in progress, the next step of a call keeps the serial laws and reopens nothing paid if and only if it commits nothing or what its unconditional write takes for granted (the status read, an unpaid repayment, an unpaid settlement) still holds |
| StaleWrites.SerialLawsIffNothingStale | src/business-jobs/business-jobs.service.ts:24-176 | an interleaved run keeps every serial law at every step if and only if none of its writes lands stale |
| Races.OverdueJobUndoesPayment | src/business-jobs/business-jobs.service.ts:56-101 | from every lawful state with a late repayment there is a schedule in which the overdue job takes a payment back: REPAID with an OVERDUE repayment |
| Races.CancelAndApproveBothCommit | src/loan-applications/loan-applications.service.ts:553-567 | from every lawful state with a submitted application, a cancellation and an approval can both commit, which breaks the history chain |
| Races.AssessmentUndoesSettlement | src/employer-settlements/employer-settlements.service.ts:305-315 | from every lawful state in which an assessment finds a settlement past grace, paying it before the assessment writes leaves it OVERDUE with nothing outstanding |
| Races.OverdueJobUndoesSettlement | src/business-jobs/business-jobs.service.ts:137-176 | from every lawful state with a late settlement the overdue job can do the same |
| Races.IndexRefusesWhatGatePassed | prisma/migrations/20260721000000_one_active_advance_index/migration.sql:5-14 | two submissions at once both pass the gate, and then the index refuses the second write |
| Races.SubmissionRefusedIff | src/loan-applications/loan-applications.service.ts:397-460 | a submission past the gate is refused if and only if its write finds the id taken or an active advance of the employee |
| Races.CreationOutlivesRejection | src/disbursals/disbursals.service.ts:29-92 | from every lawful state with a ready advance without a disbursal, a rejection between the creation's reads and its write leaves an ADMIN_REJECTED application with a PENDING disbursal |
| Rejections.RejectedPaysOutIff | src/disbursals/disbursals.service.ts:151-322 | executing the disbursal of an ADMIN_REJECTED application pays out and moves it to REPAYMENT_SCHEDULED if and only if it is PENDING, the employer is not blocked, the bank is verified and the index allows it; otherwise nothing is written |
| Rejections.RejectedIsFinalIff | src/loan-applications/loan-applications.service.ts:1107-1147 | from every lawful state, an ADMIN_REJECTED application stays so in every serial continuation if and only if no disbursal of it is PENDING |
| Rejections.EndedForever | src/loan-applications/loan-applications.service.ts:537-567 | a cancelled, expired or employer-rejected application, or an ADMIN_REJECTED one without a disbursal, keeps its status in every serial continuation |
| Rejections.RejectedWithDisbursalIsReached | src/disbursals/disbursals.service.ts:29-92 | from empty tables seven accepted requests lead to an ADMIN_REJECTED application with a PENDING disbursal and a cleared fee |
| InterleavedRejections.RejectedIsFinalIff | src/disbursals/disbursals.service.ts:29-92 | from every lawful world, with any calls in progress, an ADMIN_REJECTED application stays so in every continuation in which nothing lands stale, if and only if no disbursal of it is PENDING and none is being created by a call that saw it ready |
| InterleavedRejections.SerialInterleaved | src/disbursals/disbursals.service.ts:151-322 | every serial continuation can be had beside any calls in progress, and nothing of it lands stale |
| RiskLaws.RiskMeaning | src/employer-settlements/employer-settlements.service.ts:290-315 | BLOCKED exactly with a settlement past its grace period, WARNING exactly with one past due and none past grace, whatever the order of the rows |
| RiskLaws.RiskRecorded | src/employer-settlements/employer-settlements.service.ts:279-323 | after a reassessment the employer is BLOCKED exactly when an open settlement is past grace, and only one such settlement may have changed, to OVERDUE |
| RiskLaws.BlockedPaysNothing | src/disbursals/disbursals.service.ts:54-58 | while an employer is blocked and no assessment of it runs, no interleaving of calls creates, pays or changes a disbursal of its employees, apart from calls already past the risk guard |
| LedgerSteps.AdvanceKeeps | src/platform-fees/platform-fees.service.ts:535-612 | every atomic step of every service keeps the ledger invariant, takes back nothing stable and leaves the call only justified beliefs |
| LedgerSteps.NewSettlementTotal | src/payroll/payroll.service.ts:152-218 | each summed column of a new settlement is the sum of that column over the line items created with it |
| Progress.AdvanceCanBeRepaid | src/loan-applications/loan-applications.service.ts:321-690 | from every state with no active advance of the employee and an unblocked employer, submission, approval, checkout, capture, admin approval, disbursal and repayment are all accepted in a row and end REPAID with a PAID repayment, and no other application's rows change |
| Progress.RejectionCanLeaveDisbursal | src/loan-applications/loan-applications.service.ts:1107-1147 | from every such state accepted requests lead to an ADMIN_REJECTED application whose disbursal is PENDING |
| Tables.Database.UpdateStatus | prisma/migrations/20260721000000_one_active_advance_index/migration.sql:5-14 | a status write with its history row, or nothing when the index refuses |
| PlatformFeesService.EnsureFee | src/platform-fees/platform-fees.service.ts:61-95 | creates the fee at the configured price unless there is one, and fails without a configured price |
| PlatformFeesService.InitiatePayment | src/platform-fees/platform-fees.service.ts:116-224 | does what its steps do in a row: guards, existing or new fee, reusable or new order |
| PlatformFeesService.Waive | src/platform-fees/platform-fees.service.ts:429-480 | waives an uncleared fee and moves an application awaiting payment, or changes nothing |
| PlatformFeesService.CaptureTransaction | src/platform-fees/platform-fees.service.ts:535-612 | the two guarded updates, at most one event and the guarded move, rolled back together |
| PlatformFeesService.MarkFeePaidFromOrder | src/platform-fees/platform-fees.service.ts:503-612 | does what its steps do in a row |
| PlatformFeesService.HandleWebhookPaymentFailed | src/platform-fees/platform-fees.service.ts:287-325 | moves the order back to ATTEMPTED, even from CAPTURED, with one event |
| DisbursalsService.Create | src/disbursals/disbursals.service.ts:29-92 | creates the pending disbursal with all three amounts behind every guard of the source |
| DisbursalsService.DisburseTransaction | src/disbursals/disbursals.service.ts:235-322 | claims the pending disbursal, creates the repayment and moves the application, all or nothing |
| DisbursalsService.Disburse | src/disbursals/disbursals.service.ts:151-322 | does what its steps do in a row, with the price computed from the frozen snapshot |
| LoanApplicationsService.Create | src/loan-applications/loan-applications.service.ts:321-460 | the active-advance gate, then the row and its first history entry |
| LoanApplicationsService.Cancel | src/loan-applications/loan-applications.service.ts:537-567 | cancels the caller's own submitted application |
| LoanApplicationsService.EmployerApproveTransaction | src/loan-applications/loan-applications.service.ts:662-690 | status, approved amount and fee together, undone when the fee cannot be created |
| LoanApplicationsService.EmployerApprove | src/loan-applications/loan-applications.service.ts:627-690 | does what its steps do in a row, with the second-advance guard |
| LoanApplicationsService.EmployerReject | src/loan-applications/loan-applications.service.ts:729-763 | rejects a submitted application of the caller's company |
| LoanApplicationsService.AdminApproveUpdate | src/loan-applications/loan-applications.service.ts:1049-1066 | status, approved amount and history row together, or nothing |
| LoanApplicationsService.AdminApprove | src/loan-applications/loan-applications.service.ts:1031-1066 | approves behind the cleared fee and sets the admin amount |
| LoanApplicationsService.AdminReject | src/loan-applications/loan-applications.service.ts:1107-1147 | rejects from the four rejectable statuses only |
| RepaymentsService.PayTransaction | src/repayments/repayments.service.ts:65-105 | claims an unpaid repayment and moves its application to REPAID, all or nothing |
| RepaymentsService.Pay | src/repayments/repayments.service.ts:52-105 | does what its steps do in a row |
| PayrollService.Totals | src/payroll/payroll.service.ts:152-165 | the accumulating loops give the settlement of the summed rows |
| PayrollService.CreateLineItems | src/payroll/payroll.service.ts:201-218 | one line item for each repayment, with its frozen amounts |
| PayrollService.ProcessRecovery | src/payroll/payroll.service.ts:92-221 | does what its steps do in a row for the rows its query found |
| EmployerSettlementsService.Assess | src/employer-settlements/employer-settlements.service.ts:297-315 | the loop with its break computes the assessment |
| EmployerSettlementsService.UpdateEmployerRiskStatus | src/employer-settlements/employer-settlements.service.ts:279-323 | marks the first settlement past grace OVERDUE and writes the assessed risk |
| EmployerSettlementsService.HistoryRows | src/employer-settlements/employer-settlements.service.ts:155-181 | one history row, with the status found before the write, for each application found |
| EmployerSettlementsService.MarkPaidTransaction | src/employer-settlements/employer-settlements.service.ts:137-189 | settlement, repayments, applications and history together, once |
| EmployerSettlementsService.MarkPaid | src/employer-settlements/employer-settlements.service.ts:119-199 | does what its steps do in a row, then reassesses the employer |
| BusinessJobsService.ExpireStaleApplications | src/business-jobs/business-jobs.service.ts:24-53 | expires the submitted applications older than three days, with their history |
| BusinessJobsService.MarkRepaymentsOverdue | src/business-jobs/business-jobs.service.ts:56-101 | marks exactly the scheduled repayments past due |
| BusinessJobsService.MarkSettlementsOverdue | src/business-jobs/business-jobs.service.ts:137-176 | marks exactly the open settlements past due |
| ApplicationEffects.SubmitEffect | src/loan-applications/loan-applications.service.ts:321-460 | a submission is refused if and only if another gate refuses it, its id is used or the employee has an application in one of the six statuses of an active advance, listed one by one; otherwise its row and first history entry are all that is new |
| ApplicationEffects.CancelEffect | src/loan-applications/loan-applications.service.ts:537-567 | cancels if and only if the application is the employee's own and SUBMITTED; nothing else changes |
| ApplicationEffects.EmployerApproveEffect | src/loan-applications/loan-applications.service.ts:627-690 | approves if and only if the application is the company's own and SUBMITTED, the employee has no other active advance and the fee exists or is configured; states the whole new state |
| ApplicationEffects.EmployerRejectEffect | src/loan-applications/loan-applications.service.ts:729-763 | rejects if and only if the application is the company's own and SUBMITTED |
| ApplicationEffects.AdminApproveEffect | src/loan-applications/loan-applications.service.ts:1031-1066 | approves if and only if the application is EMPLOYER_APPROVED with a PAID or WAIVED fee and the employee has no other active advance, for the amount the employer approved |
| ApplicationEffects.AdminRejectEffect | src/loan-applications/loan-applications.service.ts:1107-1147 | rejects if and only if the application is in one of four named statuses |
| FeeEffects.InitiatePaymentEffect | src/platform-fees/platform-fees.service.ts:116-224 | in every case the whole outcome: refused, already cleared, open order handed out again, gateway id taken, or a new order over the fee's amount |
| FeeEffects.PaymentCanBeMade | src/platform-fees/platform-fees.service.ts:173-224 | from every lawful state a success leaves the fee cleared or an order of the application over the fee's amount CREATED and not expired; an order is added if and only if an unpaid fee had none such and the gateway's id was free, it expires exactly 15 minutes later, and no older order changes |
| FeeEffects.WaiveEffect | src/platform-fees/platform-fees.service.ts:429-480 | in every case the whole outcome of a waiver |
| FeeEffects.CaptureEffect | src/platform-fees/platform-fees.service.ts:503-612 | in every case the whole outcome of a capture: order, fee, at most one event, and the application's move, or nothing |
| FeeEffects.FailPaymentEffect | src/platform-fees/platform-fees.service.ts:287-325 | a failure report takes a known order to ATTEMPTED with one event and never throws |
| FeeEffects.StrangerRefused | src/loan-applications/loan-applications.service.ts:537-567 | a call to cancel, pay, approve or reject by anyone but the row's own employee or company throws and changes nothing |
| DisbursalEffects.CreateDisbursalEffect | src/disbursals/disbursals.service.ts:29-92 | in every case the whole outcome: a PENDING disbursal of a ready, cleared, unblocked application, or nothing |
| DisbursalEffects.DisburseEffect | src/disbursals/disbursals.service.ts:151-322 | pays out if and only if the disbursal is PENDING, the employer not blocked, the fee cleared, the bank verified and no other advance active; the whole new state, the repayment priced in whole paise from the frozen terms |
| DisbursalEffects.PayEffect | src/repayments/repayments.service.ts:52-105 | in every case the whole outcome of a payment |
| DisbursalEffects.DoneOnce | src/disbursals/disbursals.service.ts:235-322 | a payout, payment or capture write that arrives when its work is done changes nothing |
| PayrollEffects.RecoveryEffect | src/payroll/payroll.service.ts:92-221 | a settled cycle or one with nothing to recover is left alone, and only the cycle's settlement and line items are new |
| PayrollEffects.RepaymentsRecovered | src/payroll/payroll.service.ts:123-137 | a repayment gains a line item if and only if it was SCHEDULED, had none, was due by the day of the run and is owed by an employee of the company; all new ones are of this cycle with the repayment's amounts |
| PayrollEffects.SettlementGenerated | src/payroll/payroll.service.ts:166-199 | a settlement appears exactly with something to recover, GENERATED, due the grace days after the day of the run, counting one for each new line item |
| SettlementEffects.RiskEffect | src/employer-settlements/employer-settlements.service.ts:279-323 | BLOCKED, WARNING or GOOD by due dates written out, the first settlement past grace OVERDUE, nothing else changed |
| SettlementEffects.MarkPaidEffect | src/employer-settlements/employer-settlements.service.ts:119-199 | refused without a settlement, nothing when it is PAID, otherwise exactly its rows are paid and then the employer is assessed |
| SettlementEffects.SettlementPaidEffect | src/employer-settlements/employer-settlements.service.ts:133-199 | after the whole call the settlement, its repayments and applications are paid, each with one history entry from the status it had, and other settlements changed only to OVERDUE past grace |
| SettlementEffects.BlockedAfterPaying | src/employer-settlements/employer-settlements.service.ts:190-199 | the employer is BLOCKED afterwards if and only if another open settlement of it is past its grace period |
| JobEffects.StaleExpired | src/business-jobs/business-jobs.service.ts:24-53 | an application is EXPIRED after the job if and only if it was, or was SUBMITTED more than 3 times 24 hours ago; one history entry for each newly expired one and nothing else changes |
| JobEffects.RepaymentsMarked | src/business-jobs/business-jobs.service.ts:56-101 | a repayment is OVERDUE after the job if and only if it was, or was SCHEDULED and due before now; nothing else changes |
| JobEffects.SettlementsMarked | src/business-jobs/business-jobs.service.ts:137-176 | a settlement is OVERDUE after the job if and only if it was, or was GENERATED or PARTIALLY_PAID and due before now; nothing else changes |
| PaisePricing.PricedInPaise | src/pricing/pricing.service.ts:82-143 | the price from stored terms is one computation in whole numbers, each charge rounded to the nearest paisa, halves up |
| PaisePricing.HandCalculated | src/pricing/pricing.service.spec.ts:8-23 | the example of the tests costs 84.33 interest, 100.00 fee and 33.18 GST |
| Rounding.RoundHalfUp | src/pricing/pricing.service.ts:108-133 | rounds to the nearest paisa, halves away from zero |
| PricingLaws.BreakdownBalances | src/pricing/pricing.service.ts:108-133 | the free and bearing parts make the principal, and rounding the total changes nothing |
| PricingLaws.ChargesMonotone | src/pricing/pricing.service.ts:109-128 | no charge falls when principal, days or a rate rise or the free threshold falls |
| PricingLaws.TotalStrictlyIncreases | src/pricing/pricing.service.ts:82-143 | a larger advance costs strictly more in total, after rounding |
| PricingLaws.TotalNeverFalls | src/pricing/pricing.service.ts:82-143 | more days or higher rates never make an advance cheaper |
| PricingLaws.TotalNearExact | src/pricing/pricing.service.ts:86-92 | the charged total is within 1.5 + gstRate paise of the formula without rounding |
| PricingLaws.RoundedMinimum | src/pricing/pricing.service.ts:109-112 | half-up rounding of the threshold commutes with the minimum with a whole amount |
| PreviewLaws.PreviewIsCharge | src/loan-applications/loan-applications.service.ts:120-154 | when no rate has more decimals than its column, every principal is charged from the stored snapshot exactly as previewed, although only the preview saw the unrounded threshold |
| PreviewLaws.PreviewIsChargeIff | prisma/schema.prisma:376-387 | for rates of at most 7, 11 and 5 decimals, every amount of the columns is charged as previewed if and only if the rates fit their columns |
| PreviewLaws.DriftShows | src/pricing/pricing.service.ts:108-133 | columns that move the fee, the interest or the GST of the largest amount by a paisa make it cost something else |
| PreviewLaws.OddFeeIsSeen | prisma/schema.prisma:380 | a fee rate of 0.00125 previews 12.50 rupees on an advance of 10,000 and charges 13.00 |
| PreviewLaws.TinyMisfitIsUnseen | prisma/schema.prisma:380 | a fee rate of 0.02000000000001 does not fit its column, yet every amount of the columns is charged as previewed |
| Snapshots.PreviewedThatDay | src/loan-applications/loan-applications.service.ts:364-386 | a preview and a submission at any two times of one day price every advance alike when the rates fit their columns, and only then for rates as they are configured |
| Snapshots.ThresholdIsTheLesser | src/loan-applications/loan-applications.service.ts:120-130 | the interest-free threshold is the lesser of a share of the salary, 10 percent by default, and a maximum, 5,000 rupees by default |
| Snapshots.SnapshotTakes | src/loan-applications/loan-applications.service.ts:364-386 | the snapshot takes the configured rates, that threshold and the civil days to the recovery date, at least one |
| DecimalJsLaws.Exact | src/pricing/pricing.service.ts:105-133 | a value with at most 20 digits is not rounded by a decimal.js operation |
| DecimalJsLaws.AccruedExact | src/pricing/pricing.service.ts:116-119 | every step of the interest before the division by 365 is exact over the column ranges and 61 days |
| DecimalJsLaws.QuotientRoundsOnce | src/pricing/pricing.service.ts:120-121 | rounding the quotient by 365 to 20 digits and then to paise is rounding the exact rational once |
| DecimalJsLaws.BreakdownRefined | src/pricing/pricing.service.ts:94-143 | the chain of decimal.js operations gives the same breakdown as exact arithmetic, on every column value |
| CalendarLaws.MonthStep | src/pricing/pricing.service.ts:157-164 | the closed leap-year formula for month starts agrees with adding up month lengths |
| CalendarLaws.MonthLengths | src/pricing/pricing.service.ts:157-164 | each month has its Gregorian length, leap years written out |
| CalendarLaws.FourCenturies | src/pricing/pricing.service.ts:157-164 | the calendar repeats after 400 years of 146,097 days |
| CalendarLaws.MakeDayIsDay | src/pricing/pricing.service.ts:162-164 | a day carried over month ends is the day counted from the first of the month asked for |
| CalendarLaws.DayNumberInjective | src/pricing/pricing.service.ts:170-173 | dates and day numbers correspond one to one |
| PayrollUtil.Date.SetMonth | src/common/utils/payroll.util.ts:23 | moves to the calendar day as many days after the first of the month asked for as the old day was after its own first |
| PayrollUtil.Date.SetDate | src/common/utils/payroll.util.ts:26 | moves to the calendar day that many days after the first of the current month, in whatever month it falls |
| PayrollUtil.CalculateDueDate | src/common/utils/payroll.util.ts:15-29 | changes a copy in place into the due date, keeping the time of day and the request |
| RecoveryDates.DueDatesAgreeIff | src/common/utils/payroll.util.ts:15-29 | the two due-date algorithms agree if and only if the request is before cutoff or its day exists in the next month; otherwise they differ by exactly that month's length |
| RecoveryDates.DueDatesDifferInTwoDigitYears | src/pricing/pricing.service.ts:157-164 | in the years 0 to 99 they never agree, since one of them constructs its date from the year |
| RecoveryDates.CyclesAgreeIff | src/eligibility/eligibility.service.ts:196-204 | exactly when the stored payroll cycle is the one eligibility counts against |
| RecoveryDates.RecoveryAfterSubmissionIff | src/pricing/pricing.service.ts:152-165 | the recovery date is after submission if and only if the request is on or after cutoff or payday is still to come |
| RecoveryDates.InterestDaysAreCivilDays | src/pricing/pricing.service.ts:170-173 | interest days are calendar days whatever the time of day, at least one |
| RecoveryDates.InterestDaysBounds | src/pricing/pricing.service.ts:62-80 | with cutoff no later than payday, recovery is strictly later and interest days lie in 1 to 61 |
| RecoveryDates.SixtyOneDays | src/pricing/pricing.service.ts:62-80 | 61 days do occur |
| CycleLimitLaws.LimitKept | src/eligibility/eligibility.service.ts:193-216 | over serial runs of all services, submissions on days whose cycles agree and never while a rejected advance may still be paid out keep every cycle within the limit |
| CycleLimitLaws.LimitKeptIff | src/eligibility/eligibility.service.ts:193-216 | on any one day the limit holds for all gated runs if and only if that day's two cycles agree and no submission is let through while a rejected advance has its disbursal PENDING |
| CycleLimitLaws.DisagreeingDayFails | src/common/utils/payroll.util.ts:15-29 | on a day whose cycles disagree a gated run repays one advance more than the limit in the stored cycle |
| CycleLimitLaws.RejectedComesBack | src/disbursals/disbursals.service.ts:235-322 | on any day an advance rejected with a PENDING disbursal can be paid out and repaid after the limit is used up |
| CycleLimitRaces.LimitKeptInterleaved | src/eligibility/eligibility.service.ts:193-216 | under any interleaving in which nothing lands stale, gates read on agreeing days and submissions written while the gate would still pass and no rejected advance may return keep every cycle of every employee within the limit |
| CycleLimitRaces.LimitKeptInterleavedIff | src/eligibility/eligibility.service.ts:193-216 | on any one day the limit holds in all such gated runs if and only if the day's cycles agree, no submission is written while a rejected advance may return, and none after the gate's reads have changed |
| CycleLimitRaces.EarlyGateFails | src/loan-applications/loan-applications.service.ts:338-460 | on any day a submission whose gate was read before the limit was used up is repaid as one advance too many |
| ConfigVersions.LoanProductsService.FindLatest | src/loan-products/loan-products.service.ts:87-91 | finds a row of the product with the highest version, or none if there is no row |
| ConfigVersions.LoanProductsService.CreateConfigVersion | src/loan-products/loan-products.service.ts:73-129 | deactivates the latest and inserts the next version, or changes nothing when a constraint refuses |
| ConfigVersions.LoanProductsService.DeleteConfigVersion | src/loan-products/loan-products.service.ts:152-173 | deletes an inactive version and clears its successor's link, never the active one |
| ConfigVersionEffects.CreateEffect | src/loan-products/loan-products.service.ts:73-129 | in every case the whole outcome: version 1, or the highest one plus one, active and linked, the flag taken from the highest; nothing at all when refused |
| ConfigVersionEffects.DeleteEffect | src/loan-products/loan-products.service.ts:152-173 | exactly an inactive, unreferenced version of the product goes, and only its successor's link changes |
| ConfigVersionLaws.ReadIsValidated | prisma/schema.prisma:270 | a create that commits read the newest version, however stale its read |
| ConfigVersionLaws.OneActiveHighest | src/loan-products/loan-products.service.ts:63-129 | under any interleaving of creates at most one version is active, it is the highest, and there are no gaps below it |
| ConfigVersionLaws.ExactlyOneActive | src/loan-products/loan-products.service.ts:63-173 | serially, deletes included, a product that ever got a version has exactly one active, the highest, and no number is handed out twice |
| ConfigVersionLaws.OneActiveIffNotOvertaken | src/loan-products/loan-products.service.ts:63-173 | under any interleaving of creates and deletes no product ever has two active versions, and every state is lawful, if and only if every create that commits does so while the version it read is the newest handed out |
| ConfigVersionLaws.HighestIfNotOvertaken | src/loan-products/loan-products.service.ts:63-173 | and then the active version is the highest of its product and no number is handed out twice |
| ConfigVersionLaws.OneActiveHighestWithDeletes | src/loan-products/loan-products.service.ts:152-173 | when no version newer than the one a waiting create has read is deleted under it, whatever else is deleted, no create commits overtaken and every state is lawful |
| ConfigVersionLaws.CommitLawfulIff | src/loan-products/loan-products.service.ts:95-128 | the commit of any create, whether it read a version or none, leaves a lawful product, and at most one active version, if and only if its number is the newest handed out plus one |
| ConfigVersionLaws.CreatePublishes | src/loan-products/loan-products.service.ts:95-128 | serially a create always succeeds |
| ConfigVersionLaws.DeleteUnderCreateMakesTwoActive | src/loan-products/loan-products.service.ts:152-173 | from every lawful state, with versions of the product or without, a delete between a create's read and write can leave two active versions |
| AuthService.AuthService.Login | src/auth/auth.service.ts:101-143 | ends the user's sessions and opens one with a fresh token |
| AuthService.AuthService.Refresh | src/auth/auth.service.ts:162-235 | redeems the current token by compare-and-swap; an expired or wrong token ends the session |
| AuthService.AuthService.RevokeSession | src/auth/auth.service.ts:298-328 | ends one of the user's own sessions |
| AuthService.AuthService.Logout | src/auth/auth.service.ts:355-388 | ends the named session, the token's session, or all of the user's |
| AuthService.AuthService.ChangePassword | src/auth/auth.service.ts:608-656 | ends all sessions and opens one after the first change, in two more writes |
| AuthService.AuthService.ResetPassword | src/auth/auth.service.ts:524-552 | ends all sessions of the token's user |
| SessionEffects.LoginEffect | src/auth/auth.service.ts:101-143 | succeeds if and only if authorized with an unused id and token; all older sessions of the user end and exactly one opens |
| SessionEffects.RefreshEffect | src/auth/auth.service.ts:162-235 | succeeds if and only if the session is active, stores this token, is at most 30 days old, the user is authorized and the successor unused; then only the stored token changes, and a late or wrong token ends exactly this session |
| SessionEffects.RevokeEffect | src/auth/auth.service.ts:298-328 | succeeds if and only if the session is the user's own, and leaves exactly that one inactive |
| SessionEffects.LogoutEffect | src/auth/auth.service.ts:355-388 | leaves the named session of the user inactive, or without a name all of the user's |
| SessionEffects.ResetPasswordEffect | src/auth/auth.service.ts:524-552 | after a reset no session of the user is active; nobody else's changes |
| SessionEffects.ChangePasswordEffect | src/auth/auth.service.ts:608-656 | all older sessions end; the first change opens one, which has its token if and only if the call succeeds |
| SessionEffects.CleanUpEffect | src/sessions/session-cleanup.service.ts:16-40 | exactly the inactive ones among the old sessions are deleted |
| SessionLaws.RedeemedOnce | src/auth/auth.service.ts:214-235 | under any interleaving each refresh token is redeemed by at most one call |
| SessionLaws.EndedForever | src/auth/auth.service.ts:162-235 | an ended or deleted session never becomes active again and redeems no further token |
| SessionLaws.ReplayEndsSession | src/auth/auth.service.ts:195-212 | replaying a redeemed token ends its session |
| SessionLaws.ReplayEndsSessionInterleaved | src/auth/auth.service.ts:162-212 | the same when any other calls run between the replay's read and its write |
| SessionLaws.OneActiveSessionIff | src/auth/auth.service.ts:608-656 | over any interleaved run no user ever has two active sessions if and only if no forced password change opens its session while the user has an active one |
| SessionLaws.LoginDuringChangeMakesTwo | src/auth/auth.service.ts:608-656 | from every store a login between a forced password change and the session it opens leaves two active sessions |
| SessionLaws.OneActiveSession | src/auth/auth.service.ts:101-143 | served one after another, requests never leave a user with two active sessions |
| MemberLaws.ManagingIsStrict | src/auth/permissions.ts:134-154 | managing is irreflexive, asymmetric and transitive, nobody manages an owner, and only owners may manage members |
| MemberLaws.OwnersKept | src/employer-members/employer-members.service.ts:352-477 | an employer with an active owner keeps one, nobody becomes an owner, and at most one invite is pending for an address, never of a current member |
| MemberRaces.OwnerKeptIff | src/employer-members/employer-members.service.ts:352-467 | from any team with an active owner the next step of any request leaves one if and only if it does not take an active owner's row while the employer has no other |
| MemberRaces.OwnersKeptIff | src/employer-members/employer-members.service.ts:352-467 | over any interleaved run there is always an active owner if and only if no write takes the row of the last one |
| MemberRaces.OwnersEndEachOther | src/employer-members/employer-members.service.ts:377-467 | however many active owners there are, when each removes, suspends or demotes one of them, everybody is chosen and all counts are read before the first write, all succeed and no active owner is left |
| MemberRaces.InvitesKeptIff | src/employer-members/employer-members.service.ts:31-208 | from any orderly team the next step of any request keeps one pending invite for an address and none for a member if and only if it writes nothing or its write is unopposed |
| MemberRaces.InvitesKeptOverRunIff | src/employer-members/employer-members.service.ts:31-208 | over any interleaved run that holds at every step if and only if no write lands opposed |
| MemberRaces.InvitesCross | src/employer-members/employer-members.service.ts:31-78 | from every team two invitations to one address that both revoke before either inserts leave two pending invites |
| MemberRaces.ServedAlone | src/employer-members/employer-members.service.ts:31-467 | every request served alone is the composition of its atomic steps |
| EmployerMembersService.EmployerMembersService.CreateInvite | src/employer-members/employer-members.service.ts:31-78 | revokes older invites and creates one below the actor's rank, never for a member |
| EmployerMembersService.EmployerMembersService.FindPending | src/employer-members/employer-members.service.ts:141-151 | finds the pending invite of a token if there is one |
| EmployerMembersService.EmployerMembersService.PreviewInvite | src/employer-members/employer-members.service.ts:113-138 | shows a live invite and expires a late one |
| EmployerMembersService.EmployerMembersService.AcceptInvite | src/employer-members/employer-members.service.ts:141-208 | accepts if and only if the token finds a pending, unexpired invite of an active employer whose address has an account or a fresh one: the row has exactly the invite's role |
| EmployerMembersService.EmployerMembersService.ResendInvite | src/employer-members/employer-members.service.ts:224-261 | renews token and expiry at most three times |
| EmployerMembersService.EmployerMembersService.RevokeInvite | src/employer-members/employer-members.service.ts:287-304 | revokes a pending invite of the same employer |
| EmployerMembersService.EmployerMembersService.CountOwners | src/employer-members/employer-members.service.ts:377-386 | counts the active owners |
| EmployerMembersService.EmployerMembersService.UpdateMemberRole | src/employer-members/employer-members.service.ts:352-391 | changes a role exactly when every guard lets it |
| EmployerMembersService.EmployerMembersService.SuspendMember | src/employer-members/employer-members.service.ts:405-424 | suspends exactly when every guard lets it |
| EmployerMembersService.EmployerMembersService.RemoveMember | src/employer-members/employer-members.service.ts:436-467 | removes exactly when every guard lets it |
| Permissions.WhoMay | src/auth/permissions.ts:46-110 | who holds each permission |
| MemberEffects.CreateInviteEffect | src/employer-members/employer-members.service.ts:31-78 | invites if and only if the actor is an active owner or administrator above the role, the address is of no member and id and token are unused; older pending ones of the address are revoked |
| MemberEffects.PreviewInviteEffect | src/employer-members/employer-members.service.ts:113-138 | expires exactly a pending invite past its date |
| MemberEffects.AcceptInviteEffect | src/employer-members/employer-members.service.ts:141-208 | in every case the whole outcome: the account's row is ACTIVE in exactly the invite's role and the invite ACCEPTED, a late invite expires, or nothing changes |
| MemberEffects.ResendInviteEffect | src/employer-members/employer-members.service.ts:224-261 | a pending invite sent again fewer than three times gets the new token and 72 hours |
| MemberEffects.RevokeInviteEffect | src/employer-members/employer-members.service.ts:287-304 | exactly a pending invite of the actor's employer is revoked |
| MemberEffects.UpdateMemberRoleEffect | src/employer-members/employer-members.service.ts:352-391 | only an active owner changes roles, to one below owner, and an owner's only while there are two |
| MemberEffects.SuspendMemberEffect | src/employer-members/employer-members.service.ts:405-424 | only an active owner suspends, and never itself |
| MemberEffects.RemoveMemberEffect | src/employer-members/employer-members.service.ts:436-467 | only an active owner removes, never itself, and an owner only while there are two |
| ApplicationNumbers.SuffixUndoesFormat | src/loan-applications/loan-applications.service.ts:1206-1215 | below 10^8 a generated number matches the pattern and its parsed suffix is the sequence value |
| ApplicationNumbers.NineDigitsUnseen | src/loan-applications/loan-applications.service.ts:1249-1257 | from 10^8 on no generated number matches the pattern |
| ApplicationNumbers.Formatted | src/loan-applications/loan-applications.service.ts:1206-1215 | value 1234 of product type SA in 2026 is printed as MP-SA-2026-00001234 |
| ApplicationNumbers.RetryLoop | src/loan-applications/loan-applications.service.ts:403-460 | under any concurrency the loop stops after at most five attempts and gives up only on five collisions |
| ApplicationNumbers.NumberSource.SyncApplicationNumberSequence | src/loan-applications/loan-applications.service.ts:1249-1273 | moves the sequence up to the highest existing suffix and never down |
| ApplicationNumbers.NumberSource.GenerateApplicationNumber | src/loan-applications/loan-applications.service.ts:1206-1215 | the next value, formatted; a fresh sequence gives its first value as it stands |
| ApplicationNumbers.NumberSource.Create | src/loan-applications/loan-applications.service.ts:397-460 | with no concurrent writer and values below 10^8 succeeds within two generated numbers for every table and sequence, with a number after every stored one that is the sequence's next value or the one after a stored suffix |
| RevenueReport.BucketsAreSums | src/reports/reports.service.ts:261-297 | every employer and employee bucket is the sum of the records it stands for |
| RevenueReport.EmployerIsSumOfEmployees | src/reports/reports.service.ts:267-297 | an employer's fee and interest revenue is the sum over its employees, and late fees are on the employer only |
| RevenueReport.KindTotalIsKindSum | src/reports/reports.service.ts:318-372 | each column over all employers is the flat sum of the records of its kind |
| RevenueReport.GrandTotalIsFlatSum | src/reports/reports.service.ts:322-380 | the grand total counts every record exactly once |
| RevenueReport.ColumnsAreInputs | src/reports/reports.service.ts:267-297 | with fees, interest and late fees as the three inputs each column is the sum of one input |
| RevenueReport.OrderDoesNotMatter | src/reports/reports.service.ts:261-297 | the report is the same for every order of the same records |
| ReportsService.EmployerBucket.EnsureEmployee | src/reports/reports.service.ts:425-448 | adds an empty employee bucket unless there is one |
| ReportsService.EmployerBucket.AddRecord | src/reports/reports.service.ts:267-297 | adds a record to the employee's and the employer's running totals |
| ReportsService.Builder.EnsureEmployer | src/reports/reports.service.ts:398-423 | adds an empty employer bucket unless there is one |
| ReportsService.Builder.AddRecords | src/reports/reports.service.ts:267-297 | an accumulation loop, with nothing lost or counted twice |
| ReportsService.GetRevenueReport | src/reports/reports.service.ts:261-380 | the three loops and the totals give the flat sums by kind and overall: each column the sum of its own input |

## Left out

- Notifications, push messages, e-mails and audit-log rows after a commit: no law depends on them.
- `bulkAction` and `recalculateEmployerRisk`: the modelled single actions, one after another; payment reminders write no row.
- In `MemberRaces` the actor's role and the row a request is about are read in one step; the owner count, the user lookup and every write are steps of their own.
- Collisions of generated uuids: a config version's or a session's id is never made a second time.
- HTTP controllers, guards' wiring, validation of request bodies, logging.
- Razorpay, bcrypt, AES and JWT: a signature is checked or not before a capture, a hash matches only its own token.
- Checkout's check that the order belongs to the caller, and the settlement number: they only refuse more calls, or label rows.
- `providerOrderId` on the fee row and other provider references: written, never read by a guard.
- The eligibility gates other than the active-advance gate and the payroll cycle (KYC, bank account, cooldown, amount limits) are one answer of `Env`: how they are computed is not part of this model.
- LoanApplicationsService.Create: the other gates are that answer, and the snapshot terms come in as a parameter; `Snapshots` and `PreviewLaws` say how they are computed and stored.
- Daylight-saving changes: local time has one fixed offset, as the due-date laws assume.
- JavaScript number limits: money and counters are exact; `toNumber` and `roundMoney` do not round in paise.
- Negative rates and amounts: the pricing laws are about non-negative ones.
- PreviewLaws.PreviewIsChargeIff: rates of more decimals or thresholds above 5,000,000,000 rupees, for which a misfit need not show on any amount of the columns (`PreviewLaws.TinyMisfitIsUnseen`).
- An employee's e-mail address or employer changed by other services, which the invite and line-item laws take as fixed.
- The legacy employer login without a member row: it holds no employer role, so no guarded operation accepts it.
- `officeCode`, resent e-mails and invite previews as data: only the rows that decide membership are kept.
- PARTIALLY_PAID, FAILED, REFUNDED and the settlement-payment and funding-partner tables: declared, never written by this code.
- PostgreSQL below "a transaction is atomic, a unique constraint refuses, `updateMany … where` is compare-and-swap".
- `markPaid` and `updateEmployerRiskStatus` read the grace period from settings: it is an input.
- ReportsService.EmployerBucket.AddRecord: employee buckets are values inside the employer's object, so the aliasing of an employee bucket by a local variable is not captured.
- AuthService.AuthService.Refresh: device and address columns are not kept.
- Sessions' `updatedAt`: which inactive sessions are old enough to be deleted is an input of the clean-up.
- CycleLimitLaws.LimitKept: rows stored before the payroll-cycle column existed, which the gate counts by recovery date, are not part of this model.
