# A verified model of the settlement, billing and event machinery

This Dafny project models the money and event state machines of a parametric insurance
platform for delivery drivers, and proves what they keep over whole runs. `dafny verify
dfyconfig.toml` checks all of it.

What is modelled, component by component:

- **Payout settlement** (`Settlement`, `SettlementBooks`, `SettlementTotals`,
  `SettlementOnce`, `SettlementLiveness`, `SettlementAnswers`, `PayoutServices`, `PayoutDesk`,
  `RetryQueue`, `DisruptionEvents`, `IdempotencyKey`, `LiquidityPool`).
  `processParametricPayout` is a locking transaction, a gateway step and a resolving
  transaction, or a failure path of two separate writes. Any number of workers interleave at
  these points and may crash anywhere; each database transaction is one atomic step. The
  gateway is the test-mode pipeline, a withdrawal from the two-tier pool. The classes
  `PaymentsService`, `PayoutService` and `LiquidityPoolService` update their tables in place and are
  proved against the protocol's step functions.
- **PDF writer** (`Utf8`, `Decimal`, `PdfWriter`, `PdfReader`, `PdfObjects`, `PdfStrings`,
  `PdfContent`, `PdfRoundTrip`, `PdfDocument`, `FraudReport`). The writer is a byte-offset
  printer; the reader is written from sections 7.2, 7.3, 7.5.4, 7.5.5, 7.7.2, 7.7.3 and 7.8 of
  ISO 32000-1, not from the writer: it follows the references from the trailer to the page, its
  content stream and its font. The UTF-8 decoder is that of section 3 of RFC 3629.
- **Recurring billing** (`RecurringBilling`, `BillingSchedule`, `BillingOutcomes`, `BillingService`).
- **Reliable event cascade** (`EventCascade` for all interleavings, `EventServices` for the
  drain and replay loops, `EventRuns` and `EventProducer` for the loops as runs of the cascade).
- **Zone transitions and indexes** (`ZoneTransitions`, `LossyUpdates`, `DriverZoneIndex`, `DriverZoneHistory`,
  `BehaviorStore`).
- **Smaller machines** (`PolicyCoverage`, `CircuitBreaker`, `Notifications`,
  `AdaptiveClient`, `PremiumBounds`).

## Where the code falls short of its promise

Each of these is a theorem below: a concrete run or input that breaks the promise, or the
exact condition under which the code keeps it, or both.

- The failure path writes FAILED to the key and REJECTED to the payout separately. In between, a
  second call can lock, pay and approve, and the late REJECTED then overwrites APPROVED
  (`LateRejectionHappens`; condition `BooksAgreeIffNoLateRejection`; a caller that never
  overlaps calls of one claim is safe, `OneCallPerClaimKeepsBooksTogether`).
- The idempotency key contains the UTC hour of the call's timestamp, so one claim called with
  timestamps in two hours is paid twice (`ClaimPaidOnceIffOneHour`). This takes the direct
  endpoints (backend/src/payments/payments.controller.ts:30,
  backend/src/canonical/payouts.controller.ts:55) or overlapping requests: through the front
  door and the retry cron, one at a time, a claim is paid once (`OneAtATimePaysOnce`).
- A phase 2 that fails after the gateway paid resets the key and the claim is paid again
  (`FailedPhaseTwoPaysAgain`). It takes both the failed phase 2 and the write of FAILED
  (`KeyPaidOnceIff`); `EveryInterleavingIsSafe` counts the payments.
- A PROCESSING key cannot be re-driven, although the comments of the idempotency service call it
  re-drivable. It moves on iff a worker that has not crashed holds it (`KeyMovesOnIff`). A crash
  strands it (`CrashStrands`), and so does a lost write of the failure path with nobody
  crashed (`LostWriteStrands`); nothing else does (`OnlyCrashesAndLostWritesStrand`).
- The front door answers cached success for a payout row of any status, REJECTED included
  (`ProcessPayout`, `FailedClaimReadsAsCached`). The answer is true iff the row is APPROVED or
  was overwritten late (`PreCheckTrueIff`), and iff it is APPROVED when calls of one claim
  never overlap (`PreCheckTrueIffApproved`).
- Phase 1 also looks for a key row by user, cell and second, and can so answer for another claim
  (`TwinClaimNeverPaid`; condition `CachedAnswersTrueIff`). The retry queue counts such an entry as
  settled (`TwinBatch`; condition `SettledMeansPaidIff`).
- The retry queue has no delay between attempts, so one batch during an outage can exhaust
  every entry (`OutageBatchEmptiesIff`), whatever "exponential precision" its comment claims.
- A failed drain re-inserts the entry at the producer's end, not at the front as its comment
  says (`OrderKeptIff`).
- A driver whose zone key lapsed can be in two live zone sets (`StaleMembership`).
- The debit request is retried when its answer is lost, although the provider may have debited
  (`LostAnswerDebitsTwice`). A debit that neither the charge's transaction nor its failure
  transaction records, because the process dies or both fail, is repeated by the next run
  (`LostDebitIsRepeated`). Both are excluded exactly by `DebitedAtMostOnceIff`. A debit whose
  transaction rolls back is recorded as a failed charge although the driver paid
  (`DebitsAreBookedIff`), and a failed mandate is never billed again
  (`FailedMandateIsNeverBilledAgain`).
- The pool commits its injection inside the charge's transaction, so a rollback after it leaves
  money in the pool without a ledger row (`PoolNeverDriftsIff`).
- A failed publication of a zone change is swallowed and the aggregator keeps the new state, so the
  monitor stays behind (`NextUpdateAgreesIff`; exactly when, `AgreeIff`).
- An enrolment ends the running policy at once but starts a day later
  (`CoverageAfterEnrol`).
- A unit test expects a premium of 49.5 at coverage 0.6, but the tier cap makes it 40
  (`StandardTierIsCapped`).
- A carriage return in a report line reads back as a line feed (`LinesSurviveIffNoReturn`).
- A payout event whose status says FAILED, and any other that no label rule knows, is notified as
  a payout that has started (`TopicDecides`).
- HALF_OPEN admits every call, not one probe as the docstring says (`HalfOpenAdmitsAll`).

Three results hold of helper functions beyond the inputs the services give them today, and say how
far these can be taken: premiums are bounded and monotone iff coverage is under 0.95, while plans
use 0.4 to 0.8 (`BoundedIff`, `MonotoneInEarningsIff`); report lines stay on the page up to 38 risk
factors, more than the analysis produces (`AllLinesOnPageIff`); and a redelivered notification is
recorded twice iff it has no event id (`RedeliveriesLeaveNoTraceIff`), while the consumer always
passes partition and offset, so that redelivery leaves no trace
(`OffsetsMakeRedeliveryHarmless`).

The rows below name members whose contracts state properties. The transition functions they speak
about are `Settlement.Next`, `RetryQueue.Work`, `LiquidityPool.Apply`,
`RecurringBilling.BillPolicy`, `EventCascade.Next`, `ZoneTransitions.Flush` and `Handle`,
`DriverZoneIndex.Add`, `PolicyCoverage.Step`, `CircuitBreaker.Step`, `BehaviorStore.Record`,
`Notifications.Process` and `DisruptionEvents.Locate`.

## Model

| member | source | states |
|---|---|---|
| `Settlement.PreGateway` | backend/src/payments/payments.service.ts:529-606 | phase 1: a key that is SUCCESS is answered from cache and never locked again; a locked call owns its key in PROCESSING and no other key row changed; a cached answer speaks for the caller's own key exactly when that key has a row |
| `Settlement.PhaseOneDecides` | backend/src/payments/payments.service.ts:529-570 | phase 1 refuses iff the caller does not own the policy, the found key is PROCESSING, or another claim holds the context; it answers from cache iff the found key is SUCCESS |
| `Settlement.LockWrites` | backend/src/payments/payments.service.ts:563-603 | a lock writes the key row with its first context, the payout row with its first amount and the claim, and nothing else |
| `Settlement.EveryInterleavingIsSafe` | backend/src/payments/payments.service.ts:507-713 | in every interleaving of calls, gateway outcomes, failed writes and crashes: one holder per key, the held key reads PROCESSING, and a key was disbursed once per phase 2 that failed after a disbursement plus once if it is SUCCESS or waiting for phase 2 |
| `Settlement.DisbursedAtMostOnce` | backend/src/payments/payments.service.ts:653-675 | when phase 2 commits for every live worker, a key is disbursed at most once, SUCCESS means exactly once, and a disbursed key is SUCCESS or has a worker between gateway and phase 2 |
| `Settlement.FailedPhaseTwoPaysAgain` | backend/src/payments/payments.service.ts:697-712 | a concrete run: a phase 2 that fails after the gateway paid resets the key to FAILED and a second call pays the same key again |
| `SettlementOnce.UnmarkedKeysPaidOnce` | backend/src/payments/payments.service.ts:701-704 | while no write of FAILED lands, a paid key stays PROCESSING or SUCCESS, nobody is on the way to pay it again, and it is paid once, whatever phase 2 does |
| `SettlementOnce.KeyPaidOnceIff` | backend/src/payments/payments.service.ts:653-712 | over all runs whose steps are of given kinds, no key is paid twice iff the kinds lack one of: starting calls, a paying gateway, a failing phase 2, a write of FAILED that lands |
| `Settlement.SuccessIsFinal` | backend/src/payments/payments.service.ts:549-557 | no step of any later run takes a key out of SUCCESS |
| `Settlement.MoneyIsConserved` | backend/src/compliance/liquidity-pool.service.ts:42-150 | over any run the three funds stay non-negative and their total is initial + injected - paise paid / 100 |
| `Settlement.EveryPaymentIsExact` | backend/src/payments/payments.service.ts:241-260 | whenever a key is disbursed, pool and reserve together fall by one rupee if the approved amount rounds to less, and else by a whole number of paise within half a paisa of it, halves up; no other step but an injection moves money |
| `Settlement.OnlyOwnersArePaid` | backend/src/payments/payments.service.ts:531-535 | over any run every worker calls for the owner of its policy, so nobody is paid on a policy of somebody else |
| `SettlementLiveness.KeyMovesOnIff` | backend/src/payments/payments.service.ts:558-560 | a PROCESSING key can leave PROCESSING in some continuation iff a worker that has not crashed holds it |
| `SettlementLiveness.StuckForever` | backend/src/payments/payments.service.ts:558-560 | a PROCESSING key without such a worker stays so in every continuation: nothing more is paid under it and every call of it is refused |
| `SettlementLiveness.CrashBlocksKeyForever` | backend/src/payments/payments.service.ts:558-560 | a worker that crashed while holding a key leaves it stuck in this sense |
| `SettlementLiveness.CrashStrands` | backend/src/payments/payments.service.ts:563-606 | a concrete run: a crash right after phase 1 |
| `SettlementLiveness.LostWriteStrands` | backend/src/payments/payments.service.ts:701-704 | a concrete run without a crash: the write of FAILED to the key is lost and its error swallowed; everybody has finished and the key is stuck |
| `SettlementLiveness.OnlyCrashesAndLostWritesStrand` | backend/src/payments/payments.service.ts:507-713 | in a run without crashes and without lost key writes no key is ever stuck |
| `SettlementBooks.EveryRunKeepsBooks` | backend/src/payments/payments.service.ts:562-603 | every run in which a claim always carries the same terms keeps key rows, payout rows and claim cases in step, row by row |
| `SettlementBooks.KeyClaimAndPayoutAgree` | backend/src/payments/payments.service.ts:653-675 | key SUCCESS iff claim case PAID, and payout APPROVED iff moreover no late rejection overwrote the row, in every reachable state |
| `SettlementBooks.OverwrittenMeansLateRejection` | backend/src/payments/payments.service.ts:706-709 | the overwritten claims are exactly those for which some step of the run wrote REJECTED over an APPROVED row |
| `SettlementBooks.BooksAgreeIffNoLateRejection` | backend/src/payments/payments.service.ts:653-709 | payout rows and claim cases agree on all claims iff no step of the run wrote REJECTED over an APPROVED row |
| `SettlementBooks.LateRejectionHappens` | backend/src/payments/payments.service.ts:700-709 | two overlapping calls of one claim can end with key SUCCESS, claim PAID, payout REJECTED, nobody running |
| `SettlementBooks.OneCallPerClaimKeepsBooksTogether` | backend/src/payments/payments.service.ts:507-713 | a caller that never starts a claim while another call of it is unfinished keeps APPROVED and PAID together |
| `SettlementTotals.OutflowIsLedgerTotal` | backend/src/payments/payments.service.ts:241-260 | paise paid out equal the sum of max(100, round(100 approved)) over the keys disbursed, retries included |
| `SettlementTotals.OutflowEqualsPaidClaims` | backend/src/payments/payments.service.ts:646-675 | with every phase 2 committing, total outflow is the sum of max(100, round(100 approved)) over the PAID claims plus those awaiting phase 2; with nobody there it is exactly the PAID claims |
| `SettlementTotals.OutflowIsApproved` | backend/src/payments/payments.service.ts:646-675 | over any run outflow is 100 times the approved amounts of the disbursements, each at least one rupee, within half a paisa a disbursement; with every phase 2 committing, those of the PAID and awaiting claims, each once |
| `SettlementTotals.TwoHoursPayTwice` | backend/src/payments/payments.service.ts:521-522 | two calls of one claim whose timestamps lie in different UTC hours pay the claim twice |
| `SettlementTotals.ClaimPaidOnceIffOneHour` | backend/src/payments/payments.service.ts:521-522 | over all runs of a set of calls no claim is paid twice iff no two of the calls carry one claim in different UTC hours |
| `SettlementAnswers.PreCheckTrueIff` | backend/src/payout/payout.service.ts:222-241 | for a claim with a payout row, the front door's cached success is true (the claim is PAID) iff the row is APPROVED or a late rejection overwrote it |
| `SettlementAnswers.PreCheckTrueIffApproved` | backend/src/payout/payout.service.ts:222-241 | if calls of one claim never overlap, the cached success is true iff the row it found is APPROVED |
| `SettlementAnswers.TwinClaimNeverPaid` | backend/src/payments/payments.service.ts:543-557 | of two claims of one user, cell and second, the first is paid; however the two calls are repeated, crash or interleave afterwards, both are answered from the first one's key and the second never gets a key, a payout or a claim case |
| `SettlementAnswers.CachedAnswersTrueIff` | backend/src/payments/payments.service.ts:539-557 | over all runs of a set of calls, a cached answer of phase 1 means that the caller's own key is SUCCESS iff no two of the calls carry different claims for one user, cell and second |
| `SettlementAnswers.KeyIsTheHashedText` | backend/src/payments/payments.service.ts:521-522 | two calls have one key of the protocol model iff their hashed texts agree, for UUIDs and years 1000-9999 |
| `PayoutServices.PaymentsService.PreGatewayTransaction` | backend/src/payments/payments.service.ts:529-606 | the three upserts produce exactly the phase-1 state and change nothing when refused or cached |
| `PayoutServices.PaymentsService.ResolutionTransaction` | backend/src/payments/payments.service.ts:655-675 | payout APPROVED, claim PAID, key SUCCESS in one transaction |
| `PayoutServices.PaymentsService.RecordFailure` | backend/src/payments/payments.service.ts:697-709 | the two separate failure writes, each of which may be lost |
| `PayoutServices.PaymentsService.ProcessParametricPayout` | backend/src/payments/payments.service.ts:507-713 | one call with nobody else running ends with the tables and funds of the protocol's one-worker run, and answers settled iff it locked, the pool paid and phase 2 committed; then key, payout and claim are SUCCESS, APPROVED and PAID and the funds fell by the approved amount in whole paise, at least one rupee |
| `PayoutServices.PaymentsService.SettleLocked` | backend/src/payments/payments.service.ts:619-712 | from a lock on: the gateway's withdrawal, then phase 2 or the two failure writes |
| `PayoutServices.PayoutService.ProcessPayout` | backend/src/payout/payout.service.ts:219-296 | a claim with a payout row is answered as cached success and nothing changes; otherwise tables and funds end as one settlement of the call, the answer is that settlement's, and a failure pushes one entry with its own terms and no attempts |
| `PayoutServices.PayoutService.RetryEntry` | backend/src/payout/payout.service.ts:342-385 | one pop: one settlement of the entry's call, then settled, requeued or dead by its outcome and the limit |
| `PayoutServices.PayoutService.ProcessPayoutRetryQueue` | backend/src/payout/payout.service.ts:338-391 | payments tables, funds and queue end as the fold of one settlement per popped entry; the outcomes are those of the settlements; at most a batch, and fewer only on an empty queue |
| `PayoutServices.RetryAllIsBatch` | backend/src/payout/payout.service.ts:338-391 | the queue after such a fold is the queue's own batch over those outcomes |
| `PayoutServices.SettledEntriesSucceeded` | backend/src/payout/payout.service.ts:348-357 | if no two claims share a user, cell and second, the key of every entry a batch settled reads SUCCESS at its end |
| `PayoutDesk.TwinBatch` | backend/src/payout/payout.service.ts:342-357 | a concrete batch: two entries for different claims of one user, cell and second are both settled, and the key of the second is not SUCCESS |
| `PayoutDesk.SettledMeansPaidIff` | backend/src/payout/payout.service.ts:342-357 | over all batches of entries from a set of calls, every settled entry's key reads SUCCESS iff no two of the calls carry different claims for one user, cell and second |
| `PayoutDesk.OneAtATimePaysOnce` | backend/src/payout/payout.service.ts:219-391 | requests through the front door and the retry cron, one at a time and with phase 2 committing, pay no claim twice, whatever timestamps, users, cells and amounts they carry |
| `PayoutServices.FailedClaimReadsAsCached` | backend/src/payout/payout.service.ts:222-241 | after a settlement that the gateway refused, the front door answers cached success for a claim that is neither PAID nor APPROVED, and nothing was paid |
| `PayoutServices.LoneRun` | backend/src/payments/payments.service.ts:619-712 | the one-worker run written out: tables and funds after success, after a refused gateway and after a failed phase 2 |
| `DisruptionEvents.LocateIsNewestOrNew` | backend/src/payout/payout.service.ts:195-217 | the newest event of the type in the last hour if there is one, and otherwise a new one that occurs when the request started |
| `DisruptionEvents.EventsAreHourApart` | backend/src/payout/payout.service.ts:198-217 | however requests come in, of any two events of one type the later was created over an hour after the earlier occurred |
| `DisruptionEvents.SameEventIffWithinHour` | backend/src/payout/payout.service.ts:198-217 | two requests of one type are booked under the same event iff the later looks up no more than an hour after that event occurred |
| `DisruptionEvents.DisruptionEventTable.FindOrCreate` | backend/src/payout/payout.service.ts:198-217 | one pass for the newest match, then the insert, equals the lookup function |
| `RetryQueue.WorkConserves` | backend/src/payout/payout.service.ts:342-385 | one pop moves one entry and loses nothing; a failure uses up one attempt, a success all its entry had left |
| `RetryQueue.WorkKeepsWellFormed` | backend/src/payout/payout.service.ts:345-385 | waiting entries stay below the attempt limit, dead ones sit exactly at it |
| `RetryQueue.BatchConserves` | backend/src/payout/payout.service.ts:338-391 | a batch keeps the multiset of calls over waiting, settled and dead, keeps the limits, spends at least one open attempt per pop, and empties the queue once it has as many pops as open attempts |
| `RetryQueue.OldestFirst` | backend/src/state/redis-state.service.ts:175-196 | the queue is first in, first out: whatever the outcomes, a batch pops the entries that waited, oldest first, before any requeued one |
| `RetryQueue.FailuresGoLast` | backend/src/state/redis-state.service.ts:175-196 | failed entries with attempts left line up behind all others in their order, each with one attempt more |
| `RetryQueue.OutageBatchEmptiesIff` | backend/src/payout/payout.service.ts:331-385 | during an outage one batch dead-letters the whole queue iff its pops reach the open attempts: there is no back-off |
| `LiquidityPool.Withdraw` | backend/src/compliance/liquidity-pool.service.ts:107-150 | succeeds iff amount <= pool + reserve, takes exactly the amount, touches the reserve only after leaving the pool at 0, never touches the operating fund |
| `LiquidityPool.PoolConserved` | backend/src/compliance/liquidity-pool.service.ts:42-150 | over any run of injections and withdrawals the funds stay non-negative, the total is initial + injected - paid, and the operating fund grows by exactly 5% of injections |
| `LiquidityPool.InjectionSplit` | backend/src/compliance/liquidity-pool.service.ts:42-50 | an injection raises the total by its amount, the risk pool by sixteen times and the reserve by three times what it adds to the operating fund |
| `LiquidityPool.RunSplits` | backend/src/compliance/liquidity-pool.service.ts:42-150 | over any run the reserve is at most its start plus 15% of the injections, the risk pool at most its start plus 80%, both are short of 95% together by what was paid, and exact when nothing was paid |
| `LiquidityPool.LiquidityPoolService.InjectPremium` | backend/src/compliance/liquidity-pool.service.ts:42-86 | the pool, reserve and operating rows grow by 80%, 15% and 5% of the premium |
| `LiquidityPool.LiquidityPoolService.WithdrawPayout` | backend/src/compliance/liquidity-pool.service.ts:107-150 | the pool row falls by the amount, or to 0 with the rest from the reserve row; refused, with nothing changed, iff both fall short |
| `IdempotencyKey.CivilRoundTrip` | backend/src/payments/payout-idempotency.service.ts:47-48 | the Gregorian year, month, day and hour of an hour index determine it (section 21.4.1 of ECMA-262) |
| `IdempotencyKey.YearFromDay` | backend/src/payments/payout-idempotency.service.ts:47-48 | the year computed for a day is the one whose days contain it |
| `IdempotencyKey.FourDigitYearRange` | backend/src/payments/payout-idempotency.service.ts:48-48 | years 1000-9999 as a range of timestamps, exactly |
| `IdempotencyKey.WindowTextReadsBack` | backend/src/payments/payout-idempotency.service.ts:48-48 | equal window texts have equal year, month, day and hour |
| `IdempotencyKey.SameWindowSameHour` | backend/src/payments/payout-idempotency.service.ts:46-53 | two four-digit-year timestamps have one window text iff floor(ts/3600) is the same |
| `IdempotencyKey.KeyIdentifiesClaimHour` | backend/src/payments/payout-idempotency.service.ts:46-53 | the hashed text is the same iff policy, disruption and UTC hour are the same, for ids of one length and years 1000-9999 |
| `IdempotencyKey.LeapDayKey` | backend/src/payments/payout-idempotency.service.ts:46-53 | the hashed text of a call in the last second of 29 February 2024: claim id, 20240229, 23 |
| `IdempotencyKey.FreeFormIdsCollide` | backend/src/payments/payments.service.ts:521-522 | with ids of free form two different claims can share a key text |
| `PdfWriter.Assemble` | backend/src/fraud/fraud.service.ts:866-890 | one pass with a running byte total writes the file of the specification, offsets included, for any objects |
| `PdfWriter.BuildSimplePdf` | backend/src/fraud/fraud.service.ts:846-891 | the report file, byte for byte |
| `PdfStrings.EscapeIsOnePass` | backend/src/fraud/fraud.service.ts:847-848 | the three global replacements escape every special character once: no pass touches what an earlier one inserted |
| `PdfStrings.LineRoundTrip` | backend/src/fraud/fraud.service.ts:847-854 | a written literal reads back (section 7.3.4.2 of ISO 32000-1) with CR and CR LF as LF; it is the line itself iff the line holds no carriage return |
| `PdfContent.StreamShowsLines` | backend/src/fraud/fraud.service.ts:851-856 | running Tf, Tm and Tj over the stream shows every line once, in order, in 12 point F1, 50 units from the left, from 760 units up downwards 16 units apart |
| `PdfRoundTrip.EntryWidth` | backend/src/fraud/fraud.service.ts:878-882 | a cross-reference entry has its 20 bytes iff the offset is below 10^10 |
| `PdfRoundTrip.TableReadsBack` | backend/src/fraud/fraud.service.ts:870-890 | for any objects whose last offset is below 10^10, startxref leads to xref and every entry parses to its recorded offset (sections 7.5.4 and 7.5.5) |
| `PdfRoundTrip.ObjectReadsBack` | backend/src/fraud/fraud.service.ts:866-875 | at every recorded offset the file holds the bytes of that object |
| `PdfObjects.ValueReads` | backend/src/fraud/fraud.service.ts:857-863 | the reader of section 7.3 of ISO 32000-1 gets every value of names, numbers, references, arrays and dictionaries back from its tokens |
| `PdfObjects.ObjectReads` | backend/src/fraud/fraud.service.ts:857-863 | an indirect object of such a value is found in the file's bytes at its position, with the keyword behind it |
| `PdfDocument.DictionaryReads` | backend/src/fraud/fraud.service.ts:857-863 | catalog, page tree, page and font stand at their recorded offsets and say what a reader needs |
| `PdfDocument.StreamReadsBack` | backend/src/fraud/fraud.service.ts:861-861 | the reader that trusts /Length gets exactly the stream's bytes |
| `PdfDocument.ReportReadsBack` | backend/src/fraud/fraud.service.ts:846-891 | from the trailer's /Root through the cross-reference table over /Pages, /Kids and /Contents to the stream, which shows the lines, in the font the page names F1, which is Helvetica |
| `PdfDocument.ReportLayout` | backend/src/fraud/fraud.service.ts:857-866 | the file declares version 1.3 and its one page measures 612 by 792 units |
| `Utf8.DecodeEncode` | backend/src/fraud/fraud.service.ts:861-890 | the decoder of section 3 of RFC 3629 gives every string back from its bytes |
| `Utf8.EncodeInjective` | backend/src/fraud/fraud.service.ts:861-890 | UTF-8 encoding, which byteLength and Buffer.from use, loses nothing |
| `FraudReport.ReportLines` | backend/src/fraud/fraud.service.ts:824-836 | the ten header lines with their field texts, then the numbered risk factors in order, or the line None |
| `FraudReport.ColumnsAreLabelled` | backend/src/fraud/fraud.service.ts:824-836 | each column stands behind its own label in its place, a missing one as Unknown or N/A |
| `FraudReport.HeaderIsShown` | backend/src/fraud/fraud.service.ts:824-838 | a reader of the file sees the ten fixed lines at the head of the page |
| `FraudReport.FactorIsShown` | backend/src/fraud/fraud.service.ts:824-838 | a reader of the file sees risk factor i as line 10 + i with its number, at its height |
| `FraudReport.AllLinesOnPageIff` | backend/src/fraud/fraud.service.ts:851-854 | every line's baseline lies on the single page, 792 units high, iff there are at most 38 risk factors |
| `FraudReport.LinesSurviveIffNoReturn` | backend/src/fraud/fraud.service.ts:846-891 | a reader of the file sees exactly the given lines, in order and at their heights, iff none holds a carriage return |
| `FraudReport.FileDeterminesLines` | backend/src/fraud/fraud.service.ts:846-891 | two line lists without carriage returns give the same file iff they are equal |
| `FraudReport.FileDeterminesAnalysis` | backend/src/fraud/fraud.service.ts:824-838 | without carriage returns, reports with one file have the same id, status, score, date and risk factors |
| `RecurringBilling.CycleWindowsPartition` | backend/src/premium/premium.service.ts:61-67 | from the policy start on each instant lies in its own 7-day window, and two windows are equal or disjoint |
| `RecurringBilling.CountAttemptsIsSize` | backend/src/premium/premium.service.ts:210-218 | the number of an attempt is one more than the number of the invoice's attempts before it |
| `RecurringBilling.EveryBillingHistoryBalances` | backend/src/premium/premium.service.ts:198-380 | over any non-overlapping runs, with a death or an error at any point of a charge: one invoice per (policy, cycle), attempts numbered 1..n, PAID iff exactly one SUCCESS attempt and one ledger row, ledger total = PAID total, and the pool grew by that total plus what rolled-back charges had injected |
| `BillingSchedule.NothingBeforeDue` | backend/src/premium/premium.service.ts:353-353 | a visit before the mandate's next charge time changes nothing at all |
| `BillingSchedule.VisitDebits` | backend/src/premium/premium.service.ts:346-368 | a visit debits the driver iff the mandate is active and due, or new, and the invoice of the week that counts from the policy's start is unpaid, or missing with a premium at hand |
| `BillingSchedule.NewInvoice` | backend/src/premium/premium.service.ts:86-129 | a due visit without an invoice makes one for the whole premium and the week that holds the visit |
| `BillingSchedule.StoppedCharge` | backend/src/premium/premium.service.ts:208-321 | a charge writes its attempt, marks the invoice, sends the debit and injects the premium in this order; from the mark on an error leaves invoice and mandate FAILED and the next charge a day later, a death or a second error the invoice PROCESSING and the mandate due |
| `BillingSchedule.RunGoesOnIff` | backend/src/premium/premium.service.ts:342-378 | the loop goes on after every policy unless the process dies in its charge |
| `BillingSchedule.ChargesAreAWeekApart` | backend/src/premium/premium.service.ts:262-275 | over all runs on a clock that never goes back, two collected charges of one mandate lie at least 604800000 ms apart |
| `BillingOutcomes.LostDebitIsRepeated` | backend/src/premium/premium.service.ts:225-321 | whatever outcome leaves its debits unrecorded by both transactions, the next visit adds its own debits for the same cycle |
| `BillingOutcomes.LostAnswerDebitsTwice` | backend/src/premium/premium.service.ts:46-58 | a concrete charge: the first POST debits and its answer is lost, the second is accepted; the invoice is PAID and the driver debited twice |
| `BillingOutcomes.FirstAnswerOfThree` | backend/src/premium/premium.service.ts:46-58 | the first of three requests that is answered decides; the driver is debited by those sent up to then that were accepted, or debited with their answer lost |
| `BillingOutcomes.DebitedAtMostOnceIff` | backend/src/premium/premium.service.ts:131-321 | over all runs with outcomes from a set, no driver is debited twice for a cycle iff in the set no charge debits more than once and none ends with a debit that neither transaction records |
| `BillingOutcomes.DebitsAreBookedIff` | backend/src/premium/premium.service.ts:228-285 | over all such runs every debit belongs to a PAID invoice of its own iff in the set a charge debits once when it commits and never otherwise |
| `BillingOutcomes.PoolNeverDriftsIff` | backend/src/compliance/liquidity-pool.service.ts:52-86 | the pool commits inside the charge's transaction: over all such runs it agrees with the ledger iff no charge is lost after that commit |
| `RecurringBilling.BillPolicyKeepsFailed` | backend/src/premium/premium.service.ts:346-368 | a policy whose mandate FAILED is left alone by the cron |
| `RecurringBilling.FailedMandateIsNeverBilledAgain` | backend/src/premium/premium.service.ts:305-353 | once a mandate failed it stays FAILED over any later runs, and visiting its policy changes nothing |
| `BillingService.PremiumService.EnsureBillingMandate` | backend/src/premium/premium.service.ts:69-84 | finds the policy's mandate or creates one that is due now |
| `BillingService.PremiumService.EnsureCycleInvoice` | backend/src/premium/premium.service.ts:86-129 | finds the cycle's invoice or creates a PENDING one; no invoice when the premium cannot be computed |
| `BillingService.PremiumService.CollectCharge` | backend/src/premium/premium.service.ts:237-280 | the commit of the transaction after a debit: attempt, invoice, ledger and mandate |
| `BillingService.PremiumService.ExecuteRecurringDebit` | backend/src/premium/premium.service.ts:131-188 | the debit request with its retries: the first answer decides, lost ones are retried, and the driver is debited by every POST that took effect |
| `BillingService.PremiumService.DebitAndInject` | backend/src/premium/premium.service.ts:228-284 | the debit request, and the injection that the pool commits by itself |
| `BillingService.PremiumService.RefuseCharge` | backend/src/premium/premium.service.ts:288-315 | the transaction of the catch block |
| `BillingService.PremiumService.ProcessInvoiceCharge` | backend/src/premium/premium.service.ts:198-321 | one charge, stopped by a death or an error at any of its points |
| `BillingService.PremiumService.BillOne` | backend/src/premium/premium.service.ts:346-368 | one policy of the loop |
| `BillingService.PremiumService.RunRecurringBilling` | backend/src/premium/premium.service.ts:323-380 | the loop over policies equals the billing function |
| `EventCascade.EventsAreConserved` | backend/src/kafka/kafka-reliable-producer.service.ts:204-265 | in every interleaving of emits, drains and replays: each emission is delivered, in its Redis list, in a live row, or in a row DEAD after failed replays, exactly once; a row gives up after exactly five |
| `EventCascade.EveryEventInOnePlace` | backend/src/kafka/kafka-reliable-producer.service.ts:204-265 | an event emitted once is in exactly one place, so it is delivered at most once |
| `EventCascade.BrokerUpDeliversInOrder` | backend/src/kafka/kafka-reliable-producer.service.ts:209-218 | while the broker is up and marked so, every event is delivered as it is emitted, in order, and neither Redis nor the table holds any |
| `EventCascade.RedisUpKeepsTableEmpty` | backend/src/kafka/kafka-reliable-producer.service.ts:220-235 | while Redis is up no event is written to the dead-letter table, whatever the broker does |
| `EventCascade.BrokerDownDeliversNothing` | backend/src/kafka/kafka-reliable-producer.service.ts:209-235 | while the broker is down nothing is delivered |
| `EventServices.DrainTakesOldest` | backend/src/kafka/redis-fallback-queue.service.ts:121-152 | a drain delivers the oldest entries in push order: 50, or all if fewer, if no emit fails; at a failure the failed entry becomes the newest |
| `EventServices.OrderKeptIff` | backend/src/kafka/redis-fallback-queue.service.ts:142-146 | push order survives a drain iff no emit failed or the failed entry was the last one waiting |
| `EventServices.ReplayKeepsSettled` | backend/src/kafka/kafka-dlq.service.ts:97-136 | a replay job keeps every row in order; a row gives up at exactly five failures |
| `EventServices.ReplaySpendsAttempts` | backend/src/kafka/kafka-dlq.service.ts:97-136 | every replay job uses up at least one open attempt per live row it takes, so a dead broker empties the live table |
| `EventServices.ReplayTriesOldest` | backend/src/kafka/kafka-dlq.service.ts:62-69 | exactly the oldest live rows up to the batch are tried, each once: DEAD and marked replayed if the send succeeds, else given up iff it was the fifth; all others untouched |
| `EventServices.RedisFallbackQueueService.PushEvent` | backend/src/kafka/redis-fallback-queue.service.ts:68-85 | appends at the producer's end of the topic's list |
| `EventServices.RedisFallbackQueueService.DrainTopic` | backend/src/kafka/redis-fallback-queue.service.ts:122-148 | one topic's loop equals the drain function and touches no other list |
| `EventServices.RedisFallbackQueueService.DrainQueue` | backend/src/kafka/redis-fallback-queue.service.ts:107-153 | every topic is drained once with its own batch |
| `EventServices.KafkaDlqService.PushToDlq` | backend/src/kafka/kafka-dlq.service.ts:38-50 | a fresh PENDING row |
| `EventServices.KafkaDlqService.ReplayEntry` | backend/src/kafka/kafka-dlq.service.ts:107-133 | RETRYING, then DEAD on success or at the fifth failure, else PENDING |
| `EventServices.KafkaDlqService.ReplayPending` | backend/src/kafka/kafka-dlq.service.ts:97-136 | the loop equals the replay function with room for 20 rows |
| `EventProducer.KafkaReliableProducerService.EmitRaw` | backend/src/kafka/kafka-reliable-producer.service.ts:240-265 | throws iff the broker is down; success marks it available |
| `EventProducer.KafkaReliableProducerService.Emit` | backend/src/kafka/kafka-reliable-producer.service.ts:204-235 | the event is delivered iff the broker is marked available and up; else the mark is cleared and the event joins its topic's list if Redis is up, or a fresh dead-letter row; nothing else changes, and this is the emit step of the interleaved model |
| `EventProducer.KafkaReliableProducerService.RunDrain` | backend/src/kafka/redis-fallback-queue.service.ts:121-148 | a drain of a topic through the registered emit leaves the state of a run of pop and emit steps |
| `EventProducer.KafkaReliableProducerService.RunReplay` | backend/src/kafka/kafka-dlq.service.ts:97-136 | a replay job through the registered emit leaves the state of a run of begin, send and mark steps |
| `EventRuns.DrainIsARun` | backend/src/kafka/redis-fallback-queue.service.ts:121-148 | from any state with well-placed entries, the drain loop is a run of the interleaved cascade |
| `EventRuns.ReplayIsARun` | backend/src/kafka/kafka-dlq.service.ts:97-136 | from any state without a replay under way, the replay loop is a run of the interleaved cascade |
| `EventRuns.DrainConserves` | backend/src/kafka/redis-fallback-queue.service.ts:121-148 | after any history, a drain keeps every event accounted for |
| `EventRuns.ReplayConserves` | backend/src/kafka/kafka-dlq.service.ts:97-136 | after any history, so does a replay job |
| `ZoneTransitions.ChangeLogIsAChain` | ml-services/grid-event-service/services/zone_aggregator.py:172-214 | over any flushes each cell's change log is a stutter-free chain from NORMAL that ends in the aggregator's state |
| `ZoneTransitions.FlushFollowsPipeline` | ml-services/grid-event-service/services/zone_aggregator.py:172-214 | after a flush every cell of the window stands where the pipeline put it, or where it stood if the pipeline failed; other cells stand where they stood |
| `ZoneTransitions.RedeliveryFiresNothing` | backend/src/kafka/zone-monitoring.service.ts:94-124 | delivering a message again at once changes no state and fires nothing |
| `ZoneTransitions.FiresOncePerHaltedRun` | backend/src/kafka/zone-monitoring.service.ts:94-136 | for any message stream of a cell, AQI override and empty states included, claims fire once per maximal run of HALTED states, one already under way excepted |
| `ZoneTransitions.FiresPerCell` | backend/src/kafka/zone-monitoring.service.ts:94-136 | over all cells, a cell's claims are those of its own messages |
| `ZoneTransitions.MonitorFollowsAggregator` | backend/src/kafka/zone-monitoring.service.ts:94-103 | fed the change log in order and without loss, the monitor's state map is the aggregator's |
| `ZoneTransitions.ClaimsFollowAggregator` | backend/src/kafka/zone-monitoring.service.ts:124-136 | end to end from empty: the monitor knows what the aggregator knows, and fires a cell once for each of the aggregator's updates of that cell to HALTED, which are its maximal HALTED runs |
| `LossyUpdates.AgreeIff` | ml-services/grid-event-service/services/zone_aggregator.py:118-129 | when publications fail silently, monitor and aggregator agree on a cell iff the cell's last delivered update led where its last update led |
| `LossyUpdates.NextUpdateAgreesIff` | ml-services/grid-event-service/services/zone_aggregator.py:209-214 | where both agree, the cell's next update keeps them together iff it is delivered |
| `LossyUpdates.LossesCancel` | ml-services/grid-event-service/services/zone_aggregator.py:209-214 | two lost updates there and back leave both in agreement although the last update was lost |
| `LossyUpdates.ThereAndBack` | ml-services/grid-event-service/services/zone_aggregator.py:209-214 | the case NORMAL to HALTED, to SLOW, back to HALTED with the last two updates lost is such a log, so the last update being delivered is sufficient and not necessary |
| `ZoneTransitions.ZoneAggregator.ProcessPing` | ml-services/grid-event-service/services/zone_aggregator.py:51-57 | the driver joins the cell's set; nothing else changes |
| `ZoneTransitions.WindowHoldsPings` | ml-services/grid-event-service/services/zone_aggregator.py:145-147 | a window holds exactly the drivers that pinged a cell since it was opened |
| `ZoneTransitions.ZoneAggregator.FlushOnce` | ml-services/grid-event-service/services/zone_aggregator.py:145-214 | publishes exactly the flush function's updates; the pings that arrive meanwhile are the next window |
| `ZoneTransitions.ZoneMonitoringService.EachMessage` | backend/src/kafka/zone-monitoring.service.ts:81-136 | a cell is stored HALTED over an AQI of 300, else as the message says, else as it was; claims fire iff it becomes HALTED; other cells unchanged; the cached states stay the stored ones |
| `DriverZoneIndex.RecentDriverIsListed` | backend/src/state/redis-state.service.ts:145-173 | a driver whose zone key is live is in the live set of exactly the zone of the last ping |
| `DriverZoneIndex.StaleMembership` | backend/src/state/redis-state.service.ts:151-157 | a ping leaves the driver in another live set iff that set held the driver and the live zone key did not name it |
| `DriverZoneIndex.LapsedDriverIsListedTwice` | backend/src/state/redis-state.service.ts:151-157 | a concrete history: a driver whose key lapsed is in two live sets |
| `DriverZoneIndex.SetsAreExactWithoutLapse` | backend/src/state/redis-state.service.ts:145-173 | if no key lapses, each live set is exactly the drivers whose last ping was there |
| `DriverZoneHistory.ListedIff` | backend/src/state/redis-state.service.ts:145-173 | over any history, a driver is in a cell's live set iff some ping put it there, the set never expired from then until now, and no later ping removed it |
| `DriverZoneIndex.RedisStateService.AddDriverToZone` | backend/src/state/redis-state.service.ts:145-161 | the Redis keys after a ping |
| `DriverZoneIndex.RedisStateService.GetZoneDrivers` | backend/src/state/redis-state.service.ts:163-173 | the members of a live set, nothing for an expired one |
| `PolicyCoverage.EveryHistoryIsSequential` | backend/src/insurance/insurance.service.ts:498-518 | each policy ends before any later one starts and only the newest may still run |
| `PolicyCoverage.CoverageIsDisjoint` | backend/src/payments/payments.service.ts:389-412 | over any history no instant is covered twice and at most one policy ends after now, so the active-policy lookup does not depend on its ordering |
| `PolicyCoverage.CoverageAfterEnrol` | backend/src/insurance/insurance.service.ts:499-507 | after an enrolment the driver is covered exactly from 24 hours to eight days later, whatever ran before |
| `PolicyCoverage.CoverageAfterPurchase` | backend/src/payments/payments.service.ts:382-412 | after a verified purchase the driver is covered exactly from now for the plan's days, whatever ran before |
| `PolicyCoverage.CoverageAfterCancel` | backend/src/insurance/insurance.service.ts:757-770 | after a cancellation the driver is covered no more |
| `PolicyCoverage.RenewalIs` | backend/src/insurance/insurance.service.ts:786-854 | a renewal does nothing while the newest policy is active for over a day yet, and otherwise is a purchase of its plan or an enrolment |
| `PolicyCoverage.CoverageAfterRenewal` | backend/src/insurance/insurance.service.ts:805-854 | a purchase renewed with no more than a day left covers its number of days again, from the renewal on |
| `PolicyCoverage.CoverageAfterReenrolment` | backend/src/insurance/insurance.service.ts:805-854 | an enrolment renewed with no more than a day left is an enrolment again, lockout included |
| `PolicyCoverage.InsuranceService.EnrollPolicy` | backend/src/insurance/insurance.service.ts:498-518 | cut off, then a policy after the lockout; other drivers unchanged |
| `PolicyCoverage.InsuranceService.VerifyPayment` | backend/src/payments/payments.service.ts:382-412 | cut off, then a policy from now; other drivers unchanged |
| `PolicyCoverage.InsuranceService.CancelPolicy` | backend/src/insurance/insurance.service.ts:757-770 | a current policy, if there is one, is CANCELLED and ends now; nothing else changes |
| `PolicyCoverage.InsuranceService.RenewPolicy` | backend/src/insurance/insurance.service.ts:786-854 | refused without a policy or when it is active for more than a day yet; otherwise bought or enrolled again |
| `CircuitBreaker.AllowedByHistory` | ml-services/h3-feature-service/services/circuit_breaker.py:57-95 | a request is allowed iff fewer than threshold failures followed the last success or the latest failure is at least the recovery timeout old |
| `CircuitBreaker.HalfOpenAdmitsAll` | ml-services/h3-feature-service/services/circuit_breaker.py:68-69 | once the recovery timeout let a request through, every request is let through, however many, until one succeeds or fails |
| `CircuitBreaker.CircuitBreaker.AllowRequest` | ml-services/h3-feature-service/services/circuit_breaker.py:57-69 | answers as the history says |
| `CircuitBreaker.CircuitBreaker.RecordSuccess` | ml-services/h3-feature-service/services/circuit_breaker.py:71-75 | closed with no failures |
| `CircuitBreaker.CircuitBreaker.RecordFailure` | ml-services/h3-feature-service/services/circuit_breaker.py:77-95 | the state stays the function of the history |
| `BehaviorStore.StoredIsFreshLatest` | ml-services/fraud-feature-service/storage/store.py:184-202 | the stored list is the fresh part of each user's latest ping, in ping order |
| `BehaviorStore.ActiveUsersAreExact` | ml-services/fraud-feature-service/storage/store.py:195-210 | a user is listed iff the latest ping there is under 3600 s old, with that ping's time, once, ordered by last ping |
| `BehaviorStore.DeviceUsersAreDistinct` | ml-services/fraud-feature-service/storage/store.py:167-173 | the device list holds exactly the users ever logged on it, each once, so its length is their number |
| `BehaviorStore.Store.RecordH3ActiveUser` | ml-services/fraud-feature-service/storage/store.py:184-210 | the list holds exactly the latest pings under 3600 s old; reports their number and a burst iff more than one |
| `BehaviorStore.Store.RecordDevice` | ml-services/fraud-feature-service/storage/store.py:154-173 | high_share iff more than three distinct users were ever logged |
| `BehaviorStore.Store.RecordGpsPing` | ml-services/fraud-feature-service/storage/store.py:139-144 | the history is the last 500 pings |
| `Notifications.EventIdIsFirstField` | backend/src/notifications/notification.service.ts:387-405 | the event id is the first of the five id fields that holds a string, and failing all of them topic:partition:offset, or none |
| `Text.UpperAlphabet` | backend/src/notifications/notification.service.ts:414-414 | the upper-case forms of the 26 letters |
| `Text.LowerAlphabet` | backend/src/notifications/notification.service.ts:430-430 | the lower-case forms of the 26 letters |
| `Text.OthersStay` | backend/src/notifications/notification.service.ts:414-430 | no other character changes case |
| `Notifications.FieldCountsIff` | backend/src/notifications/notification.service.ts:490-492 | a payload field counts iff it is a string that is not empty once trimmed, and it counts untrimmed |
| `Notifications.Blanks` | backend/src/notifications/notification.service.ts:490-492 | the characters that trimming drops |
| `Notifications.UserIdIsFirstField` | backend/src/notifications/notification.service.ts:365-385 | the user id is the first of the eight fields, direct and nested, that holds a string, or none |
| `Notifications.TypeIsFirstRule` | backend/src/notifications/notification.service.ts:416-428 | the first of the fourteen label rules that fits gives the event type, and none if none fits |
| `Notifications.LabelDecides` | backend/src/notifications/notification.service.ts:408-428 | the label is the first of six fields that holds a string; the first rule that fits it decides the type, whatever the topic |
| `Notifications.TopicDecides` | backend/src/notifications/notification.service.ts:430-447 | without a known label the topic gives the type; a payout event counts as started whatever its status, unless that says it is done |
| `Notifications.IncludesIff` | backend/src/notifications/notification.service.ts:416-428 | a word is found in a label iff it stands at some position |
| `Notifications.RedeliveryIsHarmlessIff` | backend/src/notifications/notification.service.ts:321-338 | processing a message again leaves the table alone iff it has an event id or notifies nobody |
| `Notifications.RedeliveriesLeaveNoTraceIff` | backend/src/notifications/notification.service.ts:305-363 | a delivery sequence leaves the table of the sequence without repeats iff no repeated delivery lacks an event id |
| `Notifications.OffsetsMakeRedeliveryHarmless` | backend/src/notifications/notification.service.ts:400-402 | with partition and offset always present, redelivery leaves no trace |
| `Notifications.OneRowPerEvent` | backend/src/notifications/notification.service.ts:305-363 | exactly one row per distinct (user, event type, event id) ever delivered |
| `Notifications.NotificationService.FindDuplicate` | backend/src/notifications/notification.service.ts:323-334 | finds a row iff one with this user, type and event id exists |
| `Notifications.NotificationService.ProcessKafkaEvent` | backend/src/notifications/notification.service.ts:305-363 | appends the delivery's row unless it notifies nobody or is a duplicate |
| `PremiumBounds.FloorBelowCapIff` | backend/src/premium/premium-calculation.util.ts:35-45 | floor <= cap iff coverage is under 0.95; floor >= 20 and cap between 30 and 50 always |
| `PremiumBounds.BoundedIff` | backend/src/premium/premium-calculation.util.ts:92-121 | 20 <= floor <= premium <= cap <= 50 for all non-negative earnings and loss factors iff coverage is under 0.95 |
| `PremiumBounds.PremiumIsMonotone` | backend/src/premium/premium.service.ts:613-616 | through rounding and clamping the premium is nondecreasing in earnings, loss factor and coverage together, below 0.95 |
| `PremiumBounds.MonotoneInEarningsIff` | backend/src/premium/premium.service.ts:613-616 | more earnings never lower the premium iff coverage is under 0.95; from there on it drops from 60 or more to 50 |
| `PremiumBounds.EquationKeptIff` | backend/src/premium/premium-calculation.util.ts:113-121 | the premium is the equation's value iff that lies between the tier's floor and cap, and never from coverage 0.95 on |
| `PremiumBounds.RawPremiumIs` | backend/src/premium/premium-calculation.util.ts:105-108 | the equation's value is the nearest paisa to 0.0165 times earnings, loss factor and coverage |
| `PremiumBounds.PremiumIsNearest` | backend/src/premium/premium-calculation.util.ts:113-121 | below coverage 0.95 the premium is the value between floor and cap that is closest to the equation's |
| `PremiumBounds.StandardTierIsCapped` | backend/src/premium/premium-calculation.util.ts:92-121 | earnings 10000, loss factor 0.5, coverage 0.6: the equation gives 49.5 and the tier cap 40 |
| `AdaptiveClient.AdaptiveAsyncClient.RequestWithPolicy` | ml-services/h3-feature-service/services/apiris_http.py:135-192 | at most retries + 1 requests; the answer is that of the first attempt not worth retrying or of the last allowed; the timeout of every request and the total sleep; the raise after the loop is unreachable |
| `AdaptiveClient.HowItSettles` | ml-services/h3-feature-service/services/apiris_http.py:141-183 | every attempt before the last timed out, or came back with a retryable status that is 429 or too slow by forecast; such a last answer means that no retries were left |
| `AdaptiveClient.TimeoutsCappedIff` | ml-services/h3-feature-service/services/apiris_http.py:138-164 | no request of any call exceeds the maximum timeout iff that maximum is at least 0.1 |
| `AdaptiveClient.TimeoutClosedForm` | ml-services/h3-feature-service/services/apiris_http.py:163-164 | capping after every growth step is capping once |
| `AdaptiveClient.SleepIsTriangular` | ml-services/h3-feature-service/services/apiris_http.py:163-165 | k retries sleep base * k(k+1)/2 |

## Left out

- Database isolation below serializable: every `$transaction` is one atomic step.
- RazorpayX, Twilio, Gemini, e-mail, weather and ML calls: only whether they succeed, as parameters. A payout provider whose outcome is unknown after a time-out is not part of this model; for the recurring debit it is. Staged provisioning, which debits nobody, reads as an accepted request.
- SHA-256: taken as injective, so a key is the hashed text. `KeyIdentifiesClaimHour` needs ids of one length (UUIDs) and years 1000-9999; `FreeFormIdsCollide` shows why.
- `checkOrCreate` and the `mark*` methods of the idempotency service: `processParametricPayout` does not call them.
- Other writers of payout rows (plans service, claims controller, seed script): they bypass the settlement protocol.
- Liquidity pool without its table (degraded mode) and first-use defaults, which differ between injection and withdrawal: all three rows exist from the start. Amounts are exact reals.
- PayoutServices.PayoutService.ProcessPayout: starts after the eligibility gates (policy, zone, HALTED state), takes the disruption event (see `DisruptionEvents`, where requests run one at a time) and the net amount as given.
- PayoutServices.PayoutService.ProcessPayoutRetryQueue: queue and dead-letter writes succeed; a push while Redis is down would lose the entry silently. Entries carry all their fields. Nobody else settles while the batch runs; `Settlement` covers interleaving.
- Gross and net amounts end to end: `processInsurance` passes a net amount into `processPayout`, which subtracts the deductible again.
- PdfWriter.BuildSimplePdf: lone surrogates, which JavaScript strings can hold and Dafny characters cannot, and the base64 wrapper.
- PdfRoundTrip.TableReadsBack: for files whose last object begins below byte 10^10, where ten digits suffice (`EntryWidth`).
- FraudReport.ReportLines: number and date formatting of the columns; they are text parameters.
- RecurringBilling.EveryBillingHistoryBalances: two runs do not overlap; WAIVED and PAUSED, which nothing writes, are not modelled. A death between creating a mandate and its invoice is a run that ends there.
- EventCascade.EventsAreConserved: Redis push-back and dead-letter writes succeed, entries parse, a drain or replay does not crash half-way, one replay job at a time, and a send has a definite outcome.
- EventServices.OrderKeptIff: for lists of distinct entries.
- ZoneTransitions.MonitorFollowsAggregator: for state names already in upper case, as the pipeline sends them, with no AQI in the aggregator's messages; loss is in `LossyUpdates`; reordered messages, the Redis mirror of the state and the cache's other columns are not modelled. Upper-casing is ASCII.
- DriverZoneIndex.RedisStateService.AddDriverToZone: its Redis commands run as one step; two pings of one driver do not interleave.
- PolicyCoverage.EveryHistoryIsSequential: requests of one driver run one after the other; premium, eligibility checks and the Redis policy state are left out.
- BehaviorStore.StoredIsFreshLatest: timestamps are nondecreasing; the key's own expiry, `record_claim` and `record_zone_presence` are left out.
- Notifications.OneRowPerEvent: deliveries are processed one at a time and writes succeed; message texts are left out; `toUpperCase` is ASCII.
- CircuitBreaker.AllowedByHistory: the module's registry of named breakers.
- AdaptiveClient.AdaptiveAsyncClient.RequestWithPolicy: cancellation during a sleep, and how a latency forecast is read off the response.
- PremiumBounds.BoundedIff: floating-point rounding below the tenth and the paisa; how earnings, loss factor and coverage are obtained.
- H3 indexing, haversine distances, speed estimation, model training: cells are opaque.
- Controllers, DTOs, guards, authentication, KYC forms, admin reports and the front ends: plumbing or single-branch reading.
