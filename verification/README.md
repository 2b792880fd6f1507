# A verified model of the legal-assessment backend

The backend takes an employment-law case from intake to a paid document bundle. This project models
the parts of it where state, interleaving or arithmetic decide whether it is right, and proves what
they promise, for every input and every run. The proofs are in Dafny; `dafny verify dfyconfig.toml`
checks them all.

## What is modelled

* **Payments and documents** (`PaymentTables`, `PaymentProtocol`, `PaymentSafety`, `PaymentOwners`,
  `WebhookConvergence`). The tables `cases`, `payment_sessions`, `payment_events` and `documents`; the
  transactions of the two webhooks, session creation, test confirmation, document generation and the
  bundle as functions on the tables, and as methods of `Database` that change the rows. `Step` runs one
  transaction of one request, so a run is any interleaving of any number of requests, with Stripe's
  answers and database faults as part of the actions.
* **The brain** (`Text`, `Evaluator`, `SafetyGate`, `Brain`, `BrainRelease`). `RunBrain` follows the
  controller's control flow with every external call as an oracle that may raise; `BrainTrace` is the append-only trace.
* **Dates and money** (`Calendar`, `Deadlines`, `IsoText`, `FlexibleWorking`, `Awards`). The proleptic
  Gregorian calendar with clamping month addition, ISO text and its string order, and the redundancy
  loop against its closed form.
* **The date printer and reader** (`DateText`, `DateRoundTrip`) and the **chronology** (`StableSort`,
  `Chronology`). The three regular expressions are matched by a hand-written scanner that is proved
  equivalent to the expressions' meaning.
* **Three shared objects**: the circuit breaker (`CircuitBreaker`, `BreakerOverlap`, `BreakerLoad`), the pooled
  connection (`ConnectionPool`, `PoolStranding`, `TransactionInterleaving`) and the token budget (`CostGovernor`), each
  as a class and as a step relation.
* **Ingestion, packing and facts** (`ChunkKeys`, `Ingestion`, `IngestionOverlap`, `Reingestion`,
  `ContextPacker`, `Facts`, `FactRuns`).

A class stands where the source updates fields or rows in place; its methods are proved equal to functions
of the old state, and the theorems are lemmas about those functions. Values, orders and expressions are
functions.

## Where the code departs from its own description

Where a departure shows only sometimes, the theorem gives the exact condition.

* The download and bundle gates accept a paid session, the document route only the case flag. For an
  ownerless case a confirmed test session sets the first and not the second
  (`BundlePrecedesFlagExactlyWhenOwnerless`).
* The deprecated webhook pays a case whatever its owner and runs the case update again for a duplicate
  event (`WebhooksAgreeExactlyWhen`, `DuplicateRelinksExactlyWhen`, `MismatchedDeliveryPays`).
* Two overlapping document requests leave two rows (`TwoRowsExactlyWhenOverlapping`), and a request for an
  existing document answers an id that has no row (`RecordGeneratedDocument`).
* The breaker's comment says HALF_OPEN admits exactly one trial; it admits every caller who comes before a
  call ends (`TwoTrialsExactlyWhenJoined`, `OneTrialExactlyWhenNoOverlap`, `ExactlyThisTrialFails`).
* A connection whose `autocommit` cannot be set after `getconn` stays out of its pool for good
  (`StrandsExactlyWhen`, `StrandedForGood`).
* A refused request is logged with its estimate, so one refusal ends the user's day (`RefusalEndsTheDay`).
* The evaluator's checks are not enough for the safety gate (`EvaluatorCoversGateExactlyWhen`), and the gate
  enforces two of the evaluator's eight: answers that fail one of the other six are released
  (`EvaluationAloneStopsNothing`).
* A comment in the gate says every cited authority must resolve; citations that are plain text are never
  looked up (`UnresolvedPassesExactlyWhenPlain`).
* Printed years lose leading zeros, so years below 1000 are not read back (`PrintThenRead`), and the
  reader accepts impossible dates (`ReadingIsDateExactlyWhen`).
* The reported token total may exceed the budget (`ReportedTokens`, `ReportedBoundIsReached`).
* The two endpoints that take answers differ on values and on a missing status
  (`EndpointsAgreeExactlyWhen`); overlapping applies can lose one another's values
  (`OverlappingAppliesLoseNothingExactlyWhen`).
* Re-ingesting a changed Act keeps the chunks of its old text (`CorpusIsCurrentExactlyWhen`), and the text
  that is hashed does not always tell two URLs apart (`UrlsCollideExactlyWhen`).

## Model

| member | source | states |
|---|---|---|
| PaymentTables.RenderedKeysAreDistinct | backend/api/payment_routes.py:92-131 | the three kinds of id in `stripe_event_id` never coincide as text while Stripe's own ids start with "evt_" |
| PaymentTables.Database.InsertEventRow | backend/api/payment_routes.py:92-131 | afterwards the id has a row, every row that was there is unchanged, and no other has come |
| PaymentTables.Database.CommitWebhookPayment | backend/api/payment_routes.py:516-587 | the last transaction of the canonical webhook: case update and event row together, or neither on a duplicate id or a fault, with the matching reply |
| PaymentTables.Database.ProcessLegacyWebhook | backend/api/main.py:4503-4576 | the deprecated webhook's transaction, event row and case update |
| PaymentTables.Database.StorePaymentSession | backend/api/payment_routes.py:134-185 | the session is stored as given and has a "created" event; cases, documents, other sessions and all earlier events are untouched |
| PaymentTables.Database.ConfirmTestPayment | backend/api/payment_routes.py:188-252 | the refusals outside test mode and of ids that are not cs_test_, and otherwise the session, case and event of a confirmed test session with its answer |
| PaymentTables.Database.RecordGeneratedDocument | backend/api/document_routes.py:370-424 | the row is inserted exactly when none exists; otherwise the answered id has no row |
| PaymentTables.Database.SaveBundleMetadata | backend/api/main.py:2556-2576 | one row per component, existing ids untouched |
| PaymentProtocol.StepKeeps | backend/api/payment_routes.py:188-587 | every transaction of every request keeps the invariant tying paid cases and sessions, events, documents and the requests in flight, and never takes away what the tables granted |
| PaymentProtocol.RunKeeps | backend/api/payment_routes.py:188-587 | the same along every interleaving |
| PaymentSafety.PaidIsNeverUndone | backend/api/payment_routes.py:517-578 | no action of any run takes a case out of "paid" or closes what a payment opened |
| PaymentSafety.EntitlementIsEvidenced | backend/core/payment.py:85-116 | whatever counts as paid in a reachable state has a committed "paid" event naming the case |
| PaymentSafety.RepeatedConfirmationChangesNothing | backend/api/payment_routes.py:188-252 | confirming a test session again, after any further actions, gives the same answer and changes no table |
| PaymentSafety.OwnedCasesAgreeOnPaid | backend/core/payment.py:85-116 | for a live case with an owner the case flag and is_case_paid agree in every reachable state; once soft-deleted, is_case_paid asks for a paid session |
| PaymentSafety.GeneratedDocumentsArePaidFor | backend/api/document_routes.py:283-424 | no document row of a reachable state belongs to an unpaid case, although check and insert are separate transactions |
| PaymentSafety.BundlePrecedesFlagExactlyWhenOwnerless | backend/api/main.py:2617-2669 | a bundle row for a live case whose flag is unset is reachable if and only if the case has no owner, and then by any user, with any test session id and any document ids |
| PaymentSafety.DownloadServesPaidDocuments | backend/api/document_routes.py:450-530 | the download gate serves a generated document to its user alone, and never asks for payment again while the case is live |
| PaymentSafety.SerialRequestsLeaveOneRow | backend/api/document_routes.py:370-424 | while no two requests for one document are past the lookup together, there is one row per case, user and type |
| PaymentSafety.TwoRowsExactlyWhenOverlapping | backend/api/document_routes.py:370-424 | from any state, inserts put two rows under one key if and only if two requests for it are past the lookup together |
| PaymentSafety.OverlappingRequestsLeaveTwoRows | backend/api/document_routes.py:283-424 | from any state, two new requests of an entitled user for a document that is not there can leave two rows |
| PaymentSafety.WebhooksAgreeExactlyWhen | backend/api/main.py:4536-4567 | the two webhooks leave the same tables if and only if the event is new and the live case is owned by the user in the metadata, or it is a duplicate and the repeated case update changes nothing |
| PaymentSafety.LegacyPaysAnyLiveCase | backend/api/main.py:4536-4567 | where the canonical webhook refuses another owner's case the deprecated one pays it |
| PaymentSafety.LegacyIgnoresDuplicatesExactlyWhen | backend/api/main.py:4536-4567 | a duplicate changes nothing if and only if the repeated case update would change nothing |
| PaymentSafety.DuplicateRelinksExactlyWhen | backend/api/main.py:4536-4567 | after two payments of one case, delivering the first again changes the tables if and only if they were of different sessions, and links the case back to the first |
| PaymentOwners.PaidCasesArePaidByTheirOwners | backend/api/payment_routes.py:517-578 | in every run in which the deprecated webhook updates no case of another owner, a paid owned case has a committed "paid" row in its owner's name |
| PaymentOwners.MismatchedDeliveryPays | backend/api/main.py:4536-4567 | from any state, a mismatched delivery unlocks its case, and every case has a paid row of its owner afterwards if and only if it had one before |
| WebhookConvergence.WebhooksConverge | backend/api/payment_routes.py:468-587 | every interleaving of duplicated, reordered, concurrent and failed deliveries that acknowledges all events ends with one row per applicable event and exactly the cases paid that an owner-matching event names |
| WebhookConvergence.RedeliveryIsAcknowledged | backend/api/payment_routes.py:468-587 | from any state an undisturbed redelivery is acknowledged |
| WebhookConvergence.LinkedSessionDependsOnOrder | backend/api/payment_routes.py:517-578 | two payments of one case give the same case row in both orders if and only if they name the same session |
| CircuitBreaker.Breaker.Admit | backend/core/circuit_breaker.py:71-78 | admitted exactly when the resolved state is not OPEN |
| CircuitBreaker.Breaker.RecordSuccess | backend/core/circuit_breaker.py:59-62 | the breaker is closed, and its fields are those of the whole history of critical sections with one success more |
| CircuitBreaker.Breaker.RecordFailure | backend/core/circuit_breaker.py:64-69 | closed while fewer than fail_max failures trail the last success, and from the fail_max-th on shut until exactly one reset timeout later |
| CircuitBreaker.Breaker.Perform | backend/core/circuit_breaker.py:71-84 | what a call adds to the history for each outcome; it is rejected only on an open breaker with at least fail_max trailing failures |
| CircuitBreaker.StateCountsTrailingFailures | backend/core/circuit_breaker.py:54-69 | for every interleaving, the count is the trailing run of failures, CLOSED exactly below fail_max, and the HALF_OPEN test in the failure handler is implied |
| BreakerOverlap.EveryCallerIsAdmitted | backend/core/circuit_breaker.py:71-78 | once the timeout is due, all n callers who come before a call ends are let through on one expiry |
| BreakerOverlap.ExactlyThisTrialFails | backend/core/circuit_breaker.py:75-78 | for every setting and every n >= 2, a run from a fresh breaker with n trials at once |
| BreakerOverlap.TwoTrialsExactlyWhenJoined | backend/core/circuit_breaker.py:48-84 | in any run, one expiry lets two trials through if and only if a call starts after a trial before any call has finished since |
| BreakerOverlap.OneTrialExactlyWhenNoOverlap | backend/core/circuit_breaker.py:48-84 | when no call is running where a call or a read of the state finds the timeout expired, there is one trial per expiry if and only if no call starts while a trial is running |
| CircuitBreaker.FailedTrialReopens | backend/core/circuit_breaker.py:64-78 | after a serial failed trial, admission resumes exactly at the reset timeout |
| CircuitBreaker.LoadBound | backend/core/circuit_breaker.py:54-84 | serial callers on a failing dependency are admitted at most fail_max + floor(T / R) times in any window of length T |
| CircuitBreaker.BoundIsReached | backend/core/circuit_breaker.py:54-84 | that bound is attained for every number of timeouts |
| BreakerLoad.ConcurrentLoadBound | backend/core/circuit_breaker.py:54-84 | with at most k callers at a time on a failing dependency, at most fail_max + k - 1 + k * floor(T / R) calls are admitted in a window of length T from a fresh breaker |
| BreakerLoad.ConcurrentBoundIsReached | backend/core/circuit_breaker.py:54-84 | for every fail_max, every k and every number of timeouts a run attains that bound |
| ConnectionPool.RunKeeps | ingestion/db.py:67-174 | every interleaving of borrowers keeps the pool invariant: holders, idle and used connections, transactions |
| ConnectionPool.IdleConnectionsAreClean | ingestion/db.py:84-105 | an idle connection has no open transaction, nothing pending and autocommit off |
| ConnectionPool.OneHolderEach | ingestion/db.py:124-146 | a connection has at most one unreturned proxy, and then is idle in no pool |
| ConnectionPool.NoBorrowedCommits | ingestion/db.py:84-105 | no write is ever committed by another borrower than its own |
| ConnectionPool.ClosingTwiceIsClosingOnce | ingestion/db.py:84-87 | a second close changes nothing |
| PoolStranding.UsedIsHeldPlusStranded | ingestion/db.py:124-146 | an open pool's used connections are exactly those held and those stranded |
| PoolStranding.StrandsExactlyWhen | ingestion/db.py:134-146 | a call strands a connection if and only if setting autocommit raises and the pool had one to hand out |
| PoolStranding.FirstCallStrands | ingestion/db.py:134-146 | from a fresh process the first such call leaves connection 0 used by nobody |
| PoolStranding.StrandedForGood | ingestion/db.py:134-146 | a stranded connection never returns to its open pool |
| PoolStranding.StrandingShrinksThePool | ingestion/db.py:134-146 | held, stranded and idle connections together stay within the maximum |
| ConnectionPool.GetConnectionHandsOutCleanly | ingestion/db.py:124-146 | a new borrower gets a connection outside any transaction with autocommit off |
| ConnectionPool.TransactionIsAllOrNothing | ingestion/db.py:162-174 | the body's writes persist, in order, exactly when body and commit succeed; the proxy is returned either way |
| TransactionInterleaving.InterleavedTransactionIsAllOrNothing | ingestion/db.py:162-174 | with any other borrowers' actions, severed connections and pool closings between its statements, a block's writes are committed all and in order exactly when its commit came through on a live connection, else none |
| ConnectionPool.Process.CloseProxy | ingestion/db.py:84-105 | the whole state after close() |
| ConnectionPool.Process.Connect | ingestion/db.py:124-146 | the new proxy is the last, unreturned, on a connection outside any transaction with autocommit off; nothing is committed and the invariant kept |
| ConnectionPool.Process.CloseAll | ingestion/db.py:149-158 | no pool is left open or with idle connections, and the newest pool's borrowers hold dead connections |
| ConnectionPool.Process.RunTransaction | ingestion/db.py:162-174 | the whole state after a transaction block |
| CostGovernor.Log.GetDailyUsage | backend/core/cost_governor.py:94-112 | the user's logged total, 0 for an anonymous user or a failing read |
| CostGovernor.Log.WriteLog | backend/core/cost_governor.py:115-134 | every user's total grows by the row's estimate if the row is theirs and the write succeeds, and otherwise not at all |
| CostGovernor.Log.Check | backend/core/cost_governor.py:51-73 | the decision on what was read, and the row it leaves |
| CostGovernor.BudgetBound | backend/core/cost_governor.py:51-134 | with at most k checks in flight, grants stay within the budget plus what is in flight and what log faults lost |
| CostGovernor.DailyLimitHolds | backend/core/cost_governor.py:51-134 | with a working log a day's grants never exceed the daily limit by more than k - 1 maximal estimates, and not at all when serial |
| CostGovernor.BoundIsReached | backend/core/cost_governor.py:51-134 | for every daily limit that is a positive multiple of the largest estimate and every k, a day without faults attains that bound |
| CostGovernor.RefusalsPersist | backend/core/cost_governor.py:51-73 | after a refusal every equal or larger request that day is refused, under any interleaving |
| CostGovernor.RefusalEndsTheDay | backend/core/cost_governor.py:115-134 | once the refusal is logged every request that day is refused, however small |
| Evaluator.EvaluateAssessment | backend/core/evaluator.py:61-216 | passed exactly when all eight checks pass, exactly when no failure is listed; the counts by severity; one failure per failing check, two for advice of both kinds |
| Evaluator.FindBlockedPhrases | backend/core/evaluator.py:133-154 | phrases are found exactly when one occurs in the lower-cased text |
| SafetyGate.RunSafetyChecks | backend/core/brain.py:162-267 | blocked exactly when the assessment is unsafe, passed exactly when not blocked; a jurisdiction failure is listed but does not block |
| SafetyGate.GateSubsumesEvaluator | backend/core/brain.py:149-267 | what the gate lets through passes the evaluator's advice check, and its deadline check on mappings |
| SafetyGate.EvaluatorCoversGateExactlyWhen | backend/core/brain.py:149-267 | a draft that passes the evaluation passes the gate if and only if no gate phrase reaches into the weaknesses, none of the gate's own two phrases occurs before them, a deadline under the other key comes from the rules, and the critic passes |
| SafetyGate.UnresolvedPassesExactlyWhenPlain | backend/core/brain.py:234-258 | a draft whose citations the critic rejects, otherwise safe, passes the gate if and only if all its citations are plain text |
| SafetyGate.WeaknessesAreLeftToTheGate | backend/core/evaluator.py:133-154 | whatever the weaknesses promise, the evaluation is the same and the gate blocks |
| SafetyGate.OtherDeadlineIsLeftToTheGate | backend/core/evaluator.py:121-131 | so for a deadline under the other key that does not come from the rules |
| SafetyGate.EvaluatorDoesNotSubsumeGate | backend/core/evaluator.py:121-154 | one draft of each kind that passes the whole evaluation and is blocked |
| Brain.BrainTrace.RecordStep | backend/core/brain.py:473-479 | appends one step, and keeps the trace on the pipeline's track |
| Brain.DetectContext | backend/core/brain.py:566-670 | the injection guard and steps 1 to 6, with their exits |
| Brain.VerifyAndBudget | backend/core/brain.py:800-873 | orchestration, verification and the cost governor; it stops exactly when the governor blocks |
| Brain.Conclude | backend/core/brain.py:971-1159 | safety gate, verdict, memory, audit and outbox, with the trace completed |
| Brain.RunBrain | backend/core/brain.py:516-1159 | for every answer of every oracle: how the run ends, the answer released, what is remembered, how far the trace got; the verdict is "pass" if and only if an answer was released that passed its evaluation, has status ok and rests on verified citations alone |
| Brain.TraceIsComplete | backend/core/brain.py:566-1144 | a returning run's trace filtered to the nineteen steps is a prefix without repeats, and whole if and only if neither the injection guard nor the cost governor ended it |
| Brain.ReleasedAnswersAreSafe | backend/core/brain.py:971-1032 | a released answer passes the evaluator's advice check and, on mappings, its deadline check |
| BrainRelease.EvaluationAloneStopsNothing | backend/core/brain.py:954-1032 | an answered run can fail a given check of the evaluation if and only if the check is not the deadline's source or the advice language, and then it can fail that check alone |
| BrainRelease.VerifierStopsNothing | backend/core/brain.py:954-1032 | how a run ends does not depend on the citation verifier, yet when it says no every released answer with citations fails the evaluation, whatever was requested, unless its deadline makes the evaluation raise |
| BrainRelease.RejectedCitationsAreReleasedExactlyWhenPlain | backend/core/brain.py:234-258 | an answered run is answered with the critic's refusal too if and only if all citations of its draft are plain text |
| Calendar.BeforeIsSmallerOrdinal | backend/core/employment_assessment.py:134-138 | calendar order is the order of day numbers |
| Calendar.DayBeforeIsOneLess | backend/core/employment_assessment.py:134-138 | one day less is a valid date one lower, except before year 1 |
| Calendar.AddMonthsLands | backend/core/employment_assessment.py:134-138 | adding months lands in the right month, on the same day or clamped to the month's end |
| Deadlines.DeadlineBounds | backend/core/employment_assessment.py:134-138 | the limitation date of m months lies 28m - 1 to 31m - 1 days after the event, for every date |
| Deadlines.BoundsAreMet | backend/core/employment_assessment.py:210-214 | for one month both bounds are attained |
| Deadlines.ThreeMonthsLessADay | backend/core/employment_assessment.py:134-138 | the three-month limit lies 88 to 91 days after the event, for every date |
| Deadlines.ThreeMonthExtremes | backend/core/employment_assessment.py:134-138 | both are attained |
| Deadlines.DeadlineIsMonotone | backend/core/employment_assessment.py:276-280 | a later event never has an earlier limitation date |
| Deadlines.DeadlinesCoincideExactlyByClamping | backend/core/employment_assessment.py:350-354 | two events share a limitation date if and only if both are clamped to the end of one month |
| IsoText.ParsePrint | backend/core/employment_assessment.py:593-599 | parsing the ISO text of a date gives the date |
| IsoText.PrintParse | backend/core/documents.py:92-100 | a text that parses is the ISO text of its date |
| IsoText.StringOrderIsDateOrder | backend/core/employment_assessment.py:598-599 | for years 1 to 9999 the order of the texts is the order of the dates |
| FlexibleWorking.DecisionTiming | backend/core/employment_assessment.py:589-599 | the due date, and late exactly when the decision's day number is greater |
| FlexibleWorking.Assess | backend/core/employment_assessment.py:569-612 | eligibility, breaches in order, viability, and the two error outcomes |
| FlexibleWorking.LatenessInDays | backend/core/employment_assessment.py:593-599 | a decision within 28m - 1 days is never late, one after more than 31m - 1 always is |
| Awards.RedundancyWeeks | backend/core/employment_assessment.py:379-387 | the per-year loop gives the closed form: clamped counts of years at 41 and over, 22 to 40 and under 22 |
| Awards.RedundancyPayment | backend/core/employment_assessment.py:356-388 | not qualified exactly below the qualifying period; otherwise counted years and weeks times capped pay |
| Awards.PaymentIsMonotone | backend/core/employment_assessment.py:377-388 | older, longer-serving or better paid never means less, for ordered multipliers |
| Awards.BandsNeverExceedOneMultiplier | backend/core/employment_assessment.py:379-387 | n banded years make at most n times the last multiplier, with equality if and only if all lie in one band |
| Awards.RedundancyIsAtMostBasic | backend/core/employment_assessment.py:160-163 | on equal years and capped pay the redundancy payment is at most the basic award before its floor, and exactly when they are equal |
| DateText.ScanIsMatch | backend/core/document_extractor.py:32-42 | the scanner captures groups at a place if and only if the expression matches there with those groups |
| DateText.SearchFinds | backend/core/document_extractor.py:54-55 | the search finds the leftmost match, and none if and only if there is none |
| DateText.NormaliseDate | backend/core/document_extractor.py:51-71 | the pattern loop computes the reading of the first pattern that matches |
| DateRoundTrip.PrintThenRead | backend/core/documents.py:92-100 | reading the printed form of an ISO date gives it back, except that years below 1000 are not read |
| DateRoundTrip.ReadingIsIdempotent | backend/core/document_extractor.py:51-71 | reading a reading changes nothing, for every accepted text |
| DateRoundTrip.ResultsAreIsoTexts | backend/core/document_extractor.py:51-71 | the readings are exactly the texts of shape dddd-dd-dd |
| DateRoundTrip.NumericIsRead | backend/core/document_extractor.py:41-66 | every text of the numeric pattern is read day first |
| DateRoundTrip.NumericDatesAreRead | backend/core/document_extractor.py:41-66 | every date in day, month, year digits with any separator is read as that date |
| DateRoundTrip.ReadingIsDateExactlyWhen | backend/core/document_extractor.py:51-71 | for every text that is read, the reading is a date if and only if the captured day exists in the calendar, and then that day |
| DateRoundTrip.NumericReadingIsDateExactlyWhen | backend/core/document_extractor.py:41-66 | every numeric text is read, as a date if and only if its day exists |
| DateRoundTrip.ImpossibleDatesAreRead | backend/core/document_extractor.py:51-71 | 99/99/2025 is read as 2025-99-99, which is no date |
| StableSort.SortIsTheStableSort | backend/core/bundle.py:297-300 | a list is sorted, of the same length and keeps the order of ties if and only if it is the model's sort |
| Chronology.ListEvents | backend/core/bundle.py:268-288 | the events and placeholders listed, in the code's order |
| Chronology.GenerateChronology | backend/core/bundle.py:256-301 | exactly the events that belong, each as often as listed; dated ones in date order, bracketed ones after them |
| Chronology.EarlierIsSmallerRank | backend/core/bundle.py:291-296 | the string key orders events by day, texts that are no date first |
| Chronology.ChronologyIsPermutation | backend/core/bundle.py:290-301 | no event is lost, added or repeated |
| Chronology.ChronologyIsInOrder | backend/core/bundle.py:290-301 | dated events in date order with ties as listed; bracketed events last, as listed |
| Chronology.ShownExactlyWhatBelongs | backend/core/bundle.py:268-288 | an event is shown if and only if its heading calls for exactly that recorded date or, where none is recorded, that placeholder: no date is invented |
| ContextPacker.Compress | backend/api/main.py:3915-3945 | what is kept and every figure of the report |
| ContextPacker.KeptCitesAreDistinct | backend/api/main.py:3917-3923 | kept items come from the bundle under pairwise different, non-empty cites |
| ContextPacker.KeptFallInTrust | backend/api/main.py:3925-3926 | kept items come in falling trust |
| ContextPacker.BudgetIsKept | backend/api/main.py:3933-3939 | the budgeted size is within a non-negative budget; a negative one keeps nothing |
| ContextPacker.NoDroppedItemFits | backend/api/main.py:3933-3939 | no dropped item would fit beside what was kept |
| ContextPacker.ReportedTokens | backend/api/main.py:3941-3941 | the reported total is at most the budget plus floor(3n / 4) for n kept items |
| ContextPacker.ReportedBoundIsReached | backend/api/main.py:3941-3941 | for every budget and every positive n that bound is attained |
| ContextPacker.CitationsPreservedExactlyWhenNothingDropped | backend/api/main.py:3942-3945 | the flag is set if and only if nothing was dropped after deduplication |
| Facts.UpdateExtractedFacts | backend/api/main.py:2416-2426 | PATCH answers fact by fact: only valid statuses, values only as corrections |
| Facts.ConfirmUploadFacts | backend/api/upload_routes.py:444-456 | the upload route's answers: silence confirms, values always override |
| Facts.EndpointsAgreeExactlyWhen | backend/api/upload_routes.py:444-456 | the two endpoints agree on a request with entries if and only if every entry means the same to both |
| Facts.ApplyConfirmedToKeyDates | backend/core/extraction.py:123-141 | the merged key_dates and the fields applied |
| Facts.AppliedAt | backend/core/extraction.py:123-141 | entry by entry: safe, accepted, non-empty facts override, all else stays |
| Facts.PersonalDataStays | backend/core/extraction.py:46-60 | names of employer and employee are never applied |
| Facts.ApplyingAgainChangesNothing | backend/core/extraction.py:123-141 | applying is idempotent |
| Facts.OverlappingAppliesLoseNothingExactlyWhen | backend/api/main.py:2474-2494 | of two applies that read the same key_dates the first survives if and only if its values were there or are applied by the second |
| Facts.GetConfirmedFacts | backend/core/bundle.py:70-88 | exactly the usable fields, each with the value of the last upload providing it |
| FactRuns.RunKeeps | backend/api/upload_routes.py:427-470 | every interleaving of the four endpoints keeps key_dates, and all that requests in flight hold, within what the facts carried |
| FactRuns.OnlySafeFieldsChange | backend/core/extraction.py:46-60 | no run changes an entry of key_dates other than extracted_<safe field> |
| FactRuns.PersonalDataStaysOut | backend/core/extraction.py:57-60 | no run brings in a personal-data field |
| FactRuns.AppliedValuesAreEvidenced | backend/api/main.py:2474-2494 | every value a run leaves was there before or was a confirmed or corrected fact's value when an earlier apply of that case read it |
| FactRuns.ReapplyingIsNoOp | backend/api/main.py:2474-2494 | a second apply without updates leaves the whole state unchanged |
| Text.StripIsMiddle | scripts/a7_ingest_statutes.py:118-118 | stripping removes exactly the white space at the ends |
| ChunkKeys.PieceAt | scripts/a7_ingest_statutes.py:121-121 | the k-th chunk is the k-th slice |
| ChunkKeys.ChunksJoin | scripts/a7_ingest_statutes.py:117-121 | chunks concatenate to the stripped body and have 1 to 800 characters |
| ChunkKeys.ChunksOfOneUrlDiffer | scripts/a7_ingest_statutes.py:124-125 | under one URL the hashed texts agree if and only if index and body do |
| ChunkKeys.ChunksAreTheHashableTexts | scripts/a7_ingest_statutes.py:117-121 | which bodies can stand at an index: 1 to 800 characters, not starting with white space at 0, not ending with it when shorter than 800 |
| ChunkKeys.ChunksContinue | scripts/a7_ingest_statutes.py:117-121 | a changed text keeps every chunk if and only if it is the same, or was only added to at a chunk boundary |
| ChunkKeys.UrlsCollideExactlyWhen | scripts/a7_ingest_statutes.py:124-125 | chunks of two URLs can share a hashed text if and only if one URL goes on after the other with a colon and a number, leaving at most 796 characters |
| ChunkKeys.PortCollides | scripts/a7_ingest_statutes.py:124-125 | such a pair: any URL and the same one with a port |
| Ingestion.Session.UpsertRows | scripts/a7_ingest_statutes.py:375-410 | phase 1: all rows, or a multiple of fifty when the process dies |
| Ingestion.Session.FindPending | scripts/a7_ingest_statutes.py:413-425 | the pending chunks are exactly those not stored |
| Ingestion.Session.EmbedPending | scripts/a7_ingest_statutes.py:433-467 | some pending chunks are stored, all of them if every embedding succeeds; the count is the growth of the table |
| Ingestion.Session.IngestAct | scripts/a7_ingest_statutes.py:347-473 | what a run leaves wherever it dies, and what it leaves and reports when it ends |
| Ingestion.AttemptTouches | scripts/a7_ingest_statutes.py:347-473 | a run, however it ends, only changes these sections' rows, loses nothing and adds only these sections' chunks |
| Ingestion.RestartsConverge | scripts/a7_ingest_statutes.py:347-473 | crashed and failed runs one after another, followed by one clean run, leave the rows and chunks of one clean run |
| IngestionOverlap.OverlappingRunsConverge | scripts/a7_ingest_statutes.py:347-473 | so do any number of runs interleaved commit by commit and lookup by lookup |
| IngestionOverlap.CompleteRunSettles | scripts/a7_ingest_statutes.py:347-473 | once any run has ended without a failed embedding, whatever ran beside it, all chunks are stored, and with one section for each URL the tables are those of one clean run |
| Ingestion.CleanIsStable | scripts/a7_ingest_statutes.py:347-473 | repeating a clean run changes nothing |
| Reingestion.CorpusIsCurrentExactlyWhen | scripts/a7_ingest_statutes.py:412-465 | with one new section for each URL and URLs that do not collide, re-ingesting gives the corpus of the new XML alone if and only if every old section was blank, or is still there and its text is the same or was only added to at a chunk boundary |
| Reingestion.ChangedLetterLeavesStaleChunk | scripts/a7_ingest_statutes.py:441-465 | one changed letter leaves a stale chunk |

## Left out

* HTTP routing, authentication, rate limits, logging, telemetry and audit rows; a user is an id.
* Amounts, currencies, receipts and raw event bodies of payments. Only the test confirmation asks for the
  payment mode; all other endpoints act at once, which allows more interleavings than any one mode.
* `record_payment` and `handle_stripe_webhook` of `backend/core/payment.py` also set the paid status of a case,
  without an event row. No route calls them, so "paid is evidenced" is about the routes.
* SQL itself: transactions are atomic steps with commit or rollback, unique keys are map keys, a malformed
  UUID is a transaction fault. Hard deletes are not part of the model; `payment_events` exists.
* Stripe: its answer is part of an action; session ids are fresh and metadata is fixed per session. Stripe
  event ids start with "evt_".
* An empty id stands for an absent one, also for the NULL user of a bundle row.
* Redis, KMS, Fernet, Ollama, PDF and DOCX libraries; the embedding is an oracle.
* The text of refusals, rules, agents and retrieval in the brain: oracles that may raise.
* Lower-casing, white space, digits and word characters beyond ASCII.
* `fromisoformat` on other forms than YYYY-MM-DD, and times of day.
* Errors from JSON values of an unexpected type (a cite that is no text, a trust score or a count that is no
  number), and the checks that all rules of a claim are present.
* Rounding to pence and binary floating point: money and years are reals.
* psycopg2 beyond a small specification: it keeps up to `minconn` idle connections, hands out up to `maxconn`,
  opens none in advance, and a commit that raises persists nothing. A proxy is not used after its close.
* Row locks of the fact endpoints (`FOR UPDATE`): their interleavings are a superset of what the locks allow,
  so the safety statements hold with them.
* SHA-256 is taken to be free of collisions. Titles and timestamps of ingested rows; case law and ACAS pages.
* Other claim handlers, the award's floor and compensatory cap, templates, caches, encryption, conflict
  detection and citation checking: each is a table or a formula read off one body.
