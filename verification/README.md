# Afirmativo: a verified model of the interview engine and its services

The repository runs timed, multi-area interviews. A session answers questions one *turn* at a time; every turn is
identified by a turn id, planned in Go from an unlocked snapshot and committed by one database transaction that compares
and swaps the expected turn id. Answers arrive through a durable job queue whose workers may crash, be late or deliver a
job twice. Around the engine sit paid checkouts and coupons, two rate limiters, and a normaliser for AI response schemas.
This project models those parts and proves what the design promises about them.

## How the model is built

- `Text.dfy`, `AreaConfig.dfy`, `Timing.dfy`: trimming and case folding, validation of configured areas and the matching of area names, seconds as the service and as the database count them
- `TurnPolicy.dfy`: the decision on one answer, the projected areas, the choice of the next area
- `TurnStore.dfy`: the rows of a session and every statement and transaction on them, as a class whose methods change its fields and roll back
- `TurnMachine.dfy`, `TurnSafety.dfy`, `TurnTheorems.dfy`: one session under arbitrary interleaving, its invariant, and the promises
- `TurnLaws.dfy`, `TurnProgress.dfy`: what one step does to the rows, said on the rows; how a delivery and a start that nothing interrupts end, from every reachable state
- `TurnCoherence.dfy`, `TurnWitness.dfy`: when a committed question names the area in progress, and a run in which it does not
- `AnswerQueue.dfy`, `QueueLaws.dfy`, `AsyncSystem.dfy`: the job table as a class and as a machine of workers; what each statement does to a row and how long a claimed job is left alone; the interview driven only through that queue
- `ClientOutbox.dfy`, `EndToEnd.dfy`: the browser's stored submission, its resends and polling; browser, queue and interview together
- `PaymentStore.dfy`, `PaymentSafety.dfy`, `PaymentTheorems.dfy`, `PaymentLaws.dfy`: payment, session and coupon rows as a class; webhooks, polls and claims in any order; the promises; what each step does to a row, and that paid checkouts are delivered
- `TokenBucket.dfy`, `Lockout.dfy`, `LockoutLaws.dfy`: the two limiters, and exactly which calls they refuse
- `Schema.dfy`, `SchemaMeaning.dfy`, `SchemaFidelity.dfy`: the schema normaliser; what schemas mean before and after it; exactly when values are lost, gained, or neither

Concurrency is modelled by machines whose steps are single SQL statements or whole transactions. The unlocked reads of a
turn are four separate earlier steps; session starts and the statements of a timeout are separate steps as well, and the
theorems need neither to be atomic, with one exception: that a criterion question is about the area in progress.
`TurnCoherence.NamesOpenAreaIff` gives the exact condition, which atomic timeouts meet
(`TurnCoherence.AtomicTimeoutsNameOpenAreas`) and other runs need not (`TurnWitness.SkippedAreaCanBeNamed`). A process that
takes no further step has crashed. An AI call may return anything or fail; a fresh turn id is any non-blank id not drawn or
named before; a Stripe event, once its signature is checked, refers to the payment its checkout was created for.

`Module.Inv` predicates describe reachable states, `RunKeepsInv` lemmas show that every run stays inside them, and the
main results are stated over every run (`Runnable`, `After`). Classes are tied to the machines by shared specification
functions: `TurnStore.Commit`, `AnswerQueue.ClaimedRow`, `PaymentStore.ResolveScope` and others are both what a method's
`ensures` equates the new state with and what a machine step applies.

Where the code and its intent differ, the model follows the code:

- An area flagged twice in one evaluation keeps its first evidence in the database and its last in memory, and evidence of
  white space alone is stored as none: `TurnStore.EvidenceAgreesIff` and `TurnStore.FlaggedOnceAgreesIff` say exactly when
  the two agree, `TurnStore.RepeatedFlagDiffers` and `TurnStore.BlankEvidenceDiffers` show cases where they do not.
- A delivery that read its areas before an interrupted timeout marked the next one still commits a question about it
  (`TurnWitness.SkippedAreaCanBeNamed`).
- Terminal marks on jobs are unguarded, so a finished job can change from one terminal status to another
  (`AnswerQueue.FinishedStatusCanChange`). `AnswerQueue.FinishedStatusChangesIff` and `AnswerQueue.FinishedStatusFixedIff`
  say exactly when it does; it never leaves the terminal set (`AnswerQueue.JobsOnlyAdvance`).
- The webhook logs the payment status of a completed checkout and does not decide on it, so an event here has none:
  `PaymentTheorems.NoFulfilmentWithoutPayment` promises a completed checkout of the payment's own with matching terms, not
  that Stripe had collected the money.
- The seven type names spelled out by the schema normaliser add nothing to upper-casing (`Schema.TypeIsUpperCased`).
- Normalising a schema can widen it in three ways: `additionalProperties` is dropped
  (`SchemaFidelity.RestrictionsAreDropped`), `nullable`, which JSON Schema does not know, takes effect
  (`SchemaFidelity.NullableTakesEffect`), and a type list that names nothing besides null is dropped
  (`SchemaFidelity.NullAloneIsDropped`). It can also lose values, because only the first of several types is kept
  (`SchemaFidelity.SecondTypeIsLost`). `SchemaFidelity.LosesNothingIff`, `SchemaFidelity.GainsNothingIff` and
  `SchemaFidelity.MeaningIsKeptIff` give the conditions on the schema under which each does not happen, in both directions.

## Model

| member | source | states |
|---|---|---|
| `AreaConfigs.ValidateAreaConfigs` | backend/internal/config/config.go:628-656 | accepts exactly the non-empty lists with positive distinct ids, non-blank slugs distinct after trimming and case folding, and a midpoint inside the list |
| `AreaConfigs.ValidAreasFoldDistinct` | backend/internal/config/config.go:636-654 | validated slugs differ even when compared untrimmed and ignoring case, as the database compares them |
| `AreaConfigs.FindNamed` | backend/internal/interview/service_turn_context.go:102-110 | finds the first area whose slug or label is the name ignoring case, and nothing before it matches |
| `AreaConfigs.ExtractPreAddressed` | backend/internal/interview/service_turn_context.go:125-139 | the loop collects, in order, one flag per criterion whose name matches a configured area |
| `AreaConfigs.OneMoreFlag` | backend/internal/interview/service_turn_context.go:102-139 | each further item raises one flag, its own evidence on the first area whose slug or label it names ignoring case, and none if there is no such area |
| `AreaConfigs.ExtractedFlagsAreConfigured` | backend/internal/interview/service_turn_context.go:102-139 | every extracted flag carries a slug exactly as configured |
| `TurnPolicy.Judge` | backend/internal/interview/service_turn_criterion_helpers.go:72-104 | the evaluation used always judges the criterion asked about, whatever the AI returned |
| `TurnPolicy.SelectionIsFirstOpen` | backend/internal/interview/domain.go:137-148 | the selected area is the first open one in configured order, and nothing is selected exactly when none is open |
| `TurnPolicy.DetermineNextAreaAfterCriterionTurn` | backend/internal/interview/domain.go:150-180 | the loops over areas and flags compute the specified next area |
| `TurnPolicy.FlagsDoNotSteer` | backend/internal/interview/domain.go:165-179 | flags on other areas never change which area comes next |
| `TurnPolicy.ProjectAreasForNextAreaOpening` | backend/internal/interview/service_turn_policy.go:67-100 | the in-place projection counts and closes the current area and flags pending ones with the last evidence given |
| `TurnPolicy.DoubleApplicationIsHarmless` | backend/internal/interview/service_turn_criterion_helpers.go:106-129 | the next area computed on already projected areas is the one computed on the raw areas, for every list, flags and decision |
| `TurnPolicy.ListingDenotesTable` | backend/internal/interview/service_turn_policy.go:67-100 | projecting a listing and projecting the table it lists agree |
| `TurnPolicy.PlannedAreaReadsTable` | backend/internal/interview/service_turn_criterion_helpers.go:106-149 | the planned next area depends only on the area table, not on the order rows are listed in |
| `Timing.ChargeIsLiveOrOneMore` | backend/internal/interview/service_timing.go:25-41 | the rounded SQL charge is the truncated live time or one second more |
| `Timing.AdmittedTurnFits` | backend/internal/interview/service_timing.go:16-23 | a turn admitted with time left cannot overrun the budget when charged |
| `TurnStore.PostgresStore.ProcessCriterionTurn` | backend/internal/interview/postgres_criterion.go:13-58 | outcome and all rows are those of one atomic commit; any failing step restores every row |
| `TurnStore.PostgresStore.MoveAreas` | backend/internal/interview/postgres_criterion.go:136-215 | count, close, flag and promote together give the committed area table, and fail exactly when the current area has no row |
| `TurnStore.PostgresStore.UpdateLapsedSeconds` | backend/internal/interview/postgres_criterion.go:117-134 | adds the clamped rounded seconds since the question was issued, nothing without an active question |
| `TurnStore.PostgresStore.ApplyPreAddressed` | backend/internal/interview/postgres_criterion.go:178-197 | the loop of guarded updates flags each pending area matched ignoring case with its first flag's evidence |
| `TurnStore.PostgresStore.PromoteNextArea` | backend/internal/interview/postgres_criterion.go:199-215 | only an open next area is promoted, only when moving on |
| `TurnStore.PostgresStore.PersistFlowState` | backend/internal/interview/postgres_criterion.go:217-258 | installs the next turn or ends the flow; a non-positive question number changes nothing |
| `TurnStore.PostgresStore.AdvanceNonCriterionStep` | backend/internal/interview/postgres_flow.go:64-119 | compare-and-swap of a disclaimer or readiness turn with its event, all or nothing |
| `TurnStore.IssuedTurnAlone` | backend/internal/interview/postgres_flow.go:44-61 | a question issued outside a commit reads back as issued under the old number, and no sequence of submissions of other turns changes a row after it |
| `TurnStore.NoSubmissionAfterDone` | backend/internal/interview/postgres_flow.go:122-140 | once the flow is done, no sequence of submissions that name a turn changes a row |
| `TurnStore.StartEstablishes` | backend/internal/interview/service_start_helpers.go:75-103 | a start makes a pending row for each configured area that has none, enters the first if it is open, and touches no other row |
| `TurnStore.RestartChangesNothing` | backend/internal/interview/service_start_helpers.go:75-103 | starting again changes no area, whatever has happened to the areas since |
| `TurnStore.StartIsIdempotent` | backend/internal/interview/service_start_helpers.go:75-103 | on any areas, starting twice leaves them as starting once |
| `TurnStore.FirstStatementWins` | backend/internal/sqlgen/interview.sql.go:196-282 | in any sequence of creating, entering and skipping statements an open area ends where the first statement to move it put it; rows not open or not named keep every column |
| `TurnStore.StatementsCompose` | backend/internal/interview/postgres_criterion.go:136-215 | the statements run one after the other give each row its committed value |
| `TurnStore.SameAreasFlagged` | backend/internal/interview/postgres_criterion.go:178-197 | exact matching in memory and LOWER() matching in SQL flag the same areas |
| `TurnStore.PlanRefinesCommit` | backend/internal/interview/service_turn_policy.go:67-100 | the committed table is the projected table with the chosen area promoted; only evidence of a newly flagged area may differ |
| `TurnStore.EvidenceAgreesIff` | backend/internal/interview/postgres_criterion.go:178-197 | of a newly flagged area: stored and projected evidence agree exactly when its last flag repeats the text of its first, or is empty after a first that was blank |
| `TurnStore.FlaggedOnceAgreesIff` | backend/internal/interview/postgres_criterion.go:178-197 | of an area flagged once: they agree exactly when its evidence is empty or not blank |
| `TurnStore.UnflaggedAgrees` | backend/internal/interview/postgres_criterion.go:178-197 | of an area no flag names, or that is not pending: they agree |
| `TurnStore.RepeatedFlagDiffers` | backend/internal/interview/postgres_criterion.go:178-197 | two flags on one area: the database keeps the first, memory the last |
| `TurnStore.BlankEvidenceDiffers` | backend/internal/interview/postgres_criterion.go:178-197 | one flag whose evidence is a space: stored as nothing, projected as a space |
| `TurnSafety.CommitIsReady` | backend/internal/interview/service_snapshot.go:27-81 | when the compare-and-swap succeeds, everything read before the lock is still true |
| `TurnSafety.CommitKeeps` | backend/internal/interview/postgres_criterion.go:13-58 | a committed answer keeps every invariant of the rows: budget, order, counts, flow pointer |
| `TurnSafety.StepKeepsInv` | backend/internal/interview/service.go:143-185 | every step of every delivery, start and timeout keeps the invariant |
| `TurnSafety.RunKeepsInv` | backend/internal/interview/service.go:143-185 | every run stays within the invariant |
| `TurnTheorems.ExactlyOnce` | backend/internal/interview/postgres_criterion.go:73-115 | each turn id has at most one answer; the answers are exactly the used criterion turns; an expected turn is unused |
| `TurnTheorems.BudgetNeverOverrun` | backend/internal/interview/service.go:168-173 | charged time never exceeds the budget, in every reachable state |
| `TurnTheorems.AnswersAreBounded` | backend/internal/interview/domain.go:265-265 | at most six answers per area; counts sum to the answers; an area in progress has at most five |
| `TurnTheorems.PotentialOnlyFalls` | backend/internal/interview/domain.go:113-133 | the questions left to ask strictly fall with each committed answer and never rise, so every interview ends |
| `TurnTheorems.CountsAreTallies` | backend/internal/interview/postgres_criterion.go:99-150 | each area's count is the number of answers stored for that area |
| `TurnTheorems.AreasAreTakenInOrder` | backend/internal/interview/domain.go:137-148 | at most one area in progress, all earlier ones closed, all later ones unvisited |
| `TurnTheorems.ExhaustionClosesEverything` | backend/internal/interview/postgres_criterion.go:217-258 | a commit that runs out of areas leaves every configured area closed |
| `TurnTheorems.FullCoverage` | backend/internal/interview/domain.go:150-180 | a run without timeouts that runs out of areas has judged every area complete or insufficient |
| `TurnTheorems.NoTimeoutNoneSkipped` | backend/internal/interview/service_finish.go:61-72 | only a timeout leaves an area not assessed |
| `TurnTheorems.FlowIsCoherent` | backend/internal/interview/postgres_flow.go:64-140 | a criterion step always carries a criterion question under its turn id about an area that is in progress or that a timeout has marked; the question number counts readiness acknowledgements and answers |
| `TurnCoherence.CommitNamesOpenIff` | backend/internal/interview/postgres_criterion.go:199-215 | the question a commit installs is about an area in progress exactly when the locked rows do not have that area marked |
| `TurnCoherence.NamesOpenAreaIff` | backend/internal/interview/postgres_criterion.go:199-258 | the question is about an area in progress throughout a run exactly when no commit of the run finds its next area marked |
| `TurnCoherence.CleanCommitsNameOpenAreas` | backend/internal/interview/service_snapshot.go:27-81 | that is so if no mark falls between a committing delivery's read of the areas and its commit |
| `TurnCoherence.AtomicTimeoutsNameOpenAreas` | backend/internal/interview/service_finish.go:61-72 | and if the marks of a timeout run on to the statement that closes the flow with nothing in between and no failure of it |
| `TurnWitness.SkippedAreaCanBeNamed` | backend/internal/interview/service_finish.go:61-72 | a run from the start, with a timeout that does not get to close the flow, whose last question is about an area marked not assessed |
| `TurnTheorems.CommittedPlanIsStored` | backend/internal/interview/service_turn_criterion_helpers.go:106-129 | in the running system the stored table is the planned one whenever no timeout marked an area since the snapshot |
| `TurnTheorems.DeliveredTurnIsInstalled` | backend/internal/interview/service_turn_criterion.go:9-52 | the turn id a delivery returns is the one its own commit installed |
| `TurnLaws.StoredIffExpected` | backend/internal/interview/postgres_criterion.go:13-58 | an admitted criterion answer is stored if and only if its turn is still the one expected; otherwise no row changes and the delivery ends in a conflict |
| `TurnLaws.AnswerIsCharged` | backend/internal/interview/postgres_criterion.go:117-134 | a stored answer adds to the charged time the whole number of seconds nearest the time from issue to submission, halves upwards, the limit beyond it and nothing for a negative time |
| `TurnLaws.LapsedIsTheSum` | backend/internal/interview/postgres_criterion.go:117-134 | over every run the charged time is the sum of such amounts, one for each stored answer, taken from the history of when its question was issued and it was submitted |
| `TurnLaws.TimeLeftIsExact` | backend/internal/interview/service_timing.go:16-41 | the seconds left are the budget less the time charged and the time the question has been open, in microseconds, rounded up |
| `TurnLaws.AdmittedIffTimeIsLeft` | backend/internal/interview/service.go:143-173 | a delivery of the expected turn is admitted exactly while that is positive, and times out exactly when it is not |
| `TurnLaws.AreaIsJudged` | backend/internal/interview/domain.go:113-133 | the area asked about becomes complete exactly on a sufficient reply, insufficient exactly when not sufficient and either told to move on or asked for the sixth time, and stays in progress otherwise; a missing or mismatched reply closes it exactly at the sixth question |
| `TurnLaws.AnswerIsStored` | backend/internal/interview/postgres_criterion.go:99-115 | the stored answer carries the turn, area, question, the text or placeholder in the one language used, and the status of the reply |
| `TurnLaws.NextQuestionIsAsked` | backend/internal/interview/postgres_criterion.go:217-258 | after a stored answer the same area is asked while it is in progress, else the first waiting one in configured order, from now until the limit, under the new turn id; the flow is done exactly when none waits |
| `TurnLaws.OtherAreasAreFlagged` | backend/internal/interview/postgres_criterion.go:178-215 | of the other areas a pending one takes its first flag with that evidence, the one moved on to is entered if it was waiting, and nothing else changes |
| `TurnLaws.AdvancesIffExpected` | backend/internal/interview/postgres_flow.go:64-119 | a disclaimer or readiness answer advances the flow, with its event and its question, if and only if its turn is still the one expected |
| `TurnProgress.AnswerIsReplied` | backend/internal/interview/service_turn_criterion.go:9-52 | from every reachable state that expects a criterion turn, with time left and an area in progress, an uninterrupted delivery is stored whatever the AI replies, and is handed the turn now expected or told that the interview is done |
| `TurnProgress.AcknowledgementIsReplied` | backend/internal/interview/service_turn_noncriterion.go:17-43 | the same for disclaimer and readiness turns: one event, the next step, and the turn now expected |
| `TurnProgress.TimeoutEndsTheInterview` | backend/internal/interview/service_finish.go:20-72 | with no time left an uninterrupted delivery skips exactly the waiting areas, closes the flow, stores and charges nothing, completes the session |
| `TurnProgress.NoAreaEndsTheInterview` | backend/internal/interview/service_finish.go:31-59 | with time left and no area in progress it completes the session and closes the flow exactly if that was at a criterion |
| `TurnProgress.OtherTurnConflicts` | backend/internal/interview/service.go:143-170 | a delivery of a blank turn or one not expected ends in a conflict and changes no row |
| `TurnProgress.FinishedFlowSaysDone` | backend/internal/interview/service.go:143-170 | a delivery to a finished flow completes the session and changes nothing else |
| `TurnProgress.StartGetsThrough` | backend/internal/interview/service_start.go:9-35 | from every reachable state without a question in force an uninterrupted start makes the missing areas, enters the first if it waits, and asks: the disclaimer if nothing has happened, else readiness, about the area in progress or else the first |
| `AnswerQueue.JobStore.UpsertAnswerJob` | backend/internal/interview/postgres_async.go:15-46 | creates a queued job or returns the existing one with its request untouched |
| `AnswerQueue.JobStore.ClaimQueuedAnswerJob` | backend/internal/interview/postgres_async.go:50-72 | claims a queued job and nothing else |
| `AnswerQueue.JobStore.ClaimNextQueuedAnswerJob` | backend/internal/interview/postgres_async.go:76-105 | claims an oldest unlocked queued job, or nothing exactly when there is none |
| `AnswerQueue.JobStore.RequeueStaleRunningAnswerJobs` | backend/internal/interview/postgres_async.go:108-124 | the rows running with a start before the cutoff go back to queued without a start, every other row stays, and the number of the former is returned |
| `AnswerQueue.MarkedForGood` | backend/internal/interview/postgres_async.go:149-198 | after a mark no run claims the job again, makes it wait again, restarts its clock or starts another delivery of it |
| `AnswerQueue.AttemptsAreTallied` | backend/internal/interview/postgres_async.go:50-243 | over every run a job's attempts are exactly its claims plus its recorded failed calls that were to be retried |
| `AnswerQueue.CallWithRetry` | backend/internal/interview/service_ai_retry.go:49-93 | at most three calls, the outcome told from the first answer or cut-short wait, and how many failures count as attempts |
| `AnswerQueue.RetryIsARun` | backend/internal/interview/service_ai_retry.go:49-93 | the loop is a run of call steps: unless aborted it takes its delivery to the next stage, with every call in the history and every counted failure on the job |
| `AnswerQueue.QStepKeepsInv` | backend/internal/interview/service_async_processor.go:29-71 | claims, calls, crashes, marks and requeues keep keys unique, rows well-shaped and deliveries distinct |
| `AnswerQueue.JobsOnlyAdvance` | backend/internal/interview/postgres_async.go:15-243 | over every run a request never changes, attempts never fall, a finished job stays finished |
| `AnswerQueue.FinishedStatusChangesIff` | backend/internal/interview/postgres_async.go:149-198 | a step changes the status of a finished job if and only if it is a mark by a worker still on the job that stores another status |
| `AnswerQueue.FinishedStatusFixedIff` | backend/internal/interview/postgres_async.go:149-198 | the status of a finished job is fixed over a run exactly when the run has no such mark |
| `AnswerQueue.FinishedStatusCanChange` | backend/internal/interview/postgres_async.go:149-198 | a run in which a job claimed again after a requeue succeeds by its first delivery and becomes a conflict by its second |
| `AnswerQueue.WorkIsBounded` | backend/internal/interview/service_async_processor.go:22-46 | a job has at most five deliveries, each of at most six AI calls in its two calling stages, thirty in all |
| `AnswerQueue.QueueIsShaped` | backend/internal/interview/postgres_async.go:50-124 | queued means not started, running means started |
| `AnswerQueue.NoJobIsStuck` | backend/internal/interview/service_async_runtime.go:89-104 | from every reachable state some continuation of at most three steps, none of them a channel hint, finishes any given job |
| `AnswerQueue.ClaimsAreAnswered` | backend/internal/interview/service_async_runtime.go:44-71 | in every run an unfinished job has been put back exactly as often as it was claimed, but for a claim still in hand |
| `AnswerQueue.LineDrains` | backend/internal/interview/service_async_runtime.go:44-71 | in any run during which a job waits, fallback claims made plus jobs still before it are at most the jobs that stood before it plus those that cut in |
| `AnswerQueue.FallbackDrainsTheQueue` | backend/internal/interview/service_async_runtime.go:44-71 | in any run with more fallback claims than jobs stood before this one, were put back by requeues or were submitted with no later time, the job has been taken or finished |
| `QueueLaws.RequeueTakesTheStale` | backend/internal/interview/postgres_async.go:108-124 | a requeue makes exactly the rows queued and unstarted that were running with a start before its cutoff, and leaves every other row alone |
| `QueueLaws.HeldUntilStale` | backend/internal/interview/postgres_async.go:108-124 | over runs: between a claim and its mark no requeue with a cutoff up to the claim time changes the row's status or start |
| `QueueLaws.StaleIsTaken` | backend/internal/interview/postgres_async.go:108-124 | a job claimed before the cutoff and not marked is put back by the requeue |
| `QueueLaws.ClaimStarts` | backend/internal/interview/postgres_async.go:50-72 | a claim starts the job at its own time and counts one attempt; the first five are delivered and any more refused |
| `QueueLaws.SubmissionIsStored` | backend/internal/interview/postgres_async.go:15-46 | a new key stores a queued, unstarted, untried job as sent; a known one changes only the last request id, if given |
| `QueueLaws.MarkIsStored` | backend/internal/interview/postgres_async.go:149-198 | a success stores its payload, a failure its status if that is failed, conflict or canceled, and failed otherwise; no other row changes |
| `QueueLaws.CallIsCounted` | backend/internal/interview/service_ai_retry.go:49-93 | a failed call that was recorded and is to be retried counts as an attempt of its job; any other call changes no job |
| `AsyncSystem.ReportIsTrue` | backend/internal/interview/service_async_processor.go:228-256 | the payload stored on success is what the commit of the job's own turn installed |
| `AsyncSystem.ReportIsStored` | backend/internal/interview/service_async_processor.go:228-256 | a report stores, on the job of its delivery alone, the next turn the delivery was handed, or that the interview is done |
| `AsyncSystem.TurnStepRecords` | backend/internal/interview/postgres_criterion.go:92-115 | only a commit stores an answer, and it is the one its delivery carries, in one language |
| `AsyncSystem.AStepKeepsInv` | backend/internal/interview/service_async_processor.go:29-71 | every step of queue and interview together keeps deliveries, answers and results traced to their jobs |
| `AsyncSystem.EachTurnIsAnsweredOnce` | backend/internal/interview/service_async_processor.go:29-71 | under duplicated, requeued and late jobs each turn has at most one answer, word for word one a job carried |
| `AsyncSystem.SucceededJobNamesItsSuccessor` | backend/internal/interview/service_async_api.go:76-127 | a job that succeeded without ending hands back the turn installed by the commit that used up its own, the same for all jobs of that turn |
| `ClientOutbox.ConflictIffPayloadDiffers` | backend/internal/interview/service_async_api.go:41-51 | a key sent again is refused exactly when turn, answer or question differ after trimming; otherwise the same job is returned |
| `ClientOutbox.WaitAfter` | frontend/src/app/interview/[code]/utils.ts:58-61 | no wait between polls is under a quarter of a second |
| `ClientOutbox.WaitIsTheBackoff` | frontend/src/app/interview/[code]/constants.ts:6-6 | each wait is the tabled backoff of its attempt, scaled and rounded to the nearest millisecond once that is a quarter of a second; the table ends at thirty seconds |
| `ClientOutbox.PollAsyncAnswerJob` | frontend/src/app/interview/[code]/hooks/useAsyncAnswerPolling.ts:27-130 | every poll is made with the page there, time left and nothing settled before; it ends exactly by a conclusive reply, by the failures in a row reaching the breaker, by the page going away or by the time being up; polls are bounded by the timeout; only success clears the stored submission |
| `ClientOutbox.ArrivalIsAccepted` | backend/internal/interview/service_async_api.go:28-51 | a stored submission that reaches the server is accepted |
| `ClientOutbox.WStepKeepsInv` | frontend/src/app/interview/[code]/hooks/useInterviewMachine.ts:391-436 | asking, recovering, resending, hearing and clearing keep every copy of a submission faithful to its key |
| `ClientOutbox.ResendReachesTheSameJob` | frontend/src/app/interview/[code]/hooks/useInterviewMachine.ts:248-301 | resending after any crash, reload or timeout never conflicts and always reaches the same job, which carries what was first stored |
| `ClientOutbox.PagesPollTheirOwnJob` | frontend/src/app/interview/[code]/hooks/useAsyncAnswerPolling.ts:132-165 | a page polls only the job of the submission it holds |
| `ClientOutbox.StoredSubmissionGetsThrough` | frontend/src/app/interview/[code]/hooks/useInterviewMachine.ts:248-301 | from every reachable state with a stored submission, a page that opens can, in at most three steps, come to poll a job that carries it word for word |
| `EndToEnd.ReachedKeepsInv` | backend/internal/interview/service_async_api.go:28-73 | browser, queue and interview moving together keep all their invariants |
| `EndToEnd.PolledSuccessIsMyTurn` | frontend/src/app/interview/[code]/hooks/useAsyncAnswerPolling.ts:132-165 | a page told its job succeeded holds the successor of its own turn, which has exactly one stored answer if it was a criterion turn |
| `EndToEnd.EveryUsedTurnHasItsAnswer` | backend/internal/interview/postgres_criterion.go:99-115 | no used criterion turn lacks its answer |
| `PaymentStore.UnpaidBuysNothing` | backend/internal/payment/postgres.go:122-176 | however often a pending or failed payment is resolved, nothing is created and only its status is shown |
| `PaymentStore.PostgresStore.AttachCheckoutSessionID` | backend/internal/payment/postgres.go:40-56 | overwrites the checkout id unless the row is missing or another row has it |
| `PaymentStore.PostgresStore.LockPayment` | backend/internal/payment/postgres.go:323-352 | a payment id wins over a checkout id, with every not-found and invalid case |
| `PaymentStore.PostgresStore.LockAndAttachPayment` | backend/internal/payment/postgres.go:287-321 | refuses a mismatched checkout, attaches a missing one, changes nothing when refused |
| `PaymentStore.PostgresStore.GetPayment` | backend/internal/payment/postgres.go:58-65 | reads the locked row, attaching its checkout id |
| `PaymentStore.PostgresStore.MarkPaymentFailed` | backend/internal/payment/postgres.go:67-80 | fails the payment whatever its status |
| `PaymentStore.PostgresStore.MarkPaymentPaid` | backend/internal/payment/postgres.go:82-105 | moves only a pending payment |
| `PaymentStore.PostgresStore.ResolveCheckoutSession` | backend/internal/payment/postgres.go:122-176 | provisions and reveals in one transaction; any error restores payments, sessions and coupons |
| `PaymentStore.SessionIsShownOnce` | backend/internal/payment/postgres.go:178-270 | the poll that provisions shows the generated code and PIN and creates that session; every later poll is told they were shown, and nothing changes again |
| `PaymentStore.CouponIsShownAlways` | backend/internal/payment/postgres.go:178-270 | the poll that provisions a pack creates the ten-use coupon and shows its code, and so does every later poll, with no further change |
| `PaymentStore.PostgresStore.MarkProvisionFailure` | backend/internal/sqlgen/payment.sql.go:296-304 | notes a failure only on a paid, unprovisioned payment |
| `PaymentStore.PostgresStore.ClaimCouponAndCreateSession` | backend/internal/session/postgres.go:31-71 | takes one use and creates the session with its snapshot, or neither |
| `PaymentSafety.AuthenticReferenceLocks` | backend/internal/payment/postgres.go:287-352 | an authentic event always locks the payment its checkout was created for and never mismatches |
| `PaymentSafety.FailedProvisioningLeavesNothing` | backend/internal/payment/postgres.go:122-230 | an error leaves neither session nor coupon; a success creates exactly one of them, only for a paid payment |
| `PaymentSafety.StepKeepsInv` | backend/internal/payment/service.go:136-225 | webhooks, polls, failures and claims in any order keep every payment tied to what it bought |
| `PaymentTheorems.StatusNeverFalls` | backend/internal/sqlgen/payment.sql.go:204-348 | over every run status never goes down, terms never change, what was bought and the reveal moment are fixed once there |
| `PaymentTheorems.ProvisionOnce` | backend/internal/payment/postgres.go:122-230 | a payment buys at most one session or one coupon, never both |
| `PaymentTheorems.BoughtOnceProvisioned` | backend/internal/payment/postgres.go:178-230 | nothing is bought before provisioning, something is bought after |
| `PaymentTheorems.NoFulfilmentWithoutPayment` | backend/internal/payment/service.go:136-225 | before anything is sold for a payment the run has received an event of that payment's own checkout whose amount and currency are the payment's |
| `PaymentTheorems.RevealOnce` | backend/internal/payment/postgres.go:232-270 | at most one poll shows a PIN, before it expires, with the code and PIN of the session the payment bought |
| `PaymentTheorems.CouponPollsAgree` | backend/internal/payment/postgres.go:256-266 | all polls of a coupon pack show the one coupon the payment bought |
| `PaymentTheorems.CouponsAreConserved` | backend/internal/sqlgen/session.sql.go:14-20 | uses gained equal sessions claimed, within the limit, and the recorded counts are each number once |
| `PaymentTheorems.PackMakesAtMostTenSessions` | backend/internal/session/postgres.go:31-71 | one ten-pack payment leads to at most ten sessions |
| `PaymentLaws.PaymentIsCreated` | backend/internal/payment/postgres.go:28-38 | a new payment is pending with its terms, has no checkout and has bought nothing |
| `PaymentLaws.ReferenceLocksIff` | backend/internal/payment/postgres.go:287-352 | exactly which payment a reference locks, and exactly when it is refused as mismatched or invalid |
| `PaymentLaws.CheckoutIsAttached` | backend/internal/payment/postgres.go:40-56 | the checkout made for a payment is attached to it and to no other |
| `PaymentLaws.CheckoutFails` | backend/internal/payment/postgres.go:67-80 | a checkout that could not be made fails its payment with the given code and changes no other |
| `PaymentLaws.EventIsRead` | backend/internal/payment/service.go:352-360 | an event attaches its checkout, and matches exactly when amount and, but for case and blanks, currency are the payment's |
| `PaymentLaws.EventPays` | backend/internal/payment/postgres.go:82-105 | the mark of a matched event pays a pending payment and leaves any other status; only a paid one goes on to be provisioned |
| `PaymentLaws.MismatchFails` | backend/internal/payment/postgres.go:67-80 | a mismatched event fails its payment, whatever the status was, with the mismatch code |
| `PaymentLaws.PaidIsDelivered` | backend/internal/payment/service.go:136-225 | from every reachable state, receiving a matching event of a pending payment, marking it and provisioning with untaken codes leads to a provisioned payment with exactly that session or ten-use coupon sold |
| `PaymentLaws.DeliveredIsShown` | backend/internal/payment/service.go:136-225 | and a poll after that, before the reveal expires, shows that code and PIN, or that coupon |
| `PaymentLaws.FailureIsNoted` | backend/internal/sqlgen/payment.sql.go:296-304 | a failed provisioning is noted on the payment of its checkout exactly while that waits to be provisioned |
| `PaymentLaws.CouponIsClaimed` | backend/internal/session/postgres.go:31-71 | a claim takes one use and makes the session with its snapshot exactly when the coupon has a use left and has not expired and the session code is new; otherwise nothing changes |
| `TokenBucket.TokenBucketRateLimiter.constructor` | backend/internal/shared/ratelimit.go:63-84 | rate and burst with their fallbacks |
| `TokenBucket.TokenBucketRateLimiter.Allow` | backend/internal/shared/ratelimit.go:210-244 | one call refills, takes a token or answers with the wait, and touches only its key |
| `TokenBucket.AdmissionsAreBounded` | backend/internal/shared/ratelimit.go:210-244 | in any stretch of time a key is admitted at most burst plus rate times duration |
| `TokenBucket.RejectedIffNoRoom` | backend/internal/shared/ratelimit.go:210-244 | with a clock that does not run back, a call is rejected if and only if some stretch of its key's calls that ends with it would, with it, admit more than burst plus rate times duration |
| `TokenBucket.BurstIsAdmitted` | backend/internal/shared/ratelimit.go:214-243 | as many first calls of a key as its burst are all admitted, whatever their times and whatever other keys do |
| `TokenBucket.KeysAreIndependent` | backend/internal/shared/ratelimit.go:214-242 | a key's bucket is what it would be if no other key ever called |
| `TokenBucket.RetryAfterIsExact` | backend/internal/shared/ratelimit.go:231-239 | waiting the announced seconds is enough, and no smaller positive whole number is |
| `Lockout.PruneFailures` | backend/internal/shared/ratelimit.go:290-302 | in-place compaction is filtering, and the rest of the array is untouched |
| `Lockout.Configured` | backend/internal/shared/ratelimit.go:87-107 | every configuration gives usable limits |
| `Lockout.FailedAttemptLockoutLimiter.Allow` | backend/internal/shared/ratelimit.go:129-159 | answer and new state of an attempt, blank keys always free |
| `Lockout.FailedAttemptLockoutLimiter.RegisterFailure` | backend/internal/shared/ratelimit.go:162-197 | answer and new state of a failure, the locking one included |
| `Lockout.ResetForgetsOneKey` | backend/internal/shared/ratelimit.go:200-208 | in every later run of calls a reset key is answered as if never seen, every other key as if there had been no reset |
| `Lockout.FailedAttemptLockoutLimiter.EvictStale` | backend/internal/shared/ratelimit.go:315-326 | drops exactly the idle keys not seen for a window and a lockout, once 4096 keys are held |
| `Lockout.EvictionIsUnobservable` | backend/internal/shared/ratelimit.go:315-326 | eviction changes no answer of any later run of calls |
| `Lockout.RefinesFullHistory` | backend/internal/shared/ratelimit.go:129-208 | with a clock that does not run back, every answer is that of a limiter keeping every failure since the last lock or reset |
| `Lockout.StatesStaySmall` | backend/internal/shared/ratelimit.go:161-197 | a key holds fewer failures than the limit, and none while locked |
| `LockoutLaws.BlockedHasReason` | backend/internal/shared/ratelimit.go:129-197 | a key is blocked only if some failure of it, less than a lockout ago and not reset since, filled its window with as many failures as the limit |
| `LockoutLaws.LimitBlocks` | backend/internal/shared/ratelimit.go:162-197 | as many failures as the limit within a window, not reset, are never all left unblocked |
| `LockoutLaws.LockLasts` | backend/internal/shared/ratelimit.go:129-197 | until the announced wait is over every call of a blocked key is blocked, unless it is reset |
| `LockoutLaws.LockEnds` | backend/internal/shared/ratelimit.go:129-159 | one second past the announced wait the key may try again, unless it failed after the answer |
| `LockoutLaws.FreshLockIsWhole` | backend/internal/shared/ratelimit.go:304-313 | the failure that locks a key announces the whole lockout in full seconds, at least one |
| `LockoutLaws.AllowLeavesNoTrace` | backend/internal/shared/ratelimit.go:147-156 | a key that may try and has no recent failure is not kept |
| `Schema.CollapseSchemaTypes` | backend/internal/vertexai/schema.go:89-100 | the loop finds the first type that is neither null nor blank, and whether null was mentioned |
| `Schema.NormalizeTypeField` | backend/internal/vertexai/schema.go:36-60 | the type keyword of every shape: a name, a list, anything else |
| `Schema.NormalizeSchemaMap` | backend/internal/vertexai/schema.go:33-87 | the loop fills a fresh map with exactly the specified fields |
| `Schema.NormalizeSchemaValue` | backend/internal/vertexai/schema.go:12-31 | recursion over objects, lists and string lists computes the specified document |
| `Schema.KeywordsAreKept` | backend/internal/vertexai/schema.go:62-87 | every keyword but type and additionalProperties is kept, and plain values unchanged; nullable is set only by a type list that mentions null |
| `Schema.NormalizeIdempotent` | backend/internal/vertexai/schema.go:7-121 | normalising twice is normalising once, on every document |
| `Schema.TypeIsUpperCased` | backend/internal/vertexai/schema.go:102-121 | the table of type names is upper-casing |
| `SchemaMeaning.NormalFormIsLoose` | backend/internal/vertexai/schema.go:33-87 | the normal form of a supported schema accepts exactly what the schema accepts when read as the normaliser reads it: the first type besides null, null if listed or `nullable`, no additionalProperties |
| `SchemaFidelity.LosesNothingIff` | backend/internal/vertexai/schema.go:33-87 | every value of a supported schema is one of its normal form if and only if each kind of value, item and member that it admits passes the types kept, here and below |
| `SchemaFidelity.GainsNothingIff` | backend/internal/vertexai/schema.go:33-87 | every value of the normal form is one of the supported schema if and only if, wherever a value can reach, no null is added, no type dropped and no additionalProperties that refuses something dropped |
| `SchemaFidelity.NormalizingLosesNothing` | backend/internal/vertexai/schema.go:33-87 | where every type list names besides null only its first type, or integer after number, no value is lost |
| `SchemaFidelity.MeaningIsKeptIff` | backend/internal/vertexai/schema.go:33-87 | a supported schema and its normal form accept the same values if and only if nothing is lost and nothing gained |
| `SchemaFidelity.TypeListIff` | backend/internal/vertexai/schema.go:36-60 | for a schema of one type list: no value is lost exactly when the list names besides null only its first type, or integer after number; none is gained exactly when it names a type besides null and `nullable` adds no null |
| `SchemaFidelity.NormalizingStrikes` | backend/internal/vertexai/schema.go:33-87 | where the type keywords let the same kinds through in both readings, the normal form means the schema with every additionalProperties struck out |
| `SchemaFidelity.StruckIsNormalizedAlike` | backend/internal/vertexai/schema.go:33-87 | striking every additionalProperties first does not change the normal form, of any document |
| `SchemaFidelity.UniversalIff` | backend/internal/vertexai/schema.go:33-87 | the test for an additionalProperties that refuses nothing is exact |
| `SchemaFidelity.RestrictionsAreDropped` | backend/internal/vertexai/schema.go:66-68 | an object closed to extra members accepts one after normalising |
| `SchemaFidelity.NullableTakesEffect` | backend/internal/vertexai/schema.go:36-60 | a string with `nullable` accepts null only after normalising |
| `SchemaFidelity.NullAloneIsDropped` | backend/internal/vertexai/schema.go:89-100 | what may only be null by its type list may be anything after normalising |
| `SchemaFidelity.SecondTypeIsLost` | backend/internal/vertexai/schema.go:89-100 | a schema of two unrelated types refuses after normalising a value of the second |
| `SchemaFidelity.IntegerIsANumber` | backend/internal/vertexai/schema.go:89-100 | a schema of number and integer means the same after normalising |
| `SchemaFidelity.OpenStaysOpen` | backend/internal/vertexai/schema.go:66-68 | an additionalProperties that refuses nothing is dropped without loss |

## Left out

- AI providers, prompts, translation and question texts: an AI reply is any evaluation or none, and texts are carried unread.
- HTTP handlers, cookies, JWT and PIN hashing, Stripe signatures, logging and configuration loading: plumbing around the modelled calls.
- The report package: the same queue shape with weaker guarantees.
- Admin cleanup: a bulk delete that would only weaken the conservation laws.
- React components, the interview reducer and the other browser stores: user interface.
- The worker and recovery loops and the channel of hints: the queue machine lets any worker claim any queued job at any time and requeue at any age, which includes what the loops do.
- Failure reasons and error codes on jobs: texts for people; the marks keep only the status.
- Expiry of a session at submission, and database errors in general: such a request takes no step in the machines.
- Text.EqualFold: folds the letters of ASCII only, where the service folds Unicode.
- TurnMachine.System: models one session; sessions share no interview rows.
- TokenBucket.TokenBucketRateLimiter.Allow: computes with real numbers, so rounding of floating point is not captured.
- Lockout.FailedAttemptLockoutLimiter: keeps a key's failures as a sequence; the in-place compaction is proved on an array, the sharing of one backing array between calls is not captured.
- SchemaMeaning.Supported: leaves out boolean sub-schemas under properties and items, type names in other spellings, and keywords that hold or point to other sub-schemas (anyOf, $ref and the like).
- SchemaMeaning.Valid: interprets type, enum, required, properties, items and additionalProperties; restrictions copied unchanged (such as minimum or pattern) are ignored on both sides.
- AnswerQueue.NoJobIsStuck: shows that a continuation that finishes the job exists, not that every fair run is one; ClaimsAreAnswered and FallbackDrainsTheQueue say what every run does.
- TurnProgress.AnswerIsReplied: says what a delivery that nothing interrupts comes to, not that every fair run lets it go on; the same holds of the other lemmas there and of PaymentLaws.PaidIsDelivered.
- LockoutLaws.LockLasts: asks for an announced wait of more than one second, because what is left of a last second is announced as one.
- PaymentTheorems.NoFulfilmentWithoutPayment: does not promise that Stripe had collected the money, because the webhook does not decide on the payment status.
- PaymentStore.Product: only the two products the service can create; rows with an unknown product, which it reports as an error, are not modelled.
- PaymentStore.Reference: payment ids are numbers, so the parse error of a malformed id is not modelled.
- Worker exclusivity: a lease is not assumed, because configuration only relates two timeouts; safety rests on the compare-and-swap.
