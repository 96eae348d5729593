# Control plane model

A Dafny model of a control plane made of several state machines that depend on each other, with proofs about
every run of them.

- **Durable runs and settlement.** `RunStore` is the append-only store with optimistic concurrency. `RunWorld`
  is one process around it: the Day snapshot and the repair, review and human-decision controllers bound to
  runs (`RepairRecovery`, `ReviewControl`, `HumanDecision`). `EvidenceCompletion` and `EvidenceBinding` turn
  the evidence of a Day into records of one run. `TerminalTelemetry` and `CodexAttempts` add up tokens, and
  `RunProduct` settles a terminal run. `RunExecution` and `RunProduct` hold the classes that change this state
  in place; `RunWorld` and `RunProduct` hold the functions they are proved against. `RunProperties`,
  `RunHistory`, `RunOutcome`, `BindingProperties`, `BindingSources`, `BindingConditions`, `SettlementProperties` and
  `TelemetryProperties` hold the theorems.
- **The Day worker.** `DayLoop` is its control loop for arbitrary answers of its environment, `DayWorker` the
  class that does it in place, `DayStateMachine` the transition table, `RepairEpisodes` the supervised repair
  with crashes, `DayEvidence` the evaluation of a contract against the evidence store. `DayLoopProperties`,
  `DayLoopOnce`, `DayLoopOutcome`, `DayLoopDiagnosis`, `RepairOutcome`, `DayEvidenceProperties`, `DayEvidenceRestart`,
  `DayEvidenceRetained` and `DayEvidenceHistory` hold the theorems.
- **The configured-task scheduler.** `ModelRouter` and `DaySchedule` are its functions, `DayRunner` the class,
  `ScheduleLimits`, `ScheduleQueue`, `ScheduleTokens`, `ScheduleTurns`, `ScheduleOutcome`, `ScheduleHistory` and
  `ScheduleEnds` the theorems.
- **The reviewer bus.** `TransportRecovery` is the bounded repair of a rejected transport, `ReviewerBus` one
  poll of the watcher, `BusWatcher` the class, `RecoveryProperties`, `RecoveryOutcome`,
  `BusProperties`, `BusOutcome`, `BusContinuation` and `BusReopening` the theorems.

How to read it: a class has the source's fields and its methods say, in one equation, the whole new state as a
function of the old one and of the answers the environment gave. Theorems are about those functions, over
every sequence of steps. Identifiers, fingerprints and paths are naturals of which only equality is used;
digests are the tuples of their inputs, so they are injective. Times are integers. Token counts and costs are
exact integers. Answers of people, models, files, git and the network are arbitrary.

## Where the code is not what one would expect

Each of these is a theorem with its exact condition or an example.

- A process that dies between writing a history file and replacing the current file freezes that run: no
  later update is accepted (`RunStore.CrashFreezesRun`).
- The evidence adapter writes one fixed project id. In any other project a bind is accepted once, then fails
  its own verification (`SettlementProperties.BindRoundTrip`, `BindingExamples.ForeignProjectBindsOnce`).
- With two criteria of one id the evaluator looks up the first of them, so a bind can be accepted that leaves
  a required type without a record (`BindingProperties.EveryTypeBound`).
- A response that was applied without its effect being read back cannot be replaced: the run stays blocked in
  this process (`RunHistory.StuckReviewBlocksCompletion`).
- An empty confirmation report id is not remembered, so the same source can be confirmed again
  (`HumanDecision.EmptyReportIsConfirmedTwice`).
- A task record of an exit that drops the aggregate is refused by telemetry as soon as an earlier turn used
  tokens (`CodexAttempts.EarlyExitPasses`).
- A waiting operator retry is not cleared when the loop returns first; taken up stale, it asks for a transition
  the table forbids (`DayLoopProperties.RefusedExactlyWhenStale`).
- A strategy whose repair order is refused is never marked as repaired, and the loop goes round for ever
  (`DayLoopOnce.UnrepairableConfigurationCircles`).  This is a condition on configurations; no template of the
  shipped registry meets it.  So is a Day 1 checkpoint that is not given to the checkpoint routine
  (`DayLoopOnce.MisregisteredCheckpointRetriesForever`).
- A processed report can be continued again.  Publishing its id anew for a file reply is not enough: while a
  comment of a listed type shows it, it is settled again in every poll, and a report that was once read as a file
  is held to the type it had.  But a report that was processed by comment, published again by Codex for a file
  reply, and then shown only by a comment edited to an unlisted type, is handed over once more
  (`BusReopening.ProcessedReportMayBeContinued`, `BusExample.ProcessedReportIsContinued`).
- After a failure that cannot escalate the router ignores the escalation limit
  (`ModelRouter.EscalationIsCapped`).
- The scheduler saves the end of an item before it completes the Day.  A process that dies in between leaves a
  Day whose items all succeeded and whose progress reads 100, but which is not COMPLETE; when its architect calls
  are used up it never will be (`ScheduleEnds.SuccessfulExactly`, `ScheduleEnds.StrandedDayCanEnd`,
  `ScheduleEnds.LastCallStrands`).
- A Day in review is left by no operation of the scheduler, and keeps any other Day from being started
  (`ScheduleOutcome.ReviewIsNeverLeft`).
- A task named SYSTEM is rewritten by the scheduler's own reviews (`ScheduleHistory.SystemTaskIsRewritten`).
- From 20,000 tasks on, progress can read 100 before the last task (`ScheduleQueue.FullProgressIsExact`).

## Model

| member | source | states |
|---|---|---|
| RunStore.JsonRunStore.Create | backend/control/run_store.py:37-43 | An existing run is never overwritten: a create succeeds exactly for a consistent record of a new run, and the directory is otherwise unchanged. |
| RunStore.JsonRunStore.Update | backend/control/run_store.py:55-85 | The outcome of an update and the whole new directory, every check in its order; a sound store stays sound. |
| RunStore.JsonRunStore.WriteHistory | backend/control/run_store.py:69-77 | The history file is created exclusively: the old version is appended exactly when no version of that time is retained. |
| RunStore.JsonRunStore.Versions | backend/control/run_store.py:100-120 | Whatever order the directory lists its files in, a sound store reads back each run's versions in the order they were written. |
| RunStore.JsonRunStore.Current | backend/control/run_store.py:87-98 | The current run is the one with the latest (go time, run id); there is one exactly when there is any run. |
| RunStore.UpdateKeepsStore | backend/control/run_store.py:55-85 | Every update, accepted or refused, keeps one intent per run, strictly increasing times and a history that is exactly the earlier states, and only appends versions. |
| RunStore.CreateKeepsStore | backend/control/run_store.py:37-43 | Creating a run with an empty history keeps the same invariant. |
| RunStore.UpdateAccepted | backend/control/run_store.py:55-68 | When an update is accepted, both ways: current intent, current time, later new time, history extended by the current state. In a sound store nothing else can refuse it. |
| RunStore.CrashFreezesRun | backend/control/run_store.py:69-85 | After a crash between writing the history file and replacing the current one, no update of that run is ever accepted again, and every other update leaves that run in this condition. |
| RunStore.CrashDuplicatesVersion | backend/control/run_store.py:76-83 | That crash leaves the current version twice among the run's versions. |
| RunStore.AscendingUnique | backend/control/run_store.py:115-120 | Versions with strictly increasing times have one ascending arrangement, so reading them back restores the chain. |
| RunStore.UpdateKeepsCurrent | backend/control/run_store.py:55-98 | An update never changes which run is current. |
| TokenUsage.SplitAggregate | backend/models/result.py:14-18 | If no report has more cached input than input, the sum has not either. |
| TerminalTelemetry.BuildTelemetry | backend/control/run_product_composition.py:167-296 | The loop over task records with its accumulators: it reports the first error in the source's order, or a snapshot of exactly the totals, ids, latest time, decision, cost and currency of the records. |
| TerminalTelemetry.ReadRecord | backend/control/run_product_composition.py:175-248 | The checks on one record, in order, and what an acceptable record adds to the accumulators. |
| TelemetryProperties.AcceptedTelemetryIsValid | backend/models/local_llm_day.py:212-259 | Accepted telemetry always passes its own validator: nothing negative, and input is cached plus uncached. |
| TelemetryProperties.TotalsCoverAllAttempts | backend/control/run_product_composition.py:199-235 | The totals of a run are the totals over every attempt of every task, and the attempt count is their number. |
| TelemetryProperties.AcceptableWhenNoError | backend/control/run_product_composition.py:168-254 | When records are accepted, both ways, stated without an order: each sound by itself, distinct task ids, one decision, all or none costed, one currency. |
| TelemetryProperties.OrderIsIrrelevant | backend/control/run_product_composition.py:167-296 | Reordering the records changes neither acceptance nor any field of the snapshot. |
| TelemetryProperties.TelemetryIsDetermined | backend/control/run_product_composition.py:167-296 | Any two orders of the same records determine one and the same snapshot. |
| CodexAttempts.RunTaskCodexAttempts | backend/orchestrator/engine.py:1918-2056 | The attempt loop under arbitrary answers: never more turns than retries plus one or than the cap, which exit means which count, and the record each exit leaves. |
| CodexAttempts.AggregatePasses | backend/orchestrator/engine.py:1982-2012 | A record that carries the aggregate passes telemetry exactly when no turn reported more cached input than input. |
| CodexAttempts.EarlyExitPasses | backend/orchestrator/engine.py:1925-1974 | A record of an exit that drops the aggregate passes telemetry exactly when the turns before it reported no tokens at all. |
| RepairRecovery.RepairRecoveryController.RecordAttempt | backend/control/repair_recovery.py:49-84 | One attempt: guard reasons in order, then passed, exhausted or failed; the whole new controller state. |
| RepairRecovery.RepairRecoveryController.ApplyReview | backend/control/repair_recovery.py:86-105 | One review: correlation, rejection, or the recheck that returns to PREFLIGHT. |
| RepairRecovery.StepKeepsRepair | backend/control/repair_recovery.py:49-119 | One step keeps the controller's invariant, and moves to HUMAN_ACTION_REQUIRED exactly when the last allowed attempt fails like all others. |
| RepairRecovery.RepairIsBounded | backend/control/repair_recovery.py:49-119 | Over any run of a controller: at most `max_attempts` attempts, all in scope; a review is asked for only when all of them share one failure; then no attempt is taken any more and at most one recheck takes effect. |
| ReviewControl.Control.Receive | backend/control/review_control.py:58-75 | Receiving a response: state, correlation, deadline, replay and watcher checks in order; the whole new control state. |
| ReviewControl.ReviewsAreCorrelated | backend/control/review_control.py:44-92 | In every reachable state a received, applied or verified review holds a response to exactly the report that was sent, in time. |
| ReviewControl.ResponseAcceptedOnce | backend/control/review_control.py:58-75 | Over all reports one control ever sends, a response id is accepted at most once. |
| ReviewContinuation.Control.Finish | backend/control/review_continuation.py:51-75 | Finishing a continuation: exit code, envelope and effect decide between APPLIED and failure. |
| ReviewContinuation.VerifiedMeansObserved | backend/control/review_continuation.py:40-102 | Over any run: VERIFIED means begun for exactly this report and response, exited zero with a valid envelope, and the effect observed is the one announced. |
| HumanDecision.HumanDecisionControl.ReceiveResponse | backend/control/human_decision.py:63-92 | One response: it is recorded as received exactly when it is bound to its request. |
| HumanDecision.HumanDecisionControl.BuildConfirmation | backend/control/human_decision.py:94-127 | Building a confirmation: only for a received decision, and only if its source key has none yet. |
| HumanDecision.HumanDecisionControl.ApplyConfirmation | backend/control/human_decision.py:129-169 | Applying a reply: every field compared, outcomes in order; the whole new state. |
| HumanDecision.ConfirmedDecisionIsBound | backend/control/human_decision.py:63-169 | A confirmed decision was said directly, matches its request in revision, subject, commit and effect, and its reply matched, field by field, a payload built from it. |
| HumanDecision.ConfirmedOncePerSource | backend/control/human_decision.py:94-127 | Over any run: per source message, decision and revision at most one record ever gets a confirmation with a report id. |
| HumanDecision.EmptyReportIsConfirmedTwice | backend/control/human_decision.py:106-126 | With an empty report id the guard does not hold: for every bound response there is a run that confirms its source twice. |
| EvidenceCompletion.Adapt | backend/control/evidence_completion.py:31-139 | The evaluation loop: every result adapted in order, the first accepted one of each type kept. |
| EvidenceCompletion.EvaluateCriterion | backend/control/evidence_completion.py:31-72 | A criterion is satisfied exactly when it requires something and every required type has an accepted result; otherwise the reason. |
| EvidenceCompletion.SelectedIsFirstAccepted | backend/control/evidence_completion.py:48-58 | A type is selected exactly when some result is accepted for it, and then the first one is. |
| EvidenceBinding.CriterionBinds | backend/control/run_execution_composition.py:141-195 | When one criterion can be bound, both ways, and that its records then prove each type for this run and this criterion. |
| EvidenceBinding.CriterionVerifies | backend/control/run_execution_composition.py:223-279 | When one criterion of a bound snapshot verifies, both ways. |
| EvidenceBinding.RefusedStays | backend/control/run_execution_composition.py:141-195 | The first criterion that cannot be bound decides the whole bind. |
| BindingProperties.AcceptedBindCovers | backend/control/run_execution_composition.py:119-221 | An accepted bind covers, per criterion, the required types with records of this run and criterion, and with no other. |
| BindingProperties.EveryTypeBound | backend/control/run_execution_composition.py:119-221 | Every required type is bound exactly when no criterion is hidden behind an earlier one of the same id. |
| BindingProperties.DistinctHidesNothing | backend/control/evidence_completion.py:39-42 | Distinct criterion ids are enough for that. |
| BindingProperties.StoredGrows | backend/control/run_execution_composition.py:197-201 | A bind loses nothing from the evidence store and adds only records that prove a type for this run. |
| BindingProperties.BoundContract | backend/control/run_execution_composition.py:197-209 | A bind changes neither the contract fingerprint nor what is required; every criterion is satisfied and no gap remains. |
| BindingProperties.BoundCriterionVerifies | backend/control/run_execution_composition.py:223-279 | A bound criterion verifies exactly when the program has the adapter's project id and nothing is hidden. |
| BindingProperties.BoundCriterionBinds | backend/control/run_execution_composition.py:119-221 | And it binds again under the same condition, to the same record ids. |
| BindingExamples.ForeignProjectBindsOnce | backend/control/evidence_completion.py:113-137 | For every other project id a bind is accepted once, and neither verification nor a second bind follows. |
| BindingExamples.DuplicateCriterionBindsOnce | backend/control/evidence_completion.py:39-59 | Two criteria of one id: a bind is accepted that does not verify. |
| RunExecution.RunExecutionComposition.BindDayEvidence | backend/control/run_execution_composition.py:119-221 | The method with its pending list: every criterion is made ready before any is changed, and the new process state is that of the specification. |
| RunExecution.RunExecutionComposition.VerifyBoundDayEvidence | backend/control/run_execution_composition.py:223-279 | Verification of a bound snapshot: its answer, and that nothing changes. |
| RunExecution.RunExecutionComposition.ProjectDayState | backend/control/run_execution_composition.py:47-76 | Projection: the refusals in order, or one new version with the Day's state and blocker. |
| RunExecution.RunExecutionComposition.IsCompletionReady | backend/control/run_execution_composition.py:472-484 | No gap remains, some record is referenced, and every referenced record was validated for this run. |
| RunExecution.RunExecutionComposition.EvaluateRunCriterion | backend/control/run_execution_composition.py:78-117 | One criterion evaluated against the run and, when satisfied, written into the snapshot. |
| RunExecution.RunExecutionComposition.PersistControllerRecord | backend/control/run_execution_composition.py:459-470 | A changed controller record is rebuilt on the stored version and written; an unchanged one is not. |
| RunExecution.RunExecutionComposition.RequestRunReview | backend/control/run_execution_composition.py:307-325 | Requesting a review: report ownership, the control's answer, and the move to HUMAN_ACTION_REQUIRED. |
| RunExecution.RunExecutionComposition.ApplyReviewResponse | backend/control/run_execution_composition.py:327-382 | A response is applied only after correlation, and moves the run only after its effect was read back. |
| RunExecution.RunExecutionComposition.Advance | backend/control/run_execution_composition.py:492-506 | One version is appended: the state, the previous state in the history, a strictly later time. |
| RunExecution.RunExecutionComposition.GoRun | backend/control/run_composition.py:53-123 | Go is refused while the current run is not terminal; otherwise the first version has an empty history and the admitted state. |
| RunProperties.StepKeepsWorld | backend/control/run_execution_composition.py:47-519 | No composition step is ever refused by the store, and every step only appends versions. |
| RunProperties.NextVersionAccepted | backend/control/run_execution_composition.py:492-519 | A version built on the stored one is always accepted, even if the clock stands still or goes back. |
| RunHistory.RunsKeepTheStore | backend/control/run_execution_composition.py:47-519 | Over any run of one process the store stays sound and never refuses an update. |
| RunHistory.CompleteOnlyThroughGate | backend/control/run_execution_composition.py:47-76 | The only step that makes a run COMPLETE is a projection of a COMPLETE Day of the same current run, without gaps, with every record validated and no review open. |
| RunHistory.CompleteWasProjected | backend/control/run_execution_composition.py:47-76 | A run that is COMPLETE was projected through that gate at some step, and has been COMPLETE ever since. |
| RunHistory.ReviewIsLatestRequest | backend/control/run_execution_composition.py:307-325 | The review held for a run is that of the latest accepted request, and there is one as soon as there was a request. |
| RunHistory.CompleteMeansReviewVerified | backend/control/run_execution_composition.py:486-490 | When a run becomes COMPLETE, the review requested last for it, if any, was answered in time for that report and verified. |
| RunHistory.StuckReviewBlocksCompletion | backend/control/review_control.py:44-92 | A response that was applied but whose effect was not read back blocks the run for the life of the process: no new request is accepted and it cannot become COMPLETE. |
| RunProduct.RunProductComposition.SettleTerminalRun | backend/control/run_product_composition.py:87-164 | Settlement of a terminal run: replay, bind, telemetry and projection, each stage's answer and the whole new state. |
| RunProduct.RunProductComposition.ReconcileTerminalTelemetry | backend/control/run_product_composition.py:63-85 | Telemetry of the current, terminal Day is built and recorded, or the reason it is not. |
| RunProduct.RunProductComposition.RecordTelemetry | backend/control/run_product_composition.py:45-61 | Equal telemetry is a replay, different telemetry a conflict, and none is overwritten. |
| SettlementProperties.BindIsAllOrNothing | backend/control/run_execution_composition.py:119-221 | A rejected bind changes nothing at all; an accepted one changes only the Day snapshot. |
| SettlementProperties.BindRoundTrip | backend/control/run_execution_composition.py:119-279 | After an accepted bind, verification accepts, and a second bind accepts, exactly when the project is the adapter's and no criterion hides another. |
| SettlementProperties.RebindKeepsIds | backend/control/run_execution_composition.py:119-221 | Binding again yields the same record ids for every criterion. |
| SettlementProperties.BoundIsReady | backend/control/run_execution_composition.py:472-484 | What an accepted bind leaves satisfies the completion check. |
| SettlementProperties.ProjectionNeedsOnlyReview | backend/control/run_execution_composition.py:47-76 | After an accepted bind of a COMPLETE Day only a different selected Day or an open review can refuse the projection. |
| SettlementProperties.SettlesExactlyOnce | backend/control/run_product_composition.py:87-164 | A settlement that projects COMPLETE appends one version and stores one valid snapshot; any later settle with any reordering of the records changes nothing, and is accepted exactly when the evidence is rebindable. |
| SettlementProperties.TelemetryIsWrittenOnce | backend/control/run_product_composition.py:45-61 | Settling never changes or removes a stored snapshot, and adds at most that of the settled run. |
| SettlementProperties.RefusedSettlement | backend/control/run_product_composition.py:87-164 | A refused settlement leaves every run record as it was; telemetry only if the projection was the stage that refused. |
| SettlementProperties.RefusedProjectionCanBeRetried | backend/control/run_product_composition.py:87-164 | After a refusal at the projection the same records, in any order, record nothing twice, and settle exactly when the evidence is rebindable, the Day is the selected one and no review is open. |
| SettlementProperties.RefusedTelemetryCanBeRetried | backend/control/run_product_composition.py:87-164 | After a refusal at the telemetry nothing but the bound Day was written, and any later records settle exactly when the evidence is rebindable, they are acceptable and equal to a stored snapshot if there is one, the Day is the selected one and no review is open. |
| RepairEpisodes.RepairSupervisor.SuperviseRepair | backend/control/local_llm_day_program.py:801-882 | The supervisor is a sequence of the machine's steps and always ends the episode. |
| RepairEpisodes.RepairSupervisor.RequestExternalRepairGuidance | backend/control/local_llm_day_program.py:884-955 | The submission is recorded as started before it is made, and an open submission is never repeated. |
| RepairEpisodes.RepairSupervisor.BeginOperatorResume | backend/control/local_llm_day_program.py:512-550 | The one retry an operator may authorize, after a recoverable provider failure only. |
| RepairEpisodes.EpisodeIsBounded | backend/control/local_llm_day_program.py:801-955 | Through any crashes, restarts and resumes: at most three local proposals, one operator retry and two submissions. |
| RepairEpisodes.UnknownOutcomeIsNeverResubmitted | backend/control/local_llm_day_program.py:884-955 | A submission of unknown outcome is never repeated, by no restart and no operator. |
| RepairEpisodes.CrashWhileSubmitting | backend/control/local_llm_day_program.py:919-928 | A crash between starting a submission and recording its artifact leaves exactly that state. |
| DayLoopProperties.SelectionIsFirst | backend/control/local_llm_day_program.py:1206-1227 | Nothing is selected exactly when no gap has an action that may run; otherwise the first, in the given order, of those that no other comes before by mode, strategy and criterion. |
| DayLoopProperties.CycleEnds | backend/control/local_llm_day_program.py:1089-1160 | One cycle goes on in VALIDATING or returns in a state that is not active; it refuses a request only for a stale operator retry. |
| DayLoopProperties.WorkerSettles | backend/control/local_llm_day_program.py:1049-1166 | From PREFLIGHT, for any answers, the worker returns in a non-active state and the transition table forbids none of its requests, but at most one when a stale operator retry was waiting; then the Day is FAILED_UNRECOVERABLE. |
| DayLoopProperties.RefusedExactlyWhenStale | backend/control/local_llm_day_program.py:1091-1103 | When a cycle makes a forbidden request, both ways: an operator retry is waiting and its episode no longer matches. |
| DayLoopOnce.ActionsRunOnce | backend/control/local_llm_day_program.py:1206-1326 | Over the whole life of a Day, through stops, deaths and resumes, no (template, inputs) pair runs twice, other than by the authorized Day 1 scope retry. |
| DayLoopOnce.LoopEnds | backend/control/local_llm_day_program.py:1089-1156 | With fixed inputs the loop returns within the untried templates, the unrepaired strategies and four more cycles; on Day 1 with approved paths too, since a scope retry that is made is authorized no more and one that is not ends the loop. |
| DayLoopOnce.WorkerEnds | backend/control/local_llm_day_program.py:1049-1156 | The bound from the configuration alone: templates plus strategies plus four. |
| DayLoopOnce.UnrepairableConfigurationCircles | backend/control/local_llm_day_program.py:1242-1279 | For every configuration with a strategy whose repair order is refused there is a Day on which the worker never returns; no shipped template is of this kind. |
| DayLoopOnce.MisregisteredCheckpointRetriesForever | backend/control/local_llm_day_program.py:1229-1240 | For every registry that gives the Day 1 checkpoint to another executor there is a Day on which the scope retry runs in every cycle, without end. |
| DayLoopOnce.LoopIsBoundedExactly | backend/control/local_llm_day_program.py:1089-1156 | A registry bounds the loop on fixed inputs exactly when every repair scope makes a valid order and the Day 1 checkpoint belongs to the checkpoint routine. |
| DayLoopOnce.OnlyACheckpointGoesOn | backend/control/local_llm_day_program.py:1295-1319 | After an action of the checkpoint routine the loop goes on only if the checkpoint was made: one that was not asks for a human decision, which ends the loop. |
| DayWorker.LocalLLMDayProgram.ExecuteDay | backend/control/local_llm_day_program.py:1049-1166 | The worker as a loop over mutable state: it does what the specification does for any cycles. |
| DayWorker.LocalLLMDayProgram.DiagnoseGaps | backend/control/local_llm_day_program.py:1168-1204 | The diagnoses of the gaps, in order, or the raise for an unregistered one. |
| DayWorker.LocalLLMDayProgram.SelectRegisteredAction | backend/control/local_llm_day_program.py:1206-1240 | The selected diagnosis: by priority of its mode, then strategy, then criterion. |
| DayWorker.LocalLLMDayProgram.RouteObservedGap | backend/control/local_llm_day_program.py:1242-1279 | Where a gap without an action goes: to a repair or to a human decision. |
| DayWorker.LocalLLMDayProgram.ExecuteRegisteredAction | backend/control/local_llm_day_program.py:1281-1326 | The attempt is recorded before the action is handed over, and its result on that attempt. |
| DayWorker.LocalLLMDayProgram.IngestActionResult | backend/control/local_llm_day_program.py:1461-1509 | A result ends in authority, in repair supervision or back at work. |
| DayEvidence.DayEvidenceStore.EvaluateContract | backend/control/local_llm_day_program.py:1405-1436 | Every criterion takes the latest eligible record of each type, exact bindings first, and is satisfied when each required name has one. |
| DayEvidence.DayEvidenceStore.IngestReusableEvidence | backend/control/local_llm_day_program.py:1453-1460 | The whole store after ingestion: the records of valid retained evidence, found or made, and every other record as it was but for its recheck; no strict record is added. |
| DayEvidenceHistory.ReferencesAreOwn | backend/control/local_llm_day_program.py:1405-1436 | Over any sequence of evaluations, recorded actions, binds and changes of run: once a Day was evaluated or bound for its run, every referenced record is in the store and was bound to exactly this run and criterion, or to none. |
| DayEvidenceProperties.ReevaluationFindsTheBound | backend/control/local_llm_day_program.py:1405-1436 | On Days 2 to 14, with files and retained evidence unchanged, re-evaluation of a contract with bound records selects exactly the bound record ids, one for each required type exactly when none is listed twice. |
| DayEvidenceRestart.ReevaluationKeepsTheBind | backend/control/local_llm_day_program.py:1405-1436 | After a bind that the run accepted, ingestion and evaluation of the bound contract leave every criterion exactly its bound record ids, and give back the very contract of the bind exactly when no criterion lists a required type twice. |
| TransportRecovery.TransportRecoveryWorker.Tick | backend/control/reviewer_recovery.py:42-146 | One poll: the records in order, until the first publication ends it. |
| TransportRecovery.TransportRecoveryWorker.Reject | backend/control/reviewer_recovery.py:166-175 | A rejection opens a recovery once. |
| TransportRecovery.PostEndsTick | backend/control/reviewer_recovery.py:42-146 | A poll publishes at most once. |
| RecoveryProperties.RecoveriesAreBounded | backend/control/reviewer_recovery.py:42-175 | Whatever the repository answers and wherever processes die: at most two preparations and one publication per rejected report. |
| RecoveryProperties.EndedRecoveriesStay | backend/control/reviewer_recovery.py:42-60 | RESOLVED and ESCALATED are absorbing. |
| RecoveryProperties.RepairsAreNotRepaired | backend/control/reviewer_recovery.py:42-146 | A report that already is a repair never gets a publication. |
| RecoveryProperties.OverdueRecoveryEnds | backend/control/reviewer_recovery.py:42-146 | Past its deadline, while no known report is rejected, a recovery has ended after as many polls as earlier records can still publish, and one more. |
| RecoveryProperties.CanPostBound | backend/control/reviewer_recovery.py:42-146 | Those are at most the records before its own. |
| BusWatcher.ReviewerBusWatcher.RunOnce | backend/control/reviewer_bus.py:87-177 | One poll over mutable state: its new state and what it hands to Codex are those of the specification. |
| BusWatcher.ReviewerBusWatcher.SyncReportRegistry | backend/control/reviewer_bus.py:233-288 | Every listed report gets an entry and every entry is brought up to date. |
| BusWatcher.ReviewerBusWatcher.SyncFileResponses | backend/control/reviewer_bus.py:316-370 | Which reply files are taken up, and how errors mark their reports. |
| BusWatcher.ReviewerBusWatcher.SelectReport | backend/control/reviewer_bus.py:207-231 | The report a poll works on. |
| BusWatcher.ReviewerBusWatcher.FindReply | backend/control/reviewer_bus.py:472-504 | The pending comment if it still holds, or the first reply that names this report alone. |
| BusWatcher.ReviewerBusWatcher.MarkResponseApplied | backend/control/reviewer_bus.py:628-639 | An applied reply marks its report processed and clears what was pending. |
| BusProperties.HandedCommentReplies | backend/control/reviewer_bus.py:472-504 | A comment handed over replies to that report and to no other. |
| BusProperties.RecoveredReportsAreNotContinued | backend/control/reviewer_bus.py:207-231 | After any polls: a report with a transport recovery never has its own reply handed over. |
| BusProperties.ProcessedReportsAreNotContinued | backend/control/reviewer_bus.py:80-177 | After any polls: a processed report is continued again only as a file, only if Codex published that id again for a file reply, and only while no listed comment shows it. |
| BusReopening.ProcessedReportMayBeContinued | backend/control/reviewer_bus.py:207-370 | Exactly when a poll can continue a processed report, both ways and in terms of the state: it takes a required reply file, is unsettled and unrecovered, was read as a file never or under an unlisted type, may control, is not blocked by the recovery it replaces, and nothing pending stands in the way. |
| BusReopening.ReachableReopening | backend/control/reviewer_bus.py:80-177 | In every reachable state that condition decides, and it holds only if Codex published the report again. |
| BusWatcher.ReviewerBusWatcher.FindPin | backend/control/reviewer_bus.py:328-336 | The binding shared by every comment of a report, unless it differs from the one the report was first read under. |
| BusProperties.ReopenedWasPublished | backend/control/reviewer_bus.py:87-177 | What was reopened had been processed and was published by Codex again in an earlier poll. |
| BusExample.ProcessedReportIsContinued | backend/control/reviewer_bus.py:87-177 | Two polls after which that condition holds, and the third one that continues the report: its old comment is deleted, and the one Codex published is edited to an unlisted type. |
| ModelRouter.SelectedIsStrongest | backend/control/model_router.py:35-107 | When a profile is selected, both ways: preferred one allowed and within the escalation limit, and this the strongest profile that policy and every remaining budget admit, a weaker one only by downgrade. |
| ModelRouter.EscalationIsCapped | backend/control/model_router.py:78-92 | The escalation limit caps the selected profile, unless the last failure cannot escalate: then the limit has no influence at all. |
| DayRunner.DayRunner.Start | backend/orchestrator/day_runner.py:54-69 | The refusals in order, or a fresh queue that is advanced. |
| DayRunner.DayRunner.Resume | backend/orchestrator/day_runner.py:71-82 | The refusals in order, or the same Day advanced. |
| DayRunner.DayRunner.Advance | backend/orchestrator/day_runner.py:89-102 | The loop: for arbitrary answers it ends, in a state other than RUNNING; its measure is the architect calls left. |
| DayRunner.DayRunner.ProcessOne | backend/orchestrator/day_runner.py:104-168 | One turn: at most one architect call, its tokens counted, its choice followed. |
| DayRunner.DayRunner.ExecuteOne | backend/orchestrator/day_runner.py:170-226 | One attempt: calls and tokens counted, charged to the last profile obtained, every final result; it ends because repair loops run out. |
| DayRunner.DayRunner.EvaluateSemantic | backend/orchestrator/day_runner.py:228-277 | The evaluator's part: guards in order, one call, and accept, repair or review. |
| DayRunner.DayRunner.UpdateProgress | backend/orchestrator/day_runner.py:411-417 | Progress is the rounded share of successful items. |
| DayRunner.DayRunner.AskForReview | backend/orchestrator/day_runner.py:430-455 | The first item of that id, whatever its state, and the Day go to review. |
| DayRunner.DayRunner.SelectProfile | backend/orchestrator/day_runner.py:302-350 | The router's request from the remaining role and day budgets; a refusal sends the Day to review. |
| ScheduleHistory.RunsKeepToPlan | backend/orchestrator/day_runner.py:54-285 | Over any starts, resumes, stops, restarts and deaths at any save of a run, for arbitrary answers: architect, evaluator, task, retry and replan counters and repair loops stay within the plan, Codex calls too if the executor honours its cap. |
| ScheduleHistory.OpsAreTheScheduler | backend/orchestrator/day_runner.py:54-87 | Without a death the operations of a history are the start and the resume of the scheduler. |
| ScheduleHistory.RunsKeepTallies | backend/orchestrator/day_runner.py:104-285 | In every reachable state, deaths included, `failed_tasks` is the number of failed items, progress is the share of successes, and every item of a COMPLETE Day succeeded. |
| ScheduleEnds.SettledExactlyWhenEnded | backend/orchestrator/day_runner.py:170-277 | The attempts at an item settle it exactly when one of them makes the save of `_update_progress` with the item ended. |
| ScheduleEnds.TurnAfterEnd | backend/orchestrator/day_runner.py:211-285 | A turn goes on from that save with the failure limit and the completion check alone, whether the item was executed, evaluated or skipped. |
| ScheduleEnds.SuccessfulExactly | backend/orchestrator/day_runner.py:279-285 | Over any history every item succeeded exactly when the Day is COMPLETE, or a run of this Day died between the save of its last item's end and the one that completes it. |
| ScheduleEnds.StrandedDayCanEnd | backend/orchestrator/day_runner.py:89-147 | A Day left so can still become COMPLETE, by any further operations, exactly when a resume would reach the architect: it is paused or stopped, has a configured plan that allows a task, and the architect has calls, budget, provider and profile. |
| ScheduleEnds.LastCallStrands | backend/orchestrator/day_runner.py:411-423 | A Day whose only architect call skips its only task: after a death at that save progress reads 100 and no continuation makes it COMPLETE; without the death it is COMPLETE at once. |
| ScheduleHistory.SettledForTheDay | backend/orchestrator/day_runner.py:104-285 | However a Day goes on, an item that succeeded or failed never changes again and progress never falls. |
| ScheduleHistory.FullProgressMeansSuccess | backend/orchestrator/day_runner.py:408-423 | For queues under 20,000 tasks progress reads 100 exactly when every item succeeded. |
| ScheduleHistory.TokensAreConserved | backend/orchestrator/day_runner.py:362-367 | With a router, gross, cached and output tokens over profiles equal those over roles in every reachable state, also after a process died, and uncached ones if no report has more cached input than input. |
| ScheduleHistory.SystemTaskIsRewritten | backend/orchestrator/day_runner.py:430-443 | A plan with a task named SYSTEM: a finished item is sent back to review and progress stays. |
| ScheduleQueue.FullProgressIsExact | backend/orchestrator/day_runner.py:411-416 | 20,000 is the exact bound: for every longer queue some incomplete one reads 100. |
| ScheduleQueue.ReviewKeepsSettled | backend/orchestrator/day_runner.py:441-443 | A review spares the settled items exactly when the first item of its id is not settled. |
| ScheduleQueue.ProcessedKeepsSettled | backend/orchestrator/day_runner.py:104-226 | One turn leaves settled items alone, the tallies right, and unless all items had succeeded before, completes the Day exactly when now they all have. |
| ScheduleTokens.AttemptBalances | backend/orchestrator/day_runner.py:196-205 | One attempt keeps roles and profiles in balance exactly when it reported nothing or was charged to a profile. |
| ScheduleTokens.ChargeKeepsBalance | backend/control/model_router.py:121-129 | Counting a report for a role and charging it to a profile keeps the balance. |
| ScheduleTokens.UncachedTotalsAgree | backend/orchestrator/day_runner.py:473-475 | A clamped sum is the sum of clamped reports exactly when no report has more cached input than input, or none has less. |
| SettlementProperties.OtherDaysAreProjected | backend/control/run_product_composition.py:131-132 | For every run that is not COMPLETE and a Day that is not: settling is accepted exactly when the Day is the current run's by run, day and fingerprint, and then the run gains one version with the Day's state and its authority blocker or stop reason; otherwise nothing changes and the reply is a rejection. |
| SettlementProperties.CompleteRunIsCompared | backend/control/run_product_composition.py:91-130 | Settling a COMPLETE run writes nothing; each of its four answers, each exactly when. |
| SettlementProperties.RecordedExactly | backend/control/run_product_composition.py:63-85 | Telemetry is recorded exactly for the current run's own terminal Day from acceptable records, and replayed exactly when equal. |
| BindingSources.BoundRecordCarriesItsSource | backend/control/run_execution_composition.py:134-207 | After an accepted bind every record that is not hidden carries the value, provider, fingerprint, file hashes and provenance of the record it was bound from; with shared criterion ids, of the last one bound under its id. |
| BindingSources.VerificationNoticesFiles | backend/control/run_execution_composition.py:223-279 | With the adapter's project and nothing hidden, a bound snapshot verifies with other files exactly when no file hashed by a source has changed, and is otherwise refused as invalid evidence. |
| BindingSources.ReplayNoticesFiles | backend/control/run_product_composition.py:103-110 | Settling a COMPLETE run again is refused at the evidence exactly when such a file has changed. |
| BindingConditions.BindAcceptedExactly | backend/control/run_execution_composition.py:119-191 | When a bind is accepted, both ways, said of the run, the Day and its records: valid, of this contract, bound to none or to exactly this run, criterion and configuration. |
| BindingConditions.VerifyAcceptedExactly | backend/control/run_execution_composition.py:223-279 | When a verification accepts, both ways, in the same terms, with every record under the id it proves. |
| BindingConditions.FingerprintMeansSame | backend/control/local_llm_day_program.py:1891-1905 | Equal contract fingerprints mean the same day, version, definition and, for each criterion, one that says and requires the same. |
| RunOutcome.GoCreates | backend/control/run_composition.py:53-123 | A Go makes a run exactly when the current one has ended and its id is new, in the state it was admitted in. |
| RunOutcome.EvaluationIsWritten | backend/control/run_execution_composition.py:78-117 | Exactly a satisfied evaluation of the run's own Day is written, to the first criterion of its id and next to what it had. |
| RunOutcome.AttemptReachesRun | backend/control/run_execution_composition.py:287-305 | An attempt reaches the run exactly when it may be taken: one version with the state it led to, taken over by the controller. |
| RunOutcome.ReviewIsRequested | backend/control/run_execution_composition.py:307-325 | A report is asked about exactly when it serves no other run and nothing is outstanding. |
| RunOutcome.ResponseMovesExactly | backend/control/run_execution_composition.py:327-382 | A response moves its run on exactly when it answers the outstanding report in time and its continuation took effect. |
| RunOutcome.DecisionIsBound | backend/control/run_execution_composition.py:384-398 | A decision is bound to a run exactly when it serves no other one. |
| RunOutcome.HumanStepExactly | backend/control/run_execution_composition.py:400-457 | Words are held against the request of this run alone, and exactly an accepted confirmation moves the run on. |
| RunOutcome.NothingServesTwoRuns | backend/control/run_execution_composition.py:307-398 | Over any run of a process no report is held for two runs and no decision is bound to two. |
| RepairRecovery.AttemptOutcome | backend/control/repair_recovery.py:49-84 | What an attempt comes to, and each of its answers exactly when. |
| RepairRecovery.ReviewOutcome | backend/control/repair_recovery.py:86-105 | A review counts exactly when the run waits for it and it names the run, the Day and the failure. |
| ReviewControl.FailedExactly | backend/control/review_control.py:44-101 | Over any run a delivery has failed exactly when it timed out or was unwatched and no report was sent since. |
| HumanDecision.ReceivedExactly | backend/control/human_decision.py:63-92 | A response is a decision exactly when it was said directly, gives its basis and repeats the terms of the last request of its decision id. |
| HumanDecision.RefusedIsNeverConfirmed | backend/control/human_decision.py:158-161 | A record that the reviewer refused is never confirmed, whatever replies come later. |
| HumanDecision.FailedExactly | backend/control/human_decision.py:171-175 | Over any run a delivery has failed exactly when it was marked so. |
| RepairOutcome.EndedExactly | backend/control/local_llm_day_program.py:801-972 | Over any crashes and resumes an episode has the outcome that a step gave it, each by its own answer: LOCAL_VERIFIED exactly by a local proposal that was new, in scope and verified. |
| RepairOutcome.ExpertIsAskedOnce | backend/control/local_llm_day_program.py:871-892 | Once the expert has answered, it is not asked again and nothing more is proposed, through any crashes and resumes. |
| DayStateMachine.EnteredFrom | backend/control/day_state_machine.py:1-31 | The transition table by where it leads to. |
| DayLoopOutcome.CycleOutcome | backend/control/local_llm_day_program.py:1089-1165 | The state after one cycle: STOPPED, COMPLETE, each authority state and FAILED_UNRECOVERABLE exactly when. |
| DayLoopOutcome.WorkerOutcome | backend/control/local_llm_day_program.py:1049-1165 | For any answers: COMPLETE exactly when the last cycle was not stopped, did not raise on evaluation and found no gap; STOPPED exactly when it was stopped; an authority state exactly when its answers, or the checks before the loop, ask for that authority. |
| DayLoopOutcome.CompletedByARun | backend/control/local_llm_day_program.py:1049-1165 | Over the whole life of a Day it is COMPLETE exactly when some run of the worker completed it so. |
| DayLoopDiagnosis.DiagnosesExactly | backend/control/local_llm_day_program.py:1168-1204 | Every gap gets its registered strategy, classified by the last attempt on the same inputs. |
| DayLoopDiagnosis.SelectionOrder | backend/control/local_llm_day_program.py:1206-1227 | What is selected reads if any candidate reads, is the checkpoint if none reads; then the least strategy, then the least criterion. |
| DayLoopDiagnosis.CycleRecords | backend/control/local_llm_day_program.py:1328-1402 | A Day that comes to wait for an authority has on record who is asked and about which template. |
| DayLoopDiagnosis.AttemptIsLogged | backend/control/local_llm_day_program.py:1289-1318 | What the log of an action holds, also when it raised. |
| DayEvidenceRetained.ValidIsRecorded | backend/control/local_llm_day_program.py:1510-1537 | Exactly the valid observations become records, with their value and hashes, and for no run. |
| DayEvidenceRetained.CompatibleWhileRetained | backend/control/local_llm_day_program.py:1453-1460 | A record of the resolver is compatible exactly while its type is retained and valid. |
| DayEvidenceRetained.RetainedSatisfies | backend/control/local_llm_day_program.py:1405-1436 | A criterion whose evidence is all retained and valid, with unchanged files, has no gap after an evaluation. |
| RecoveryOutcome.RecoveryEndsBy | backend/control/reviewer_recovery.py:42-146 | Over any events and deaths a recovery is RESOLVED exactly when a poll found its replacement applied, and ESCALATED exactly when one found it failed, overdue or at its end. |
| RecoveryOutcome.PublishedExactly | backend/control/reviewer_recovery.py:83-146 | When a replacement is published and when an attempt is counted, both ways. |
| RecoveryOutcome.WaitsExactly | backend/control/reviewer_recovery.py:65-97 | When a recovery waits for its replacement, and when it notices the reply. |
| RecoveryOutcome.PublicationIsConfirmed | backend/control/reviewer_recovery.py:88-97 | A publication is confirmed exactly when one comment alone carries its id, with its origin and commit. |
| BusContinuation.ProcessedExactly | backend/control/reviewer_bus.py:128-177 | Over any events a report is processed exactly when in some poll its reply was handed over and Codex ended without a report or delivered one. |
| BusContinuation.UndeliveredIsHandedAgain | backend/control/reviewer_bus.py:128-166 | After any events: a reply that was not delivered stays pending, its report is CONTINUATION_FAILED if Codex failed, and the next poll with the same inputs hands the same reply over again, exactly unless its confirmation fails, a repair blocks the report, or it was processed before. |
| BusContinuation.DeliveredIsSettled | backend/control/reviewer_bus.py:152-177 | A delivered reply settles its report, clears what was pending, and what Codex published is waited for next. |
| BusOutcome.SynchronizedReport | backend/control/reviewer_bus.py:233-288 | What synchronizing makes of a report, however often it is listed. |
| BusOutcome.FilesOutcome | backend/control/reviewer_bus.py:316-371 | Every entry after its file was read, by its own answer; the pending reply is dropped exactly when its file is out of order. |
| BusOutcome.InvalidPendingIsDropped | backend/control/reviewer_bus.py:290-314 | A pending file that belongs to nothing any more is dropped, and exactly the reports it was read for start a recovery. |
| BusOutcome.TurnIs | backend/control/reviewer_bus.py:207-226 | With nothing pending the first report with its reply is taken, and only without one the first that waits. |
| BusOutcome.NothingHanded | backend/control/reviewer_bus.py:472-526 | What a poll leaves that hands no comment over: a blocked confirmation, a dropped reply, or a stray one. |
| BusOutcome.DeliveryCloses | backend/control/reviewer_bus.py:405-421 | A delivered confirmation closes the wait it confirms, exactly if that report waited for a person. |
| ModelRouter.SelectedByRequest | backend/control/model_router.py:35-71 | What a call ends with, by complexity and failure: each refusal, the profile and its transport, exactly when. |
| ModelRouter.ChargedExactly | backend/control/model_router.py:121-129 | A charge grows one profile by the report, and no other. |
| ScheduleTurns.FailedCall | backend/orchestrator/day_runner.py:124-139 | A failed architect call goes on exactly when the error is retryable and a retry is left, with one retry counted and the queue unchanged; otherwise the Day is in review. |
| ScheduleTurns.TurnWithoutCall | backend/orchestrator/day_runner.py:104-122 | A turn without a call: the limit, the budget, the router or the provider, in this order. |
| ScheduleTurns.AnsweredCall | backend/orchestrator/day_runner.py:140-168 | What each choice of the architect comes to, and that one that cannot be followed costs a replan and then a review. |
| ScheduleTurns.RetriesAreRetryableErrors | backend/orchestrator/day_runner.py:124-139 | Over any history the retries of a Day are its retryable errors, up to the plan's limit. |
| ScheduleOutcome.AttemptOutcome | backend/orchestrator/day_runner.py:170-221 | The attempts that end in review or at the Codex limit. |
| ScheduleOutcome.EvaluationOutcome | backend/orchestrator/day_runner.py:228-274 | What an evaluation ends with that neither accepts nor starts a repair, each exactly when. |
| ScheduleOutcome.RunCounts | backend/orchestrator/day_runner.py:190-203 | What an attempt is given and what it counts. |
| ScheduleOutcome.RoutedExactly | backend/orchestrator/day_runner.py:302-350 | A routed call is placed on the profile that its complexity and failure call for, or on a weaker one only if that does not fit and the plan allows it. |
| ScheduleOutcome.RoutedWithinBudgets | backend/orchestrator/day_runner.py:322-337 | Which profiles fit what is left of the role's budget and of the Day's. |
| ScheduleOutcome.ContinuousRun | backend/orchestrator/day_runner.py:89-102 | In continuous mode a run ends only when its tasks are spent or a turn ends it. |
| ScheduleOutcome.StartAccepted | backend/orchestrator/day_runner.py:54-69 | When a start is accepted, both ways. |
| ScheduleOutcome.ResumeAccepted | backend/orchestrator/day_runner.py:71-82 | When a resume is accepted, both ways, and with what the Day goes on. |
| ScheduleOutcome.TurnKeepsFailures | backend/orchestrator/day_runner.py:279-285 | A turn never lets a Day go on with more failures than its plan allows. |
| ScheduleOutcome.ReviewIsNeverLeft | backend/orchestrator/day_runner.py:54-87 | A Day in review is left by no operation of the scheduler: whatever follows it stays as it is, and no other Day can be started. |

## Left out

- UI, HTTP routes, launch scripts, dashboards, prompts and audit texts: no state of their own.
- Subprocesses, git, GitHub, Codex, Ollama and OpenAI calls: their answers are arbitrary.
- JSON, base64, regular expressions, hashing and pydantic: parsed fields, injective tuples and predicates.
- StateManager and the YAML configuration are not part of this model; plans, contracts and strategies are parameters.
- Per-type evidence validators and the retained-evidence resolvers: one arbitrary predicate and arbitrary observations.
- The Week 1 program, goal policy, next action, faults and experiments: lists without a loop or state property.
- Malformed input to a controller: it raises before anything changes, so it has no step.
- The identity checks that the evidence adapter makes on results built by the bind itself: they compare values the bind has just written, so they never fail.
- Contract fingerprints: criteria that share an id compare as a multiset, so their mutual order is not in the fingerprint.
- Composition maps hold controller values: two names for one controller object are not modelled.
- One clock reading per step; a step under a lock is atomic. Crashes are modelled where something is persisted before an effect: the history file, action attempts and their outcomes, external submissions, the publication of a recovery and every save of the scheduler.
- Failures of saving the Day snapshot, the episode store or an audit record are not modelled; the Day contract is loaded.
- DayLoopOnce.WorkerEnds: the inputs of a cycle are one fingerprint, taken as fixed; the registry gives the Day 1 checkpoint to the checkpoint routine, and every strategy sent to repair has a valid repair order. The two endless examples lack exactly these.
- DayWorker: gaps and evaluation results of a cycle are arbitrary; they are not computed from the evidence store here.
- DayEvidenceProperties.ReevaluationFindsTheBound: assumes the same as the next one.
- DayEvidenceRestart.ReevaluationKeepsTheBind: assumes a Day after the first, the adapter's project, distinct criterion ids, and that records bound earlier to the same run and criterion are older than the bind.
- BusContinuation.UndeliveredIsHandedAgain: comments have distinct ids, as the repository host gives them.
- BusOutcome.SynchronizedReport: a processed report that asks for no reply, and for which a person was asked, changes state with each comment that lists it; its state is stated for one such comment.
- ReviewerBus: the rules that bind a confirmation to its wait are one arbitrary answer, and `recover_outstanding_report` is not modelled; comment id 0 and missing keys that raise are not either.
- ScheduleHistory.FullProgressMeansSuccess: progress is the exact quotient rounded half to even to two decimals; the source rounds a floating-point quotient, whose error is not modelled.
- ScheduleHistory.RunsKeepTallies: plans have distinct task ids and none named SYSTEM; the example shows why.
- ScheduleHistory.RunsKeepToPlan: a plan does not change while its Day runs; calls a process made before it died and had not saved are in no counter; an answer that raises something other than a provider error is not modelled.
- ModelRouter.SelectedIsStrongest: the registry holds the three required profiles; further ones can never be selected.
- Routing decision logs, budget warnings, escalation events, call counts, durations and the list of tasks without AI use are recorded by the scheduler and never read back.
- That at most one item is running is not claimed: an evaluator limit leaves an item running, and a resume never picks it again.
