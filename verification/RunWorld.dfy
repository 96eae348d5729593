/**
 * One process around one run store: the Day snapshot, the controllers bound to runs, and what each step does.
 *
 * A step that raises for an unknown run replies `RunUnknown`; a store update that raises replies `StoreRefused`.
 */
module RunWorld {
  import opened Prelude
  import opened DayModels
  import opened RunStore
  import opened EvidenceCompletion
  import opened EvidenceBinding
  import RR = RepairRecovery
  import RC = ReviewControl
  import RN = ReviewContinuation
  import HD = HumanDecision

  datatype World = World(
    store: Store, day: DaySnapshot, repairs: map<Id, RR.Repair>, reviews: map<Id, RC.Review>, reportOwners: map<Id, Id>,
    humans: map<Id, HD.Decisions>, requests: map<Id, HD.Request>, decisionOwners: map<Id, Id>)

  datatype Reply =
    | Accepted | Rejected(reason: Reason) | RunUnknown | StoreRefused(why: UpdateResult)
    | EvaluationView(evaluation: Evaluation)
    | RepairView(status: RR.Status)
    | ReviewView(review: RC.Outcome)
    | ContinuationView(state: RN.ContinuationState)
    | DecisionView(decision: HD.Outcome)

  // ----- advancing a run -----

  function NextTime(previous: Time, now: Time): Time { if now > previous then now else previous + 1 }

  function Advanced(record: RunRecord, state: DayState, blocker: Option<Blocker>, now: Time): RunRecord {
    RunRecord(record.intent,
              RunControl(record.intent.runId, record.intent.selectedDay, record.intent.contractFingerprint, state,
                         record.control.history + [record.control.state], blocker, blocker.Some?,
                         NextTime(record.control.updatedAt, now)))
  }

  /** Updates the store; `reply` is what the caller hears when the store accepts. */
  function Updating(w: World, record: RunRecord, expected: Time, reply: Reply): (World, Reply) {
    var result := CheckUpdate(w.store, record, expected);
    (w.(store := UpdateSpec(w.store, record, expected)), if result == Updated then reply else StoreRefused(result))
  }

  function Advancing(w: World, record: RunRecord, state: DayState, blocker: Option<Blocker>, now: Time, reply: Reply): (World, Reply) {
    Updating(w, Advanced(record, state, blocker, now), record.control.updatedAt, reply)
  }

  // ----- projecting the Day -----

  predicate CompletionReady(w: World, record: RunRecord) {
    && w.day.contract.Some? && w.day.contract.value.remainingGaps == []
    && (exists c :: c in w.day.contract.value.criteria && c.recordIds != map[])
    && forall c, t :: c in w.day.contract.value.criteria && t in c.recordIds ==>
         && c.recordIds[t] in w.day.evidence
         && w.day.evidence[c.recordIds[t]].runId == Some(record.intent.runId)
         && w.day.evidence[c.recordIds[t]].validatorResult
  }

  predicate ReviewPending(w: World, record: RunRecord) {
    || record.control.blocker == Some(ReviewResponseRequired)
    || (record.intent.runId in w.reviews && w.reviews[record.intent.runId].state != Some(RC.VERIFIED))
  }

  function ProjectReason(w: World, record: RunRecord): Option<Reason> {
    if !IsCurrent(w.store, record.intent.runId) then Some(RunNotCurrent)
    else if w.day.runId != Some(record.intent.runId) then Some(SnapshotRunMismatch)
    else if w.day.selectedDay != Some(record.intent.selectedDay) then Some(DayIdentity)
    else if w.day.contract == None then Some(ContractMissing)
    else if FingerprintOf(w.day.contract.value) != record.intent.contractFingerprint then Some(FingerprintMismatch)
    else if w.day.state == COMPLETE && !CompletionReady(w, record) then Some(EvidenceIncomplete)
    else if w.day.state == COMPLETE && ReviewPending(w, record) then Some(RequiredReviewUnverified)
    else None
  }

  function Project(w: World, run: Id, now: Time): (World, Reply) {
    if run !in w.store.files then (w, RunUnknown)
    else
      var record := w.store.files[run];
      var reason := ProjectReason(w, record);
      if reason.Some? then (w, Rejected(reason.value))
      else
        var blocker := if w.day.authorityBlocker.Some? then w.day.authorityBlocker else w.day.stopReason;
        Advancing(w, record, w.day.state, blocker, now, Accepted)
  }

  // ----- evidence -----

  /** The identity checks every use of the Day's evidence starts with. */
  function DayReason(w: World, record: RunRecord): (reason: Option<Reason>)
    ensures reason == None ==> w.day.contract.Some? && w.day.contract.value.day == record.intent.selectedDay
  {
    if w.day.runId != Some(record.intent.runId) then Some(SnapshotRunMismatch)
    else if w.day.contract == None || w.day.contract.value.day != record.intent.selectedDay then Some(ContractMismatch)
    else if FingerprintOf(w.day.contract.value) != record.intent.contractFingerprint then Some(FingerprintMismatch)
    else None
  }

  function CurrentDayReason(w: World, record: RunRecord): (reason: Option<Reason>)
    ensures reason == None ==> w.day.contract.Some? && w.day.contract.value.day == record.intent.selectedDay
  {
    if !IsCurrent(w.store, record.intent.runId) then Some(RunNotCurrent) else DayReason(w, record)
  }

  lemma {:induction false} UpToLength(env: Env, intent: RunIntent, contract: Contract, day: DaySnapshot, n: nat, at: Time)
    requires n <= |contract.criteria|
    ensures var r := BindUpTo(env, intent, contract, day, n, at); r.AllReady? ==> |r.pending| == n
  {
    if n > 0 { UpToLength(env, intent, contract, day, n - 1, at); }
  }

  /** The bound snapshot, or the reason there is none. */
  datatype BindOutcome = NotBound(reason: Reason) | BoundTo(day: DaySnapshot)

  function BindAll(env: Env, intent: RunIntent, contract: Contract, day: DaySnapshot, at: Time): BindOutcome {
    var r := BindUpTo(env, intent, contract, day, |contract.criteria|, at);
    if r.BindRefused? then NotBound(r.reason)
    else
      UpToLength(env, intent, contract, day, |contract.criteria|, at);
      BoundTo(BoundDay(day, contract, r.pending))
  }

  function Bind(env: Env, w: World, run: Id, at: Time): (World, Reply) {
    if run !in w.store.files then (w, RunUnknown)
    else
      var record := w.store.files[run];
      var reason := CurrentDayReason(w, record);
      if reason.Some? then (w, Rejected(reason.value))
      else
        match BindAll(env, record.intent, w.day.contract.value, w.day, at)
        case NotBound(reason) => (w, Rejected(reason))
        case BoundTo(day) => (w.(day := day), Accepted)
  }

  function Verify(env: Env, w: World, run: Id, at: Time): Reply {
    if run !in w.store.files then RunUnknown
    else
      var record := w.store.files[run];
      var reason := CurrentDayReason(w, record);
      if reason.Some? then Rejected(reason.value)
      else
        var why := VerifyReason(env, record.intent, w.day.contract.value, w.day, 0, at);
        if why.Some? then Rejected(why.value) else Accepted
  }

  /** The position of the first criterion of this id, from position `i` on. */
  function PositionOf(criteria: seq<Criterion>, id: Id, i: nat): (k: nat)
    requires i <= |criteria|
    ensures i <= k <= |criteria|
    decreases |criteria| - i
  {
    if i == |criteria| || criteria[i].id == id then i else PositionOf(criteria, id, i + 1)
  }

  function WithFirst(criteria: seq<Criterion>, id: Id, ids: map<EvidenceType, RecordId>): seq<Criterion> {
    var k := PositionOf(criteria, id, 0);
    if k == |criteria| then criteria
    else criteria[k := criteria[k].(recordIds := criteria[k].recordIds + ids, satisfied := true)]
  }

  function Evaluate(env: Env, w: World, run: Id, criterion: Id, results: seq<RawResult>, at: Time): (World, Reply) {
    if run !in w.store.files then (w, RunUnknown)
    else
      var record := w.store.files[run];
      var reason := DayReason(w, record);
      if reason.Some? then (w, Rejected(reason.value))
      else
        var contract := w.day.contract.value;
        var e := EvaluationOf(env, record.intent, contract, criterion, results, at);
        if !e.Evaluated? || !e.satisfied then (w, EvaluationView(e))
        else
          (w.(day := w.day.(evidence := w.day.evidence + e.records,
                            contract := Some(Settled(contract, WithFirst(contract.criteria, criterion, e.ids))))),
           EvaluationView(e))
  }

  // ----- repairs -----

  function BeginRepair(w: World, run: Id, allowed: set<Id>): (World, Reply) {
    if run !in w.store.files then (w, RunUnknown)
    else (w.(repairs := w.repairs[run := RR.Begin(w.store.files[run], allowed)]), Accepted)
  }

  /** The controller's record on top of the stored one, as it is written and kept. */
  function Adjusted(controller: RunRecord, current: RunRecord, now: Time): RunRecord {
    RunRecord(current.intent,
              controller.control.(history := current.control.history + [current.control.state],
                                  updatedAt := NextTime(current.control.updatedAt, now)))
  }

  function Persist(w: World, run: Id, before: RR.Repair, after: RR.Repair, now: Time, status: RR.Status): (World, Reply) {
    if after.record.control == before.record.control then (w.(repairs := w.repairs[run := after]), RepairView(status))
    else if after.record.intent.runId !in w.store.files then (w.(repairs := w.repairs[run := after]), RunUnknown)
    else
      var current := w.store.files[after.record.intent.runId];
      var record := Adjusted(after.record, current, now);
      Updating(w.(repairs := w.repairs[run := after.(record := record)]), record, current.control.updatedAt, RepairView(status))
  }

  function RecordRepair(w: World, run: Id, attempt: RR.Attempt, at: Time, now: Time): (World, Reply) {
    if run !in w.repairs then (w, if run in w.store.files then Rejected(RepairNotBound) else RunUnknown)
    else
      var before := w.repairs[run];
      var (after, status) := RR.AttemptRecorded(before, attempt, at);
      Persist(w, run, before, after, now, status)
  }

  function ReviewRepair(w: World, run: Id, review: RR.Review, at: Time, now: Time): (World, Reply) {
    if run !in w.repairs then (w, if run in w.store.files then Rejected(RepairNotBound) else RunUnknown)
    else
      var before := w.repairs[run];
      var (after, status) := RR.ReviewApplied(before, review, at);
      Persist(w, run, before, after, now, status)
  }

  // ----- reviews -----

  function ReviewOf(w: World, run: Id): RC.Review {
    if run in w.reviews then w.reviews[run] else RC.NewReview
  }

  function RequestReview(w: World, run: Id, report: Id, at: Time, now: Time): (World, Reply) {
    if run !in w.store.files then (w, RunUnknown)
    else if report in w.reportOwners && w.reportOwners[report] != run then (w, Rejected(ReportBoundToOtherRun))
    else
      var (review, outcome) := RC.Sent(ReviewOf(w, run), report, at);
      if outcome != RC.Accepted then (w.(reviews := w.reviews[run := review]), ReviewView(outcome))
      else
        Advancing(w.(reviews := w.reviews[run := review], reportOwners := w.reportOwners[report := run]), w.store.files[run], HUMAN_ACTION_REQUIRED,
                  Some(ReviewResponseRequired), now, ReviewView(outcome))
  }

  /** What a reviewer response brings along: how the continuation ended and which effect was read back. */
  datatype Effect = Effect(exitCode: int, envelopeValid: bool, downstream: Option<Id>, observed: Option<Id>)

  /** The continuation that one response starts, run to its end. */
  function ContinuationOf(report: Id, response: Id, effect: Effect): RN.Continuation {
    var begun := RN.Begun(RN.New(report, response), report, response).0;
    var finished := RN.Finished(begun, effect.exitCode, effect.envelopeValid, effect.downstream).0;
    if finished.state != RN.APPLIED || effect.observed == None then finished else RN.Verified(finished, effect.observed).0
  }

  function RespondReview(w: World, run: Id, response: RC.Response, at: Time, effect: Effect, now: Time): (World, Reply) {
    if run !in w.store.files then (w, RunUnknown)
    else if run !in w.reviews then (w, Rejected(ReviewNotBound))
    else
      var (received, outcome) := RC.Received(w.reviews[run], response, at, true);
      if outcome != RC.Accepted then (w.(reviews := w.reviews[run := received]), ReviewView(outcome))
      else
        var applied := RC.Applied(received, response.responseId).0;
        var continuation := ContinuationOf(response.inReplyTo, response.responseId, effect);
        if continuation.state != RN.VERIFIED then
          (w.(reviews := w.reviews[run := applied]), ContinuationView(continuation.state))
        else
          var verified := RC.Verified(applied, effect.observed).0;
          Advancing(w.(reviews := w.reviews[run := verified]), w.store.files[run], PREFLIGHT, None, now,
                    ContinuationView(RN.VERIFIED))
  }

  // ----- human decisions -----

  function BindHuman(w: World, run: Id, request: HD.Request, now: Time): (World, Reply) {
    if run !in w.store.files then (w, RunUnknown)
    else if request.decision in w.decisionOwners && w.decisionOwners[request.decision] != run then
      (w, Rejected(DecisionBoundToOtherRun))
    else
      var control := if run in w.humans then w.humans[run] else HD.NoDecisions;
      Advancing(w.(decisionOwners := w.decisionOwners[request.decision := run], requests := w.requests[run := request],
                   humans := w.humans[run := control]),
                w.store.files[run], HUMAN_ACTION_REQUIRED, Some(HumanDecisionRequired), now, Accepted)
  }

  /** A step of the human control itself; only a confirmation that is accepted moves the run. */
  function Human(w: World, run: Id, event: HD.Event, now: Time): (World, Reply) {
    if run !in w.humans || (event.Receive? && run !in w.requests)
       || (!event.Receive? && event.record >= |w.humans[run].records|) then
      (w, if run in w.store.files then Rejected(DecisionNotBound) else RunUnknown)
    else
      var d := w.humans[run];
      var e := if event.Receive? then event.(requests := [w.requests[run]]) else event;
      var outcome := HD.OutcomeOf(d, e);
      var humans := w.humans[run := HD.After(d, e)];
      if e.Apply? && outcome == HD.Accepted then
        if run !in w.store.files then (w.(humans := humans), RunUnknown)
        else Advancing(w.(humans := humans), w.store.files[run], PREFLIGHT, None, now, DecisionView(outcome))
      else (w.(humans := humans), DecisionView(outcome))
  }

  // ----- creating runs -----

  predicate Terminal(s: DayState) {
    s == COMPLETE || s == STOPPED || s == FAILED || s == FAILED_UNRECOVERABLE
  }

  predicate Busy(s: Store) {
    exists run :: run in s.files && IsCurrent(s, run) && !Terminal(s.files[run].control.state)
  }

  datatype Admission = ADMISSIBLE | NEEDS_HUMAN(reason: Blocker) | NEEDS_EXTERNAL(reason: Blocker)

  function AdmittedRecord(intent: RunIntent, admission: Admission, now: Time): RunRecord {
    var state := match admission
                 case ADMISSIBLE => PREFLIGHT
                 case NEEDS_HUMAN(_) => HUMAN_ACTION_REQUIRED
                 case NEEDS_EXTERNAL(_) => EXTERNAL_ACTION_REQUIRED;
    var blocker := if admission == ADMISSIBLE then None else Some(admission.reason);
    RunRecord(intent, RunControl(intent.runId, intent.selectedDay, intent.contractFingerprint, state, [], blocker, blocker.Some?, now))
  }

  /** The executor that follows an admitted Go acts on the Day snapshot only: see `DayWorks`. */
  function Go(w: World, intent: RunIntent, admission: Admission, now: Time): World {
    if Busy(w.store) then w else w.(store := CreateSpec(w.store, AdmittedRecord(intent, admission, now)))
  }

  // ----- any run of one process -----

  datatype Step =
    | GoStep(intent: RunIntent, admission: Admission, now: Time)
    | DayWorks(day: DaySnapshot)
    | ProjectStep(run: Id, now: Time)
    | EvaluateStep(run: Id, criterion: Id, results: seq<RawResult>, now: Time)
    | BindStep(run: Id, now: Time)
    | BeginRepairStep(run: Id, allowed: set<Id>)
    | RecordRepairStep(run: Id, attempt: RR.Attempt, at: Time, now: Time)
    | ReviewRepairStep(run: Id, review: RR.Review, at: Time, now: Time)
    | RequestReviewStep(run: Id, report: Id, at: Time, now: Time)
    | RespondReviewStep(run: Id, response: RC.Response, at: Time, effect: Effect, now: Time)
    | BindHumanStep(run: Id, request: HD.Request, now: Time)
    | HumanStep(run: Id, event: HD.Event, now: Time)

  function After(env: Env, w: World, s: Step): (World, Reply) {
    match s
    case GoStep(intent, admission, now) => (Go(w, intent, admission, now), Accepted)
    case DayWorks(day) => (w.(day := day), Accepted)
    case ProjectStep(run, now) => Project(w, run, now)
    case EvaluateStep(run, criterion, results, now) => Evaluate(env, w, run, criterion, results, now)
    case BindStep(run, now) => Bind(env, w, run, now)
    case BeginRepairStep(run, allowed) => BeginRepair(w, run, allowed)
    case RecordRepairStep(run, attempt, at, now) => RecordRepair(w, run, attempt, at, now)
    case ReviewRepairStep(run, review, at, now) => ReviewRepair(w, run, review, at, now)
    case RequestReviewStep(run, report, at, now) => RequestReview(w, run, report, at, now)
    case RespondReviewStep(run, response, at, effect, now) => RespondReview(w, run, response, at, effect, now)
    case BindHumanStep(run, request, now) => BindHuman(w, run, request, now)
    case HumanStep(run, event, now) => Human(w, run, event, now)
  }
}
