/** The composition of the run controllers around one store, as it runs: every method is one step of `RunWorld`. */
module RunExecution {
  import opened Prelude
  import opened DayModels
  import opened RunStore
  import opened EvidenceCompletion
  import opened EvidenceBinding
  import opened RunWorld
  import opened RunProperties
  import RR = RepairRecovery
  import RC = ReviewControl
  import RN = ReviewContinuation
  import HD = HumanDecision

  class RunExecutionComposition {
    const store: JsonRunStore
    const env: Env
    var day: DaySnapshot
    var repairs: map<Id, RR.Repair>
    var reviews: map<Id, RC.Review>
    var reportOwners: map<Id, Id>
    var humans: map<Id, HD.Decisions>
    var requests: map<Id, HD.Request>
    var decisionOwners: map<Id, Id>

    function State(): World reads this, store {
      World(store.State(), day, repairs, reviews, reportOwners, humans, requests, decisionOwners)
    }

    constructor (store: JsonRunStore, env: Env, day: DaySnapshot)
      ensures this.store == store && this.env == env
      ensures State() == World(store.State(), day, map[], map[], map[], map[], map[], map[])
    {
      this.store, this.env, this.day := store, env, day;
      repairs, reviews, reportOwners, humans, requests, decisionOwners := map[], map[], map[], map[], map[], map[];
    }

    /** Whether this run is the one the store reports as current. */
    method IsCurrentRun(run: Id) returns (current: bool)
      requires StoreOk(store.State())
      ensures current <==> IsCurrent(store.State(), run)
    {
      forall r | r in store.files ensures store.files[r].intent.runId == r { StoredIdentity(store.State(), r); }
      var found := store.Current();
      current := found == Some(run);
      if found.Some? && IsCurrent(store.State(), run) { CurrentUnique(store.State(), run, found.value); }
    }

    method Advance(record: RunRecord, state: DayState, blocker: Option<Blocker>, now: Time, accepted: Reply) returns (reply: Reply)
      modifies store
      ensures (State(), reply) == Advancing(old(State()), record, state, blocker, now, accepted)
    {
      hide CheckUpdate, UpdateSpec, StoreOk;
      var control := RunControl(record.intent.runId, record.intent.selectedDay, record.intent.contractFingerprint, state,
                                record.control.history + [record.control.state], blocker, blocker.Some?,
                                if now > record.control.updatedAt then now else record.control.updatedAt + 1);
      var next := RunRecord(record.intent, control);
      assert next == Advanced(record, state, blocker, now);
      var result := store.Update(next, record.control.updatedAt);
      assert State() == old(State()).(store := store.State());
      reply := if result == Updated then accepted else StoreRefused(result);
    }

    method ProjectDayState(run: Id, now: Time) returns (reply: Reply)
      requires StoreOk(store.State())
      modifies store
      ensures (State(), reply) == Project(old(State()), run, now)
    {
      hide StoreOk, CheckUpdate, UpdateSpec, IsCurrent, CompletionReady, ReviewPending, Advancing;
      var found := store.Get(run);
      if found == None { return RunUnknown; }
      var record := found.value;
      StoredIdentity(store.State(), run);
      var current := IsCurrentRun(run);
      if !current { return Rejected(RunNotCurrent); }
      if day.runId != Some(run) { return Rejected(SnapshotRunMismatch); }
      if day.selectedDay != Some(record.intent.selectedDay) { return Rejected(DayIdentity); }
      if day.contract == None { return Rejected(ContractMissing); }
      if FingerprintOf(day.contract.value) != record.intent.contractFingerprint { return Rejected(FingerprintMismatch); }
      if day.state == COMPLETE {
        var ready := IsCompletionReady(record);
        if !ready { return Rejected(EvidenceIncomplete); }
        var pending := IsReviewPending(record);
        if pending { return Rejected(RequiredReviewUnverified); }
      }
      var blocker := if day.authorityBlocker.Some? then day.authorityBlocker else day.stopReason;
      reply := Advance(record, day.state, blocker, now, Accepted);
    }

    method IsReviewPending(record: RunRecord) returns (pending: bool)
      ensures pending == ReviewPending(State(), record)
    {
      if record.control.blocker == Some(ReviewResponseRequired) { return true; }
      return record.intent.runId in reviews && reviews[record.intent.runId].state != Some(RC.VERIFIED);
    }

    /** No gap remains and every referenced record, of which there is one, was validated for this run. */
    method IsCompletionReady(record: RunRecord) returns (ready: bool)
      ensures ready == CompletionReady(State(), record)
    {
      if day.contract == None || day.contract.value.remainingGaps != [] { return false; }
      var criteria := day.contract.value.criteria;
      var some := false;
      var i := 0;
      while i < |criteria|
        invariant 0 <= i <= |criteria|
        invariant some <==> exists c :: c in criteria[..i] && c.recordIds != map[]
        invariant forall c, t :: c in criteria[..i] && t in c.recordIds ==>
                    && c.recordIds[t] in day.evidence
                    && day.evidence[c.recordIds[t]].runId == Some(record.intent.runId)
                    && day.evidence[c.recordIds[t]].validatorResult
      {
        var c := criteria[i];
        assert c in criteria;
        assert criteria[..i + 1] == criteria[..i] + [c];
        if exists t :: t in c.recordIds
                       && !(c.recordIds[t] in day.evidence
                            && day.evidence[c.recordIds[t]].runId == Some(record.intent.runId)
                            && day.evidence[c.recordIds[t]].validatorResult) {
          return false;
        }
        some := some || c.recordIds != map[];
        i := i + 1;
      }
      assert criteria[..i] == criteria;
      return some;
    }

    /** The checks of one criterion's sources, in order; the results to adapt when all of them pass. */
    method CollectForBinding(intent: RunIntent, contract: Contract, c: Criterion) returns (reason: Option<Reason>, results: seq<RawResult>)
      ensures reason == BindSourcesReason(env, intent, contract, day, c, 0)
      ensures reason == None ==> results == ResultsOf(intent, day, c)
    {
      reason, results := None, [];
      var j := 0;
      while j < |c.required|
        invariant 0 <= j <= |c.required| && reason == None
        invariant BindSourcesReason(env, intent, contract, day, c, 0) == BindSourcesReason(env, intent, contract, day, c, j)
        invariant results == ResultsOf(intent, day, c)[..j]
      {
        reason := BindSourceReason(env, intent, contract, day, c, c.required[j]);
        if reason.Some? { return; }
        results := results + [RawOf(intent, c, SourceOf(day, c, c.required[j]))];
        j := j + 1;
      }
    }

    method CollectForVerification(intent: RunIntent, contract: Contract, c: Criterion) returns (reason: Option<Reason>, results: seq<RawResult>)
      ensures reason == VerifySourcesReason(env, intent, contract, day, c, 0)
      ensures reason == None ==> results == ResultsOf(intent, day, c)
    {
      reason, results := None, [];
      var j := 0;
      while j < |c.required|
        invariant 0 <= j <= |c.required| && reason == None
        invariant VerifySourcesReason(env, intent, contract, day, c, 0) == VerifySourcesReason(env, intent, contract, day, c, j)
        invariant results == ResultsOf(intent, day, c)[..j]
      {
        reason := VerifySourceReason(env, intent, contract, day, c, c.required[j]);
        if reason.Some? { return; }
        results := results + [RawOf(intent, c, SourceOf(day, c, c.required[j]))];
        j := j + 1;
      }
    }

    /** Binds the Day's evidence to the run: every criterion is made ready first, and only then is any of them changed. */
    method BindDayEvidence(run: Id, at: Time) returns (reply: Reply)
      requires StoreOk(store.State())
      modifies this`day
      ensures (State(), reply) == Bind(env, old(State()), run, at)
    {
      hide StoreOk, IsCurrent, FingerprintOf, EvaluationOf, BindSourcesReason, BindCriterion, BindUpTo, Stored, Bindings, Settled;
      var found := store.Get(run);
      if found == None { return RunUnknown; }
      var record := found.value;
      StoredIdentity(store.State(), run);
      var current := IsCurrentRun(run);
      if !current { return Rejected(RunNotCurrent); }
      if day.runId != Some(run) { return Rejected(SnapshotRunMismatch); }
      if day.contract == None || day.contract.value.day != record.intent.selectedDay { return Rejected(ContractMismatch); }
      if FingerprintOf(day.contract.value) != record.intent.contractFingerprint { return Rejected(FingerprintMismatch); }
      var contract := day.contract.value;
      var reason, pending := CollectPending(record.intent, contract, at);
      if reason.Some? { return Rejected(reason.value); }
      ApplyPending(contract, pending);
      return Accepted;
    }

    method CollectPending(intent: RunIntent, contract: Contract, at: Time) returns (reason: Option<Reason>, pending: seq<Pending>)
      ensures var r := BindUpTo(env, intent, contract, day, |contract.criteria|, at);
              if reason.Some? then r == BindRefused(reason.value) else r == AllReady(pending) && |pending| == |contract.criteria|
    {
      hide EvaluationOf, BindSourcesReason, ResultsOf;
      reason, pending := None, [];
      var i := 0;
      while i < |contract.criteria|
        invariant 0 <= i <= |contract.criteria| && reason == None && |pending| == i
        invariant BindUpTo(env, intent, contract, day, i, at) == AllReady(pending)
      {
        var c := contract.criteria[i];
        var results;
        reason, results := CollectForBinding(intent, contract, c);
        if reason == None {
          var e := EvaluateCriterion(env, intent, contract, c.id, results, at);
          if e.Evaluated? && e.satisfied {
            pending := pending + [Pending(e.ids, e.records)];
          } else {
            reason := Some(BindingIncomplete);
          }
        }
        if reason.Some? {
          assert BindUpTo(env, intent, contract, day, i + 1, at) == BindRefused(reason.value);
          RefusedStays(env, intent, contract, day, i + 1, |contract.criteria|, at);
          return;
        }
        i := i + 1;
      }
    }

    method ApplyPending(contract: Contract, pending: seq<Pending>)
      requires day.contract == Some(contract) && |pending| == |contract.criteria|
      modifies this`day
      ensures day == BoundDay(old(day), contract, pending)
    {
      var evidence, criteria := day.evidence, contract.criteria;
      var i := 0;
      while i < |pending|
        invariant 0 <= i <= |pending| && |criteria| == |contract.criteria|
        invariant evidence == Stored(day.evidence, pending[..i])
        invariant forall k :: 0 <= k < |criteria| ==>
                    criteria[k] == if k < i then contract.criteria[k].(recordIds := pending[k].ids, satisfied := true) else contract.criteria[k]
      {
        assert pending[..i + 1][..i] == pending[..i];
        evidence := evidence + pending[i].records;
        criteria := criteria[i := criteria[i].(recordIds := pending[i].ids, satisfied := true)];
        i := i + 1;
      }
      assert pending[..i] == pending;
      assert criteria == Bindings(contract.criteria, pending);
      var satisfied := IdsWhere(criteria, true);
      var gaps := IdsWhere(criteria, false);
      day := day.(evidence := evidence,
                  contract := Some(contract.(criteria := criteria, satisfiedCriteria := satisfied, remainingGaps := gaps)));
    }

    method IdsWhere(criteria: seq<Criterion>, satisfied: bool) returns (ids: seq<Id>)
      ensures ids == SatisfiedIds(criteria, satisfied)
    {
      ids := [];
      var i := 0;
      while i < |criteria|
        invariant 0 <= i <= |criteria| && ids == SatisfiedIds(criteria[..i], satisfied)
      {
        assert criteria[..i + 1][..i] == criteria[..i];
        if criteria[i].satisfied == satisfied { ids := ids + [criteria[i].id]; }
        i := i + 1;
      }
      assert criteria[..i] == criteria;
    }

    /** Verifies an already bound snapshot; nothing changes. */
    method VerifyBoundDayEvidence(run: Id, at: Time) returns (reply: Reply)
      requires StoreOk(store.State())
      ensures reply == Verify(env, State(), run, at)
    {
      hide StoreOk, IsCurrent, FingerprintOf, EvaluationOf, VerifySourcesReason, ResultsOf;
      var found := store.Get(run);
      if found == None { return RunUnknown; }
      var record := found.value;
      StoredIdentity(store.State(), run);
      var current := IsCurrentRun(run);
      if !current { return Rejected(RunNotCurrent); }
      if day.runId != Some(run) { return Rejected(SnapshotRunMismatch); }
      if day.contract == None || day.contract.value.day != record.intent.selectedDay { return Rejected(ContractMismatch); }
      if FingerprintOf(day.contract.value) != record.intent.contractFingerprint { return Rejected(FingerprintMismatch); }
      var contract := day.contract.value;
      var i := 0;
      while i < |contract.criteria|
        invariant 0 <= i <= |contract.criteria|
        invariant VerifyReason(env, record.intent, contract, day, 0, at) == VerifyReason(env, record.intent, contract, day, i, at)
      {
        var c := contract.criteria[i];
        var reason, results := CollectForVerification(record.intent, contract, c);
        if reason.Some? { return Rejected(reason.value); }
        var e := EvaluateCriterion(env, record.intent, contract, c.id, results, at);
        if !e.Evaluated? || !e.satisfied || e.ids != c.recordIds { return Rejected(BoundEvidenceConflict); }
        i := i + 1;
      }
      return Accepted;
    }

    method EvaluateRunCriterion(run: Id, criterion: Id, results: seq<RawResult>, at: Time) returns (reply: Reply)
      requires StoreOk(store.State())
      modifies this`day
      ensures (State(), reply) == Evaluate(env, old(State()), run, criterion, results, at)
    {
      hide StoreOk, FingerprintOf, EvaluationOf, SatisfiedIds;
      var found := store.Get(run);
      if found == None { return RunUnknown; }
      var record := found.value;
      StoredIdentity(store.State(), run);
      if day.runId != Some(run) { return Rejected(SnapshotRunMismatch); }
      if day.contract == None || day.contract.value.day != record.intent.selectedDay { return Rejected(ContractMismatch); }
      if FingerprintOf(day.contract.value) != record.intent.contractFingerprint { return Rejected(FingerprintMismatch); }
      var contract := day.contract.value;
      var e := EvaluateCriterion(env, record.intent, contract, criterion, results, at);
      if !e.Evaluated? || !e.satisfied { return EvaluationView(e); }
      var criteria := UpdateFirst(contract.criteria, criterion, e.ids);
      var satisfied := IdsWhere(criteria, true);
      var gaps := IdsWhere(criteria, false);
      day := day.(evidence := day.evidence + e.records,
                  contract := Some(contract.(criteria := criteria, satisfiedCriteria := satisfied, remainingGaps := gaps)));
      return EvaluationView(e);
    }

    method UpdateFirst(criteria: seq<Criterion>, id: Id, ids: map<EvidenceType, RecordId>) returns (updated: seq<Criterion>)
      ensures updated == WithFirst(criteria, id, ids)
    {
      var i := 0;
      while i < |criteria|
        invariant 0 <= i <= |criteria|
        invariant PositionOf(criteria, id, 0) == PositionOf(criteria, id, i)
      {
        if criteria[i].id == id {
          return criteria[i := criteria[i].(recordIds := criteria[i].recordIds + ids, satisfied := true)];
        }
        i := i + 1;
      }
      return criteria;
    }

    // ----- repairs -----

    method BeginRepairEpisode(run: Id, allowed: set<Id>) returns (reply: Reply)
      modifies this`repairs
      ensures (State(), reply) == BeginRepair(old(State()), run, allowed)
    {
      var found := store.Get(run);
      if found == None { return RunUnknown; }
      repairs := repairs[run := RR.Begin(found.value, allowed)];
      return Accepted;
    }

    method RecordRepairAttempt(run: Id, attempt: RR.Attempt, at: Time, now: Time) returns (reply: Reply)
      modifies this`repairs, store
      ensures (State(), reply) == RecordRepair(old(State()), run, attempt, at, now)
    {
      hide StoreOk, CheckUpdate, UpdateSpec, RR.AttemptRecorded;
      if run !in repairs {
        var found := store.Get(run);
        return if found.Some? then Rejected(RepairNotBound) else RunUnknown;
      }
      var before := repairs[run];
      var (after, status) := RR.AttemptRecorded(before, attempt, at);
      reply := PersistControllerRecord(run, before, after, now, status);
    }

    method ApplyRepairReview(run: Id, review: RR.Review, at: Time, now: Time) returns (reply: Reply)
      modifies this`repairs, store
      ensures (State(), reply) == ReviewRepair(old(State()), run, review, at, now)
    {
      hide StoreOk, CheckUpdate, UpdateSpec, RR.ReviewApplied;
      if run !in repairs {
        var found := store.Get(run);
        return if found.Some? then Rejected(RepairNotBound) else RunUnknown;
      }
      var before := repairs[run];
      var (after, status) := RR.ReviewApplied(before, review, at);
      reply := PersistControllerRecord(run, before, after, now, status);
    }

    method PersistControllerRecord(run: Id, before: RR.Repair, after: RR.Repair, now: Time, status: RR.Status) returns (reply: Reply)
      modifies this`repairs, store
      ensures (State(), reply) == Persist(old(State()), run, before, after, now, status)
    {
      hide StoreOk, CheckUpdate, UpdateSpec;
      repairs := repairs[run := after];
      if after.record.control == before.record.control { return RepairView(status); }
      var found := store.Get(after.record.intent.runId);
      if found == None { return RunUnknown; }
      var current := found.value;
      var control := after.record.control.(history := current.control.history + [current.control.state],
                                           updatedAt := NextTime(current.control.updatedAt, now));
      var record := RunRecord(current.intent, control);
      repairs := repairs[run := after.(record := record)];
      assert repairs == old(repairs)[run := after.(record := record)];
      var result := store.Update(record, current.control.updatedAt);
      return if result == Updated then RepairView(status) else StoreRefused(result);
    }

    // ----- reviews -----

    method RequestRunReview(run: Id, report: Id, at: Time, now: Time) returns (reply: Reply)
      modifies this`reviews, this`reportOwners, store
      ensures (State(), reply) == RequestReview(old(State()), run, report, at, now)
    {
      hide StoreOk, CheckUpdate, UpdateSpec, Advancing, RC.Sent;
      var found := store.Get(run);
      if found == None { return RunUnknown; }
      if report in reportOwners && reportOwners[report] != run { return Rejected(ReportBoundToOtherRun); }
      var control := if run in reviews then reviews[run] else RC.NewReview;
      var sent := RC.Sent(control, report, at);
      reviews := reviews[run := sent.0];
      if sent.1 != RC.Accepted { return ReviewView(sent.1); }
      reportOwners := reportOwners[report := run];
      reply := Advance(found.value, HUMAN_ACTION_REQUIRED, Some(ReviewResponseRequired), now, ReviewView(sent.1));
    }

    /** Applies one response only after its correlation and the read back of its effect. */
    method ApplyReviewResponse(run: Id, response: RC.Response, at: Time, effect: Effect, now: Time) returns (reply: Reply)
      modifies this`reviews, store
      ensures (State(), reply) == RespondReview(old(State()), run, response, at, effect, now)
    {
      hide StoreOk, CheckUpdate, UpdateSpec, Advancing, RC.Received, RC.Applied, RC.Verified, ContinuationOf;
      var found := store.Get(run);
      if found == None { return RunUnknown; }
      if run !in reviews { return Rejected(ReviewNotBound); }
      var received := RC.Received(reviews[run], response, at, true);
      reviews := reviews[run := received.0];
      if received.1 != RC.Accepted { return ReviewView(received.1); }
      reviews := reviews[run := RC.Applied(received.0, response.responseId).0];
      assert reviews == old(reviews)[run := RC.Applied(received.0, response.responseId).0];
      var state := Continue(response.inReplyTo, response.responseId, effect);
      if state != RN.VERIFIED { return ContinuationView(state); }
      reviews := reviews[run := RC.Verified(reviews[run], effect.observed).0];
      assert reviews == old(reviews)[run := reviews[run]];
      reply := Advance(found.value, PREFLIGHT, None, now, ContinuationView(RN.VERIFIED));
    }

    /** Runs the continuation of one response: begin, finish, and verify once an effect was observed. */
    method Continue(report: Id, response: Id, effect: Effect) returns (state: RN.ContinuationState)
      ensures state == ContinuationOf(report, response, effect).state
    {
      var continuation := new RN.Control(report, response);
      var begun := continuation.Begin(report, response);
      var finished := continuation.Finish(effect.exitCode, effect.envelopeValid, effect.downstream);
      if continuation.state == RN.APPLIED && effect.observed != None {
        var verified := continuation.Verify(effect.observed);
      }
      return continuation.state;
    }

    // ----- human decisions -----

    method BindHumanDecision(run: Id, request: HD.Request, now: Time) returns (reply: Reply)
      modifies this`decisionOwners, this`requests, this`humans, store
      ensures (State(), reply) == BindHuman(old(State()), run, request, now)
    {
      hide StoreOk, CheckUpdate, UpdateSpec, Advancing;
      var found := store.Get(run);
      if found == None { return RunUnknown; }
      if request.decision in decisionOwners && decisionOwners[request.decision] != run { return Rejected(DecisionBoundToOtherRun); }
      decisionOwners := decisionOwners[request.decision := run];
      requests := requests[run := request];
      humans := humans[run := if run in humans then humans[run] else HD.NoDecisions];
      reply := Advance(found.value, HUMAN_ACTION_REQUIRED, Some(HumanDecisionRequired), now, Accepted);
    }

    /** Receives a response, builds a confirmation or applies one; an accepted confirmation returns the run to PREFLIGHT. */
    method HandleHumanEvent(run: Id, event: HD.Event, now: Time) returns (reply: Reply)
      modifies this`humans, store
      ensures (State(), reply) == Human(old(State()), run, event, now)
    {
      hide StoreOk, CheckUpdate, UpdateSpec, Advancing, HD.After, HD.OutcomeOf;
      var found := store.Get(run);
      if run !in humans || (event.Receive? && run !in requests) || (!event.Receive? && event.record >= |humans[run].records|) {
        return if found.Some? then Rejected(DecisionNotBound) else RunUnknown;
      }
      var e := if event.Receive? then event.(requests := [requests[run]]) else event;
      var outcome := HD.OutcomeOf(humans[run], e);
      humans := humans[run := HD.After(humans[run], e)];
      if !e.Apply? || outcome != HD.Accepted { return DecisionView(outcome); }
      if found == None { return RunUnknown; }
      reply := Advance(found.value, PREFLIGHT, None, now, DecisionView(outcome));
    }

    // ----- creating a run -----

    /** Go: refused while the current run is not terminal, otherwise a first version with an empty history. */
    method GoRun(intent: RunIntent, admission: Admission, now: Time) returns (started: bool)
      requires StoreOk(store.State())
      modifies store
      ensures State() == Go(old(State()), intent, admission, now)
      ensures started ==> !old(Busy(store.State())) && intent.runId in store.files
    {
      hide StoreOk, IsCurrent;
      forall r | r in store.files ensures store.files[r].intent.runId == r { StoredIdentity(store.State(), r); }
      var current := store.Current();
      if current.Some? {
        forall run | IsCurrent(store.State(), run) ensures run == current.value {
          CurrentUnique(store.State(), run, current.value);
        }
      } else {
        assert store.files == map[];
      }
      if current.Some? && !Terminal(store.files[current.value].control.state) { return false; }
      started := store.Create(AdmittedRecord(intent, admission, now));
    }
  }
}
