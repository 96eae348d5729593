/** The bounded repair episode of one run: at most `maxAttempts` attempts, then one reviewed recheck. */
module RepairRecovery {
  import opened Prelude
  import opened DayModels

  datatype Attempt = Attempt(
    runId: Id, day: nat, failure: Fingerprint, action: Fingerprint, changedPaths: set<Id>,
    git: Fingerprint, seconds: nat, passed: bool)

  /** The digest of run, day and failure, so it is injective in them. */
  datatype RequestId = RequestId(runId: Id, day: nat, failure: Fingerprint)

  datatype ReviewResult = RECHECK | REJECT

  datatype Review = Review(request: RequestId, runId: Id, day: nat, failure: Fingerprint, result: ReviewResult)

  datatype Status =
    | RunIdentityMismatch | AttemptLimitExhausted | ActiveWorkBudgetExceeded | GitFingerprintMismatch
    | RepairScopeRejected
    | Revalidating | AttemptLimitReached | RevalidationFailed
    | ReviewCorrelationMismatch | ReviewRejectedRepair | Rechecking

  datatype Repair = Repair(
    record: RunRecord, allowedPaths: set<Id>, attempts: seq<Attempt>, request: Option<RequestId>,
    repeatedFailure: Option<Fingerprint>)
  {
    function Limit(): nat { record.intent.limits.maxAttempts }
  }

  function Begin(record: RunRecord, allowedPaths: set<Id>): Repair {
    Repair(record, allowedPaths, [], None, None)
  }

  function GuardReason(r: Repair, a: Attempt): Option<Status> {
    if a.runId != r.record.intent.runId || a.day != r.record.intent.selectedDay then Some(RunIdentityMismatch)
    else if |r.attempts| >= r.Limit() then Some(AttemptLimitExhausted)
    else if a.seconds > r.record.intent.limits.activeWorkSeconds then Some(ActiveWorkBudgetExceeded)
    else if a.git != r.record.intent.gitFingerprint then Some(GitFingerprintMismatch)
    else if a.changedPaths == {} || !(a.changedPaths <= r.allowedPaths) then Some(RepairScopeRejected)
    else None
  }

  function Moved(record: RunRecord, state: DayState, blocker: Option<Blocker>, now: Time): RunRecord {
    RunRecord(record.intent,
              RunControl(record.control.runId, record.control.selectedDay, record.control.contractFingerprint, state,
                         record.control.history + [record.control.state], blocker, blocker.Some?, now))
  }

  function Count(attempts: seq<Attempt>, failure: Fingerprint): nat {
    if attempts == [] then 0
    else Count(attempts[..|attempts| - 1], failure) + if attempts[|attempts| - 1].failure == failure then 1 else 0
  }

  function AttemptRecorded(r: Repair, a: Attempt, now: Time): (Repair, Status) {
    var reason := GuardReason(r, a);
    if reason.Some? then (r, reason.value)
    else
      var after := r.(attempts := r.attempts + [a]);
      if a.passed then (after.(record := Moved(r.record, REVALIDATING, None, now)), Revalidating)
      else if Count(after.attempts, a.failure) >= r.Limit() then
        (after.(record := Moved(r.record, HUMAN_ACTION_REQUIRED, Some(RepeatedFailureAttemptLimit), now),
                request := Some(RequestId(a.runId, a.day, a.failure)), repeatedFailure := Some(a.failure)),
         AttemptLimitReached)
      else (after.(record := Moved(r.record, DIAGNOSING_GAP, None, now)), RevalidationFailed)
  }

  predicate Expected(r: Repair, review: Review) {
    && r.record.control.state == HUMAN_ACTION_REQUIRED
    && r.request == Some(review.request)
    && review.runId == r.record.intent.runId && review.day == r.record.intent.selectedDay
    && r.repeatedFailure == Some(review.failure)
  }

  function ReviewApplied(r: Repair, review: Review, now: Time): (Repair, Status) {
    if !Expected(r, review) then (r, ReviewCorrelationMismatch)
    else if review.result == REJECT then (r, ReviewRejectedRepair)
    else (r.(record := Moved(r.record, PREFLIGHT, None, now)), Rechecking)
  }

  class RepairRecoveryController {
    var record: RunRecord
    const allowedPaths: set<Id>
    var attempts: seq<Attempt>
    var request: Option<RequestId>
    var repeatedFailure: Option<Fingerprint>

    function State(): Repair reads this { Repair(record, allowedPaths, attempts, request, repeatedFailure) }

    constructor (record: RunRecord, allowedPaths: set<Id>)
      ensures State() == Begin(record, allowedPaths)
    {
      this.record, this.allowedPaths := record, allowedPaths;
      attempts, request, repeatedFailure := [], None, None;
    }

    method RecordAttempt(a: Attempt, now: Time) returns (status: Status)
      modifies this
      ensures (State(), status) == AttemptRecorded(old(State()), a, now)
    {
      var reason := GuardReason(State(), a);
      if reason.Some? { return reason.value; }
      attempts := attempts + [a];
      if a.passed {
        SetControl(REVALIDATING, None, now);
        return Revalidating;
      }
      var same := CountSame(a.failure);
      if same >= record.intent.limits.maxAttempts {
        repeatedFailure := Some(a.failure);
        request := Some(RequestId(a.runId, a.day, a.failure));
        SetControl(HUMAN_ACTION_REQUIRED, Some(RepeatedFailureAttemptLimit), now);
        return AttemptLimitReached;
      }
      SetControl(DIAGNOSING_GAP, None, now);
      return RevalidationFailed;
    }

    method CountSame(failure: Fingerprint) returns (n: nat)
      ensures n == Count(attempts, failure)
    {
      n := 0;
      var i := 0;
      while i < |attempts|
        invariant 0 <= i <= |attempts| && n == Count(attempts[..i], failure)
      {
        assert attempts[..i + 1][..i] == attempts[..i];
        if attempts[i].failure == failure { n := n + 1; }
        i := i + 1;
      }
      assert attempts[..i] == attempts;
    }

    method ApplyReview(review: Review, now: Time) returns (status: Status)
      modifies this
      ensures (State(), status) == ReviewApplied(old(State()), review, now)
    {
      if !Expected(State(), review) { return ReviewCorrelationMismatch; }
      if review.result == REJECT { return ReviewRejectedRepair; }
      SetControl(PREFLIGHT, None, now);
      return Rechecking;
    }

    method SetControl(state: DayState, blocker: Option<Blocker>, now: Time)
      modifies this`record
      ensures record == Moved(old(record), state, blocker, now)
    {
      var prior := record.control;
      record := RunRecord(record.intent,
                          RunControl(prior.runId, prior.selectedDay, prior.contractFingerprint, state,
                                     prior.history + [prior.state], blocker, blocker.Some?, now));
    }
  }

  // ----- one controller over any run -----

  /** What can happen to a controller; `Persisted` is the rewrite of history and time by the composition. */
  datatype Event =
    | Attempted(attempt: Attempt, at: Time)
    | Reviewed(review: Review, at: Time)
    | Persisted(history: seq<DayState>, at: Time)

  function After(r: Repair, e: Event): Repair {
    match e
    case Attempted(a, at) => AttemptRecorded(r, a, at).0
    case Reviewed(review, at) => ReviewApplied(r, review, at).0
    case Persisted(history, at) => r.(record := r.record.(control := r.record.control.(history := history, updatedAt := at)))
  }

  function AfterAll(r: Repair, events: seq<Event>): Repair {
    if events == [] then r else After(AfterAll(r, events[..|events| - 1]), events[|events| - 1])
  }

  predicate Taken(r: Repair, e: Event) {
    e.Attempted? && GuardReason(r, e.attempt) == None
  }

  predicate Rechecks(r: Repair, e: Event) {
    e.Reviewed? && Expected(r, e.review) && e.review.result == RECHECK
  }

  function RecheckCount(r: Repair, events: seq<Event>): nat {
    if events == [] then 0
    else
      var before := events[..|events| - 1];
      RecheckCount(r, before) + if Rechecks(AfterAll(r, before), events[|events| - 1]) then 1 else 0
  }

  predicate Exhausted(r: Repair) {
    && |r.attempts| == r.Limit()
    && r.repeatedFailure.Some?
    && (forall i :: 0 <= i < |r.attempts| ==> r.attempts[i].failure == r.repeatedFailure.value)
    && r.request == Some(RequestId(r.record.intent.runId, r.record.intent.selectedDay, r.repeatedFailure.value))
  }

  predicate InScope(intent: RunIntent, allowed: set<Id>, a: Attempt) {
    && a.runId == intent.runId && a.day == intent.selectedDay && a.git == intent.gitFingerprint
    && a.seconds <= intent.limits.activeWorkSeconds
    && a.changedPaths != {} && a.changedPaths <= allowed
  }

  predicate RepairOk(r: Repair) {
    && |r.attempts| <= r.Limit()
    && (forall i :: 0 <= i < |r.attempts| ==> InScope(r.record.intent, r.allowedPaths, r.attempts[i]))
    && (r.request.Some? ==> Exhausted(r))
  }

  lemma {:induction false} CountBound(attempts: seq<Attempt>, failure: Fingerprint)
    ensures Count(attempts, failure) <= |attempts|
    ensures Count(attempts, failure) == |attempts| <==> forall i :: 0 <= i < |attempts| ==> attempts[i].failure == failure
  {
    if attempts != [] { CountBound(attempts[..|attempts| - 1], failure); }
  }

  /** The last allowed attempt, failing like all the others. */
  predicate LastOfAKind(r: Repair, e: Event) {
    && Taken(r, e) && !e.attempt.passed && |r.attempts| + 1 == r.Limit()
    && forall i :: 0 <= i < |r.attempts| ==> r.attempts[i].failure == e.attempt.failure
  }

  lemma LastAttemptCounts(r: Repair, e: Event)
    requires RepairOk(r) && Taken(r, e) && !e.attempt.passed
    ensures LastOfAKind(r, e) <==> Count(r.attempts + [e.attempt], e.attempt.failure) >= r.Limit()
  {
    var attempts, n := r.attempts + [e.attempt], |r.attempts|;
    CountBound(attempts, e.attempt.failure);
    assert attempts[n] == e.attempt;
    if forall i :: 0 <= i <= n ==> attempts[i].failure == e.attempt.failure {
      forall i | 0 <= i < n ensures r.attempts[i].failure == e.attempt.failure { assert attempts[i] == r.attempts[i]; }
    }
  }

  lemma TakenKeepsRepair(r: Repair, a: Attempt, at: Time)
    requires RepairOk(r) && 0 < r.Limit() && GuardReason(r, a) == None
    ensures var r' := AttemptRecorded(r, a, at).0;
            && RepairOk(r') && !Exhausted(r)
            && (r'.record.control.state == HUMAN_ACTION_REQUIRED ==> Exhausted(r'))
  {
    var r' := AttemptRecorded(r, a, at).0;
    CountBound(r'.attempts, a.failure);
  }

  /** One step: what it keeps, and exactly when it moves the run to HUMAN_ACTION_REQUIRED. */
  lemma StepKeepsRepair(r: Repair, e: Event)
    requires RepairOk(r) && 0 < r.Limit()
    ensures var r' := After(r, e);
            && RepairOk(r') && r'.record.intent == r.record.intent && r'.allowedPaths == r.allowedPaths
            && (Exhausted(r) ==> r'.attempts == r.attempts && Exhausted(r'))
            && (LastOfAKind(r, e) ==> r'.record.control.state == HUMAN_ACTION_REQUIRED && Exhausted(r') && !Exhausted(r))
            && (r'.record.control.state == HUMAN_ACTION_REQUIRED ==>
                  r.record.control.state == HUMAN_ACTION_REQUIRED || LastOfAKind(r, e))
            && r'.record.control.state in
                 {r.record.control.state, REVALIDATING, HUMAN_ACTION_REQUIRED, DIAGNOSING_GAP, PREFLIGHT}
  {
    if Taken(r, e) {
      TakenKeepsRepair(r, e.attempt, e.at);
      if !e.attempt.passed { LastAttemptCounts(r, e); }
    }
  }

  lemma {:induction false} RunKeepsRepair(record: RunRecord, allowed: set<Id>, events: seq<Event>)
    requires 0 < record.intent.limits.maxAttempts
    ensures var r := AfterAll(Begin(record, allowed), events);
            RepairOk(r) && r.record.intent == record.intent && r.allowedPaths == allowed
  {
    if events != [] {
      var before := events[..|events| - 1];
      RunKeepsRepair(record, allowed, before);
      StepKeepsRepair(AfterAll(Begin(record, allowed), before), events[|events| - 1]);
    }
  }

  /**
   * Over any run of one controller: never more than `maxAttempts` attempts, all within the allowed paths
   * and on the fingerprinted tree; a review is asked for only once every attempt has failed the same way;
   * from then on no attempt is taken; and at most one recheck ever takes effect.
   */
  lemma {:induction false} RepairIsBounded(record: RunRecord, allowed: set<Id>, events: seq<Event>)
    requires 0 < record.intent.limits.maxAttempts
    ensures var r := AfterAll(Begin(record, allowed), events);
            && |r.attempts| <= record.intent.limits.maxAttempts
            && (forall i :: 0 <= i < |r.attempts| ==> InScope(record.intent, allowed, r.attempts[i]))
            && (r.request.Some? ==> Exhausted(r) && forall e :: !Taken(r, e))
            && RecheckCount(Begin(record, allowed), events) <= 1
            && (RecheckCount(Begin(record, allowed), events) == 1 ==>
                  r.request.Some? && r.record.control.state != HUMAN_ACTION_REQUIRED)
  {
    var start := Begin(record, allowed);
    RunKeepsRepair(record, allowed, events);
    if events != [] {
      var before := events[..|events| - 1];
      RunKeepsRepair(record, allowed, before);
      RepairIsBounded(record, allowed, before);
      StepKeepsRepair(AfterAll(start, before), events[|events| - 1]);
    }
  }

  // ----- what one attempt and one review come to -----

  /** An attempt that may be taken: in scope, and not all attempts are used. */
  predicate MayTake(r: Repair, a: Attempt) { InScope(r.record.intent, r.allowedPaths, a) && |r.attempts| < r.Limit() }

  /** Whether it is the last allowed one and all have failed alike. */
  predicate LastAlike(r: Repair, a: Attempt) {
    |r.attempts| + 1 == r.Limit() && forall i :: 0 <= i < |r.attempts| ==> r.attempts[i].failure == a.failure
  }

  /**
   * A refused attempt changes nothing.  One that is taken is recorded, and leads to revalidation if it passed, to a
   * review if it was the last and all failed alike, and otherwise back to the diagnosis.
   */
  lemma AttemptOutcome(r: Repair, a: Attempt, at: Time)
    requires RepairOk(r) && 0 < r.Limit()
    ensures var (r', status) := AttemptRecorded(r, a, at);
            && (!MayTake(r, a) ==> r' == r)
            && (MayTake(r, a) ==>
                  && r'.attempts == r.attempts + [a] && r'.record.intent == r.record.intent && r'.allowedPaths == r.allowedPaths
                  && r'.record.control.history == r.record.control.history + [r.record.control.state] && r'.record.control.updatedAt == at
                  && r'.record.control.state == (if a.passed then REVALIDATING else if LastAlike(r, a) then HUMAN_ACTION_REQUIRED else DIAGNOSING_GAP)
                  && r'.record.control.blocker == (if !a.passed && LastAlike(r, a) then Some(RepeatedFailureAttemptLimit) else None)
                  && r'.record.control.resumesAtPreflight == r'.record.control.blocker.Some?
                  && (r'.request, r'.repeatedFailure) ==
                       (if !a.passed && LastAlike(r, a) then (Some(RequestId(a.runId, a.day, a.failure)), Some(a.failure)) else (r.request, r.repeatedFailure)))
            && (status == Revalidating <==> MayTake(r, a) && a.passed)
            && (status == AttemptLimitReached <==> MayTake(r, a) && !a.passed && LastAlike(r, a))
            && (status == RevalidationFailed <==> MayTake(r, a) && !a.passed && !LastAlike(r, a))
            && (status == AttemptLimitExhausted <==> a.runId == r.record.intent.runId && a.day == r.record.intent.selectedDay && |r.attempts| >= r.Limit())
  {
    if MayTake(r, a) && !a.passed { LastAttemptCounts(r, Attempted(a, at)); }
  }

  /** A review counts exactly when the run waits for it and it names the run, the Day and the failure; a recheck starts over. */
  lemma ReviewOutcome(r: Repair, review: Review, at: Time)
    requires RepairOk(r)
    ensures var (r', status) := ReviewApplied(r, review, at);
            var expected := && r.record.control.state == HUMAN_ACTION_REQUIRED && r.request.Some? && review.request == r.request.value
                            && review.runId == r.record.intent.runId && review.day == r.record.intent.selectedDay
                            && review.failure == r.repeatedFailure.value;
            && (status == Rechecking <==> expected && review.result == RECHECK)
            && (status == ReviewRejectedRepair <==> expected && review.result == REJECT)
            && (status == Rechecking ==>
                  && r' == r.(record := r'.record) && r'.record.intent == r.record.intent
                  && r'.record.control.state == PREFLIGHT && r'.record.control.blocker == None && r'.record.control.updatedAt == at
                  && r'.record.control.history == r.record.control.history + [r.record.control.state])
            && (status != Rechecking ==> r' == r)
  {
  }
}
