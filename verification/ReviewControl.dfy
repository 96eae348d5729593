/** Correlating one reviewer response with one request, and watching the continuation it starts. */
module ReviewControl {
  import opened Prelude
  import opened DayModels

  const TIMEOUT_SECONDS := 600

  datatype ReviewState = SENT | RECEIVED | APPLIED | VERIFIED | DELIVERY_FAILED

  datatype Response = Response(responseId: Id, inReplyTo: Id, result: Id)

  datatype Outcome =
    | Accepted | OutstandingReportExists | DuplicateResponse | NoSentOutstandingReport | WatcherUnavailable
    | ResponseTimeout | InReplyToMismatch | MatchingResponseNotReceived | ResponseIdMismatch
    | AppliedResponseEvidenceMissing | Unchanged

  datatype Review = Review(
    report: Option<Id>, state: Option<ReviewState>, sentAt: Option<Time>, receivedAt: Option<Time>,
    response: Option<Response>, processed: set<Id>, evidence: Option<Id>)

  const NewReview := Review(None, None, None, None, None, {}, None)

  function Sent(r: Review, report: Id, at: Time): (Review, Outcome) {
    if r.report.Some? && r.state != Some(VERIFIED) && r.state != Some(DELIVERY_FAILED) then (r, OutstandingReportExists)
    else (Review(Some(report), Some(SENT), Some(at), None, None, r.processed, None), Accepted)
  }

  function Received(r: Review, response: Response, at: Time, watcher: bool): (Review, Outcome) {
    if response.responseId in r.processed then (r, DuplicateResponse)
    else if r.state != Some(SENT) || r.report == None || r.sentAt == None then (r, NoSentOutstandingReport)
    else if !watcher then (r.(state := Some(DELIVERY_FAILED)), WatcherUnavailable)
    else if at > r.sentAt.value + TIMEOUT_SECONDS then (r.(state := Some(DELIVERY_FAILED)), ResponseTimeout)
    else if Some(response.inReplyTo) != r.report then (r, InReplyToMismatch)
    else (r.(response := Some(response), receivedAt := Some(at), state := Some(RECEIVED),
             processed := r.processed + {response.responseId}), Accepted)
  }

  function Applied(r: Review, responseId: Id): (Review, Outcome) {
    if r.state != Some(RECEIVED) || r.response == None then (r, MatchingResponseNotReceived)
    else if responseId != r.response.value.responseId then (r, ResponseIdMismatch)
    else (r.(state := Some(APPLIED)), Accepted)
  }

  function Verified(r: Review, evidence: Option<Id>): (Review, Outcome) {
    if r.state != Some(APPLIED) || evidence == None then (r, AppliedResponseEvidenceMissing)
    else (r.(evidence := evidence, state := Some(VERIFIED)), Accepted)
  }

  function DeadlineChecked(r: Review, at: Time): (Review, Outcome) {
    if r.state == Some(SENT) && r.sentAt.Some? && at > r.sentAt.value + TIMEOUT_SECONDS then
      (r.(state := Some(DELIVERY_FAILED)), ResponseTimeout)
    else (r, Unchanged)
  }

  class Control {
    var report: Option<Id>
    var state: Option<ReviewState>
    var sentAt: Option<Time>
    var receivedAt: Option<Time>
    var response: Option<Response>
    var processed: set<Id>
    var evidence: Option<Id>

    function View(): Review reads this { Review(report, state, sentAt, receivedAt, response, processed, evidence) }

    constructor ()
      ensures View() == NewReview
    {
      report, state, sentAt, receivedAt, response, processed, evidence := None, None, None, None, None, {}, None;
    }

    method Send(reportId: Id, at: Time) returns (outcome: Outcome)
      modifies this
      ensures (View(), outcome) == Sent(old(View()), reportId, at)
    {
      if report.Some? && state != Some(VERIFIED) && state != Some(DELIVERY_FAILED) {
        return OutstandingReportExists;
      }
      report, state, sentAt := Some(reportId), Some(SENT), Some(at);
      receivedAt, response, evidence := None, None, None;
      return Accepted;
    }

    method Receive(raw: Response, at: Time, watcher: bool) returns (outcome: Outcome)
      modifies this
      ensures (View(), outcome) == Received(old(View()), raw, at, watcher)
    {
      if raw.responseId in processed { return DuplicateResponse; }
      if state != Some(SENT) || report == None || sentAt == None { return NoSentOutstandingReport; }
      if !watcher { state := Some(DELIVERY_FAILED); return WatcherUnavailable; }
      if at > sentAt.value + TIMEOUT_SECONDS { state := Some(DELIVERY_FAILED); return ResponseTimeout; }
      if Some(raw.inReplyTo) != report { return InReplyToMismatch; }
      response, receivedAt, state := Some(raw), Some(at), Some(RECEIVED);
      processed := processed + {raw.responseId};
      return Accepted;
    }

    method Apply(responseId: Id) returns (outcome: Outcome)
      modifies this
      ensures (View(), outcome) == Applied(old(View()), responseId)
    {
      if state != Some(RECEIVED) || response == None { return MatchingResponseNotReceived; }
      if responseId != response.value.responseId { return ResponseIdMismatch; }
      state := Some(APPLIED);
      return Accepted;
    }

    method Verify(effect: Option<Id>) returns (outcome: Outcome)
      modifies this
      ensures (View(), outcome) == Verified(old(View()), effect)
    {
      if state != Some(APPLIED) || effect == None { return AppliedResponseEvidenceMissing; }
      evidence, state := effect, Some(VERIFIED);
      return Accepted;
    }

    method CheckDeadline(at: Time) returns (outcome: Outcome)
      modifies this
      ensures (View(), outcome) == DeadlineChecked(old(View()), at)
    {
      if state == Some(SENT) && sentAt.Some? && at > sentAt.value + TIMEOUT_SECONDS {
        state := Some(DELIVERY_FAILED);
        return ResponseTimeout;
      }
      return Unchanged;
    }
  }

  // ----- one control over any run -----

  datatype Event =
    | Send(report: Id, at: Time)
    | Receive(response: Response, at: Time, watcher: bool)
    | Apply(responseId: Id)
    | Verify(evidence: Option<Id>)
    | CheckDeadline(at: Time)

  function After(r: Review, e: Event): (Review, Outcome) {
    match e
    case Send(report, at) => Sent(r, report, at)
    case Receive(response, at, watcher) => Received(r, response, at, watcher)
    case Apply(responseId) => Applied(r, responseId)
    case Verify(evidence) => Verified(r, evidence)
    case CheckDeadline(at) => DeadlineChecked(r, at)
  }

  function AfterAll(events: seq<Event>): Review {
    if events == [] then NewReview else After(AfterAll(events[..|events| - 1]), events[|events| - 1]).0
  }

  /** A response past SENT is the one in reply to the outstanding report, received within the timeout. */
  predicate Correlated(r: Review) {
    && (r.report.Some? <==> r.state.Some?) && (r.report.Some? <==> r.sentAt.Some?)
    && (r.state in {Some(RECEIVED), Some(APPLIED), Some(VERIFIED)} ==>
          && r.response.Some? && Some(r.response.value.inReplyTo) == r.report
          && r.response.value.responseId in r.processed
          && r.receivedAt.Some? && r.sentAt.Some? && r.receivedAt.value <= r.sentAt.value + TIMEOUT_SECONDS)
    && (r.state == Some(VERIFIED) ==> r.evidence.Some?)
  }

  lemma {:induction false} ReviewsAreCorrelated(events: seq<Event>)
    ensures Correlated(AfterAll(events))
  {
    if events != [] { ReviewsAreCorrelated(events[..|events| - 1]); }
  }

  predicate AcceptsResponse(events: seq<Event>, i: nat, response: Id)
    requires i < |events|
  {
    && events[i].Receive? && events[i].response.responseId == response
    && After(AfterAll(events[..i]), events[i]).1 == Accepted
  }

  lemma {:induction false} AcceptedStaysProcessed(events: seq<Event>, i: nat, n: nat, response: Id)
    requires i < n <= |events| && AcceptsResponse(events, i, response)
    ensures response in AfterAll(events[..n]).processed
    decreases n
  {
    assert events[..n][..n - 1] == events[..n - 1];
    if i < n - 1 { AcceptedStaysProcessed(events, i, n - 1, response); }
  }

  /** Over all the reports one control ever sends, a response id is accepted at most once. */
  lemma ResponseAcceptedOnce(events: seq<Event>, i: nat, j: nat, response: Id)
    requires i < |events| && j < |events|
    requires AcceptsResponse(events, i, response) && AcceptsResponse(events, j, response)
    ensures i == j
  {
    if i < j { AcceptedStaysProcessed(events, i, j, response); }
    if j < i { AcceptedStaysProcessed(events, j, i, response); }
  }

  // ----- failed deliveries -----

  /** Nothing is outstanding, so another report can be sent. */
  predicate MaySend(r: Review) { r.report == None || r.state == Some(VERIFIED) || r.state == Some(DELIVERY_FAILED) }

  /** A response that was not seen before, or a deadline check, finds the outstanding report too late or unwatched. */
  predicate TimesOut(r: Review, e: Event) {
    && r.state == Some(SENT) && r.sentAt.Some?
    && match e
       case Receive(response, at, watcher) =>
         response.responseId !in r.processed && (!watcher || at > r.sentAt.value + TIMEOUT_SECONDS)
       case CheckDeadline(at) => at > r.sentAt.value + TIMEOUT_SECONDS
       case _ => false
  }

  /** When a delivery fails and when a report is sent, both ways; a failed one is left only by the next report. */
  lemma DeliveryStep(r: Review, e: Event)
    requires Correlated(r)
    ensures var r' := After(r, e).0;
            && (r.state != Some(DELIVERY_FAILED) ==> (r'.state == Some(DELIVERY_FAILED) <==> TimesOut(r, e)))
            && (e.Send? && MaySend(r) ==> r' == Review(Some(e.report), Some(SENT), Some(e.at), None, None, r.processed, None))
            && (e.Send? && !MaySend(r) ==> r' == r)
            && (r.state == Some(DELIVERY_FAILED) && !e.Send? ==> r' == r)
  {
  }

  /** Event `k` made the delivery fail, and no report was sent since. */
  predicate FailedAt(events: seq<Event>, k: nat)
    requires k < |events|
  {
    TimesOut(AfterAll(events[..k]), events[k]) && forall j :: k < j < |events| ==> !events[j].Send?
  }

  /** Over any run: a delivery has failed exactly when it timed out, or was unwatched, and no report was sent since. */
  lemma {:induction false} FailedExactly(events: seq<Event>)
    ensures AfterAll(events).state == Some(DELIVERY_FAILED) <==> exists k: nat :: k < |events| && FailedAt(events, k)
  {
    hide After, TimesOut, Correlated;
    if events != [] {
      var n := |events| - 1;
      var before := events[..n];
      FailedExactly(before);
      ReviewsAreCorrelated(before);
      DeliveryStep(AfterAll(before), events[n]);
      TimingOutIsNoSend(AfterAll(before), events[n]);
      forall k: nat | k < n ensures FailedAt(events, k) <==> FailedAt(before, k) && !events[n].Send? {
        assert before[..k] == events[..k];
        assert forall j :: k < j < n ==> before[j] == events[j];
      }
      assert FailedAt(events, n) <==> TimesOut(AfterAll(before), events[n]);
      if k: nat :| k < n && FailedAt(before, k) { assert FailedAt(events, k) <==> !events[n].Send?; }
    }
  }

  lemma TimingOutIsNoSend(r: Review, e: Event)
    ensures TimesOut(r, e) ==> !e.Send? && r.state == Some(SENT)
  {
  }
}

/** Observing that a continuation really had its downstream effect; a process exit alone proves nothing. */
module ReviewContinuation {
  import opened Prelude
  import opened DayModels

  datatype ContinuationState =
    | RECEIVED_PENDING_APPLY | APPLYING | APPLIED | VERIFIED | CONTINUATION_FAILED | DELIVERY_FAILED

  datatype Continuation = Continuation(
    reportId: Id, responseId: Id, state: ContinuationState, exitCode: Option<int>, envelopeValid: Option<bool>,
    effect: Option<Id>)

  datatype Outcome =
    | Accepted | NotPending | IdentityMismatch | NotApplying | ProcessFailed | InvalidEnvelope | EffectNotObserved
    | NotApplied | EffectMismatch | AuthContextMismatch

  function New(report: Id, response: Id): Continuation {
    Continuation(report, response, RECEIVED_PENDING_APPLY, None, None, None)
  }

  function Begun(c: Continuation, report: Id, response: Id): (Continuation, Outcome) {
    if c.state != RECEIVED_PENDING_APPLY then (c, NotPending)
    else if report != c.reportId || response != c.responseId then (c, IdentityMismatch)
    else (c.(state := APPLYING), Accepted)
  }

  function Finished(c: Continuation, exitCode: int, valid: bool, effect: Option<Id>): (Continuation, Outcome) {
    if c.state != APPLYING then (c, NotApplying)
    else
      var seen := c.(exitCode := Some(exitCode), envelopeValid := Some(valid));
      if exitCode != 0 then (seen.(state := CONTINUATION_FAILED), ProcessFailed)
      else if !valid then (seen.(state := CONTINUATION_FAILED), InvalidEnvelope)
      else if effect == None then (seen.(state := CONTINUATION_FAILED), EffectNotObserved)
      else (seen.(effect := effect, state := APPLIED), Accepted)
  }

  function Verified(c: Continuation, observed: Option<Id>): (Continuation, Outcome) {
    if c.state != APPLIED then (c, NotApplied)
    else if observed == None || observed != c.effect then (c, EffectMismatch)
    else (c.(state := VERIFIED), Accepted)
  }

  class Control {
    const reportId: Id
    const responseId: Id
    var state: ContinuationState
    var exitCode: Option<int>
    var envelopeValid: Option<bool>
    var effect: Option<Id>

    function View(): Continuation reads this {
      Continuation(reportId, responseId, state, exitCode, envelopeValid, effect)
    }

    constructor (report: Id, response: Id)
      ensures View() == New(report, response)
    {
      reportId, responseId, state := report, response, RECEIVED_PENDING_APPLY;
      exitCode, envelopeValid, effect := None, None, None;
    }

    method Begin(report: Id, response: Id) returns (outcome: Outcome)
      modifies this
      ensures (View(), outcome) == Begun(old(View()), report, response)
    {
      if state != RECEIVED_PENDING_APPLY { return NotPending; }
      if report != reportId || response != responseId { return IdentityMismatch; }
      state := APPLYING;
      return Accepted;
    }

    method Finish(exit: int, valid: bool, downstream: Option<Id>) returns (outcome: Outcome)
      modifies this
      ensures (View(), outcome) == Finished(old(View()), exit, valid, downstream)
    {
      if state != APPLYING { return NotApplying; }
      exitCode, envelopeValid := Some(exit), Some(valid);
      if exit != 0 { state := CONTINUATION_FAILED; return ProcessFailed; }
      if !valid { state := CONTINUATION_FAILED; return InvalidEnvelope; }
      if downstream == None { state := CONTINUATION_FAILED; return EffectNotObserved; }
      effect, state := downstream, APPLIED;
      return Accepted;
    }

    method Verify(observed: Option<Id>) returns (outcome: Outcome)
      modifies this
      ensures (View(), outcome) == Verified(old(View()), observed)
    {
      if state != APPLIED { return NotApplied; }
      if observed == None || observed != effect { return EffectMismatch; }
      state := VERIFIED;
      return Accepted;
    }

    method FailAuthContext() returns (outcome: Outcome)
      modifies this
      ensures View() == old(View()).(state := DELIVERY_FAILED) && outcome == AuthContextMismatch
    {
      state := DELIVERY_FAILED;
      return AuthContextMismatch;
    }
  }

  datatype Event =
    | Begin(report: Id, response: Id)
    | Finish(exitCode: int, valid: bool, effect: Option<Id>)
    | Verify(observed: Option<Id>)
    | FailAuthContext

  function After(c: Continuation, e: Event): Continuation {
    match e
    case Begin(report, response) => Begun(c, report, response).0
    case Finish(exitCode, valid, effect) => Finished(c, exitCode, valid, effect).0
    case Verify(observed) => Verified(c, observed).0
    case FailAuthContext => c.(state := DELIVERY_FAILED)
  }

  function AfterAll(c: Continuation, events: seq<Event>): Continuation {
    if events == [] then c else After(AfterAll(c, events[..|events| - 1]), events[|events| - 1])
  }

  /**
   * Over any run: a VERIFIED continuation exited zero with a valid envelope, and the effect that was
   * observed is the one it announced; before that it was begun for exactly its own report and response.
   */
  lemma {:induction false} VerifiedMeansObserved(report: Id, response: Id, events: seq<Event>)
    ensures var c := AfterAll(New(report, response), events);
            && c.reportId == report && c.responseId == response
            && (c.state == APPLIED || c.state == VERIFIED ==>
                  c.exitCode == Some(0) && c.envelopeValid == Some(true) && c.effect.Some?)
            && (c.state in {APPLYING, APPLIED, VERIFIED, CONTINUATION_FAILED} ==> Begin(report, response) in events)
            && (c.state == VERIFIED ==> Verify(c.effect) in events)
  {
    if events != [] {
      VerifiedMeansObserved(report, response, events[..|events| - 1]);
      assert events == events[..|events| - 1] + [events[|events| - 1]];
    }
  }
}
