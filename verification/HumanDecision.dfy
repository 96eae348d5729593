/** Human words, the request they are bound to, and the reviewer confirmation that gives them effect. */
module HumanDecision {
  import opened Prelude
  import opened DayModels

  datatype SubjectType = REVIEWER_RECOMMENDATION | CODEX_ARTIFACT | GATE_EXIT | EXECUTION_AUTHORITY

  datatype DecisionState =
    | HUMAN_RESPONSE_UNCLASSIFIED | HUMAN_DECISION_RECEIVED | REVIEW_CONFIRMATION_PENDING | REVIEW_CONFIRMED
    | REJECTED | DELIVERY_FAILED

  datatype Source = DirectConversation | OtherSource(name: Id)

  datatype Request = Request(decision: Id, revision: nat, subject: SubjectType, commit: Id, effect: Id)

  /** The words themselves, the decider, the channel and the time are retained but never decided on. */
  datatype Response = Response(
    message: Id, source: Source, decision: Option<Id>, revision: Option<nat>, subject: Option<SubjectType>,
    commit: Option<Id>, effect: Option<Id>, basis: Option<Id>)

  /** `report` is `None` for the empty report id. */
  datatype Payload = Payload(
    report: Option<Id>, confirmsReport: Id, confirmsResponse: Id, decision: Option<Id>, revision: Option<nat>,
    authority: Id, commit: Option<Id>, subject: Option<SubjectType>, effect: Option<Id>)

  datatype ReplyResult = CONTINUE | ACCEPT_COMPLETE | OtherResult

  /** A reviewer reply: a field that is absent reads as `None`. */
  datatype Reply = Reply(
    response: Option<Id>, inReplyTo: Option<Id>, confirmsReport: Option<Id>, confirmsResponse: Option<Id>,
    decision: Option<Id>, revision: Option<nat>, commit: Option<Id>, subject: Option<SubjectType>,
    effect: Option<Id>, result: ReplyResult)

  datatype Record = Record(
    state: DecisionState, message: Id, source: Source, decision: Option<Id>, revision: Option<nat>,
    subject: Option<SubjectType>, commit: Option<Id>, effect: Option<Id>, basis: Option<Id>,
    payload: Option<Payload>, response: Option<Id>, allowedEffect: Option<Id>, evidence: Option<Id>)
  {
    function SourceKey(): Key { Key(message, decision, revision) }
  }

  datatype Key = Key(message: Id, decision: Option<Id>, revision: Option<nat>)

  datatype Decisions = Decisions(records: seq<Record>, confirmations: map<Key, Option<Id>>)

  datatype Outcome =
    | Viewed | Accepted | NotClassified | DuplicateSuppressed | NotPending | ResponseIdMissing | FieldMismatch
    | ReviewerDidNotConfirm | EffectNotVerified | Failed | RecordUnknown

  const NoDecisions := Decisions([], map[])

  /** The request a response names; a later request with the same decision id replaces an earlier one. */
  function Candidate(requests: seq<Request>, decision: Option<Id>): Option<Request> {
    if requests == [] then None
    else if Some(requests[|requests| - 1].decision) == decision then Some(requests[|requests| - 1])
    else Candidate(requests[..|requests| - 1], decision)
  }

  /** A response is bound when it comes directly and repeats the request's own terms. */
  predicate Binds(r: Response, request: Option<Request>) {
    && r.source == DirectConversation
    && request.Some?
    && r.revision == Some(request.value.revision)
    && r.subject == Some(request.value.subject)
    && r.commit == Some(request.value.commit)
    && r.effect == Some(request.value.effect)
    && r.basis.Some?
  }

  function NewRecord(r: Response, requests: seq<Request>): Record {
    var q := Candidate(requests, r.decision);
    var state := if Binds(r, q) then HUMAN_DECISION_RECEIVED else HUMAN_RESPONSE_UNCLASSIFIED;
    if q.Some? then
      Record(state, r.message, r.source, Some(q.value.decision), Some(q.value.revision), Some(q.value.subject),
             Some(q.value.commit), Some(q.value.effect), r.basis, None, None, None, None)
    else
      Record(state, r.message, r.source, r.decision, r.revision, r.subject, r.commit, r.effect, r.basis,
             None, None, None, None)
  }

  function PayloadOf(r: Record, report: Option<Id>, confirmsReport: Id, confirmsResponse: Id, authority: Id): Payload {
    Payload(report, confirmsReport, confirmsResponse, r.decision, r.revision, authority, r.commit, r.subject, r.effect)
  }

  predicate Matches(reply: Reply, p: Payload) {
    && reply.inReplyTo == p.report
    && reply.confirmsReport == Some(p.confirmsReport) && reply.confirmsResponse == Some(p.confirmsResponse)
    && reply.decision == p.decision && reply.revision == p.revision && reply.commit == p.commit
    && reply.subject == p.subject && reply.effect == p.effect
  }

  datatype Event =
    | Receive(response: Response, requests: seq<Request>)
    | Build(record: nat, report: Option<Id>, confirmsReport: Id, confirmsResponse: Id, authority: Id)
    | Apply(record: nat, reply: Reply, succeeded: bool, evidence: Option<Id>)
    | MarkFailed(record: nat)

  predicate Suppressed(d: Decisions, key: Key) {
    key in d.confirmations && d.confirmations[key].Some?
  }

  function BuildOutcome(d: Decisions, i: nat): Outcome {
    if i >= |d.records| then RecordUnknown
    else if d.records[i].state != HUMAN_DECISION_RECEIVED then NotClassified
    else if Suppressed(d, d.records[i].SourceKey()) then DuplicateSuppressed
    else Accepted
  }

  function ApplyOutcome(d: Decisions, i: nat, reply: Reply, succeeded: bool, evidence: Option<Id>): Outcome {
    if i >= |d.records| then RecordUnknown
    else if d.records[i].state != REVIEW_CONFIRMATION_PENDING || d.records[i].payload == None then NotPending
    else if reply.response == None then ResponseIdMissing
    else if !Matches(reply, d.records[i].payload.value) then FieldMismatch
    else if reply.result == OtherResult then ReviewerDidNotConfirm
    else if !succeeded || evidence == None then EffectNotVerified
    else Accepted
  }

  function OutcomeOf(d: Decisions, e: Event): Outcome {
    match e
    case Receive(_, _) => Viewed
    case Build(i, _, _, _, _) => BuildOutcome(d, i)
    case Apply(i, reply, succeeded, evidence) => ApplyOutcome(d, i, reply, succeeded, evidence)
    case MarkFailed(i) => if i >= |d.records| then RecordUnknown else Failed
  }

  function Changed(d: Decisions, i: nat, r: Record): Decisions
    requires i < |d.records|
  {
    d.(records := d.records[i := r])
  }

  function After(d: Decisions, e: Event): Decisions {
    match e
    case Receive(response, requests) => d.(records := d.records + [NewRecord(response, requests)])
    case Build(i, report, confirmsReport, confirmsResponse, authority) =>
      if BuildOutcome(d, i) != Accepted then d
      else
        var r := d.records[i];
        Changed(d, i, r.(payload := Some(PayloadOf(r, report, confirmsReport, confirmsResponse, authority)),
                         state := REVIEW_CONFIRMATION_PENDING)).(confirmations := d.confirmations[r.SourceKey() := report])
    case Apply(i, reply, succeeded, evidence) =>
      var outcome := ApplyOutcome(d, i, reply, succeeded, evidence);
      if outcome == ReviewerDidNotConfirm then Changed(d, i, d.records[i].(state := REJECTED))
      else if outcome == Accepted then
        Changed(d, i, d.records[i].(state := REVIEW_CONFIRMED, response := reply.response,
                                    allowedEffect := d.records[i].effect, evidence := evidence))
      else d
    case MarkFailed(i) =>
      if i < |d.records| then Changed(d, i, d.records[i].(state := DELIVERY_FAILED)) else d
  }

  class HumanDecisionControl {
    var records: seq<Record>
    var confirmations: map<Key, Option<Id>>

    function View(): Decisions reads this { Decisions(records, confirmations) }

    constructor ()
      ensures View() == NoDecisions
    {
      records, confirmations := [], map[];
    }

    method ReceiveResponse(response: Response, requests: seq<Request>) returns (i: nat)
      modifies this
      ensures View() == After(old(View()), Receive(response, requests)) && i == |old(records)|
    {
      var request := FindCandidate(requests, response.decision);
      var state := if Binds(response, request) then HUMAN_DECISION_RECEIVED else HUMAN_RESPONSE_UNCLASSIFIED;
      var r := Record(state, response.message, response.source, response.decision, response.revision, response.subject,
                      response.commit, response.effect, response.basis, None, None, None, None);
      if request.Some? {
        var q := request.value;
        r := r.(decision := Some(q.decision), revision := Some(q.revision), subject := Some(q.subject),
                commit := Some(q.commit), effect := Some(q.effect));
      }
      i := |records|;
      records := records + [r];
    }

    method FindCandidate(requests: seq<Request>, decision: Option<Id>) returns (found: Option<Request>)
      ensures found == Candidate(requests, decision)
    {
      found := None;
      var i := 0;
      while i < |requests|
        invariant 0 <= i <= |requests| && found == Candidate(requests[..i], decision)
      {
        assert requests[..i + 1][..i] == requests[..i];
        if Some(requests[i].decision) == decision { found := Some(requests[i]); }
        i := i + 1;
      }
      assert requests[..i] == requests;
    }

    method BuildConfirmation(i: nat, report: Option<Id>, confirmsReport: Id, confirmsResponse: Id, authority: Id)
      returns (outcome: Outcome)
      modifies this
      ensures View() == After(old(View()), Build(i, report, confirmsReport, confirmsResponse, authority))
      ensures outcome == BuildOutcome(old(View()), i)
    {
      if i >= |records| { return RecordUnknown; }
      var r := records[i];
      if r.state != HUMAN_DECISION_RECEIVED { return NotClassified; }
      var key := Key(r.message, r.decision, r.revision);
      if key in confirmations && confirmations[key].Some? { return DuplicateSuppressed; }
      var payload := Payload(report, confirmsReport, confirmsResponse, r.decision, r.revision, authority, r.commit,
                             r.subject, r.effect);
      records := records[i := r.(payload := Some(payload), state := REVIEW_CONFIRMATION_PENDING)];
      confirmations := confirmations[key := report];
      return Accepted;
    }

    method ApplyConfirmation(i: nat, reply: Reply, succeeded: bool, evidence: Option<Id>) returns (outcome: Outcome)
      modifies this`records
      ensures View() == After(old(View()), Apply(i, reply, succeeded, evidence))
      ensures outcome == ApplyOutcome(old(View()), i, reply, succeeded, evidence)
    {
      if i >= |records| { return RecordUnknown; }
      var r := records[i];
      if r.state != REVIEW_CONFIRMATION_PENDING || r.payload == None { return NotPending; }
      if reply.response == None { return ResponseIdMissing; }
      if !Matches(reply, r.payload.value) { return FieldMismatch; }
      if reply.result == OtherResult {
        records := records[i := r.(state := REJECTED)];
        return ReviewerDidNotConfirm;
      }
      if !succeeded || evidence == None { return EffectNotVerified; }
      records := records[i := r.(state := REVIEW_CONFIRMED, response := reply.response, allowedEffect := r.effect,
                                 evidence := evidence)];
      return Accepted;
    }

    method MarkDeliveryFailure(i: nat) returns (outcome: Outcome)
      modifies this`records
      ensures View() == After(old(View()), MarkFailed(i)) && outcome == OutcomeOf(old(View()), MarkFailed(i))
    {
      if i >= |records| { return RecordUnknown; }
      records := records[i := records[i].(state := DELIVERY_FAILED)];
      return Failed;
    }
  }

  // ----- any run of one control -----

  function AfterAll(events: seq<Event>): Decisions {
    if events == [] then NoDecisions else After(AfterAll(events[..|events| - 1]), events[|events| - 1])
  }

  /** Event `k` is the response that record `i` was made from. */
  predicate Makes(events: seq<Event>, k: nat, i: nat) {
    k < |events| && events[k].Receive? && |AfterAll(events[..k]).records| == i
  }

  /** What a record takes from its response alone, and never loses. */
  predicate SameSubject(r: Record, made: Record) {
    && r.message == made.message && r.source == made.source && r.decision == made.decision && r.revision == made.revision
    && r.subject == made.subject && r.commit == made.commit && r.effect == made.effect && r.basis == made.basis
  }

  predicate Unusable(s: DecisionState) { s == HUMAN_RESPONSE_UNCLASSIFIED || s == DELIVERY_FAILED }

  /** What one event can do to one existing record. */
  lemma RecordStep(d: Decisions, e: Event, i: nat)
    requires i < |d.records|
    ensures i < |After(d, e).records|
    ensures var r, r' := d.records[i], After(d, e).records[i];
            && SameSubject(r', r)
            && (e.Build? && e.record == i && BuildOutcome(d, i) == Accepted ==>
                  r'.payload == Some(PayloadOf(r, e.report, e.confirmsReport, e.confirmsResponse, e.authority)))
            && (!(e.Build? && e.record == i && BuildOutcome(d, i) == Accepted) ==> r'.payload == r.payload)
            && (Unusable(r.state) ==> Unusable(r'.state) && r'.payload == r.payload)
  {
  }

  lemma ConfirmStep(d: Decisions, e: Event, i: nat)
    requires i < |d.records|
    ensures var r, r' := d.records[i], After(d, e).records[i];
            && (r'.state == REVIEW_CONFIRMED && r.state == REVIEW_CONFIRMED ==> r' == r)
            && (r'.state == REVIEW_CONFIRMED && r.state != REVIEW_CONFIRMED ==>
                  && e.Apply? && e.record == i && ApplyOutcome(d, i, e.reply, e.succeeded, e.evidence) == Accepted
                  && r' == r.(state := REVIEW_CONFIRMED, response := e.reply.response, allowedEffect := r.effect,
                              evidence := e.evidence))
  {
  }

  lemma NewRecordStep(d: Decisions, e: Event, i: nat)
    requires |d.records| <= i < |After(d, e).records|
    ensures i == |d.records| && e.Receive? && After(d, e).records[i] == NewRecord(e.response, e.requests)
  {
  }

  lemma {:induction false} MadeOnce(events: seq<Event>, i: nat) returns (k: nat)
    requires i < |AfterAll(events).records|
    ensures Makes(events, k, i)
    ensures var r, made := AfterAll(events).records[i], NewRecord(events[k].response, events[k].requests);
            && SameSubject(r, made)
            && (Unusable(made.state) ==> r.payload == None && Unusable(r.state))
  {
    var n := |events| - 1;
    var before := events[..n];
    if i < |AfterAll(before).records| {
      k := MadeOnce(before, i);
      assert before[..k] == events[..k];
      RecordStep(AfterAll(before), events[n], i);
    } else {
      k := n;
      NewRecordStep(AfterAll(before), events[n], i);
    }
  }

  /** Event `k` built the confirmation `p` of record `i`. */
  predicate Builds(events: seq<Event>, k: nat, i: nat, p: Payload) {
    && k < |events| && events[k].Build? && events[k].record == i
    && BuildOutcome(AfterAll(events[..k]), i) == Accepted
    && p.report == events[k].report && p.confirmsReport == events[k].confirmsReport
    && p.confirmsResponse == events[k].confirmsResponse && p.authority == events[k].authority
  }

  predicate RepeatsRecord(p: Payload, r: Record) {
    p.decision == r.decision && p.revision == r.revision && p.commit == r.commit && p.subject == r.subject && p.effect == r.effect
  }

  lemma {:induction false} BuiltOnce(events: seq<Event>, i: nat) returns (k: nat)
    requires i < |AfterAll(events).records| && AfterAll(events).records[i].payload.Some?
    ensures var r := AfterAll(events).records[i];
            Builds(events, k, i, r.payload.value) && RepeatsRecord(r.payload.value, r)
  {
    var n := |events| - 1;
    var before := events[..n];
    var d := AfterAll(before);
    if i >= |d.records| {
      NewRecordStep(d, events[n], i);
      assert false;
    } else {
      RecordStep(d, events[n], i);
      if events[n].Build? && events[n].record == i && BuildOutcome(d, i) == Accepted {
        k := n;
      } else {
        k := BuiltOnce(before, i);
        assert before[..k] == events[..k];
      }
    }
  }

  /** Event `k` applied a reply that confirms record `i`, whose payload is `p`. */
  predicate Confirms(events: seq<Event>, k: nat, i: nat, p: Payload) {
    && k < |events| && events[k].Apply? && events[k].record == i
    && Matches(events[k].reply, p) && events[k].reply.response.Some? && events[k].reply.result != OtherResult
    && events[k].succeeded && events[k].evidence.Some?
  }

  lemma {:induction false} ConfirmedBy(events: seq<Event>, i: nat) returns (k: nat)
    requires i < |AfterAll(events).records| && AfterAll(events).records[i].state == REVIEW_CONFIRMED
    ensures var r := AfterAll(events).records[i];
            && r.payload.Some? && Confirms(events, k, i, r.payload.value)
            && r.response == events[k].reply.response && r.evidence == events[k].evidence && r.allowedEffect == r.effect
  {
    var n := |events| - 1;
    var before := events[..n];
    var d := AfterAll(before);
    if i >= |d.records| {
      NewRecordStep(d, events[n], i);
      assert false;
    } else {
      ConfirmStep(d, events[n], i);
      if d.records[i].state == REVIEW_CONFIRMED {
        k := ConfirmedBy(before, i);
      } else {
        k := n;
      }
    }
  }

  /**
   * Every confirmed decision was said directly, repeats the terms of the request it names, and was confirmed
   * by a positive reply equal, field by field, to a payload built from that very decision.
   */
  lemma ConfirmedDecisionIsBound(events: seq<Event>, i: nat) returns (made: nat, built: nat, applied: nat)
    requires i < |AfterAll(events).records| && AfterAll(events).records[i].state == REVIEW_CONFIRMED
    ensures Makes(events, made, i)
    ensures var request := Candidate(events[made].requests, events[made].response.decision);
            && Binds(events[made].response, request)
            && exists p ::
                 && Builds(events, built, i, p) && Confirms(events, applied, i, p)
                 && p.decision == Some(request.value.decision) && p.revision == Some(request.value.revision)
                 && p.subject == Some(request.value.subject) && p.commit == Some(request.value.commit)
                 && p.effect == Some(request.value.effect)
    ensures AfterAll(events).records[i].allowedEffect == events[made].response.effect
  {
    made := MadeOnce(events, i);
    applied := ConfirmedBy(events, i);
    built := BuiltOnce(events, i);
    var p := AfterAll(events).records[i].payload.value;
    assert Builds(events, built, i, p) && Confirms(events, applied, i, p);
  }

  /** Every built confirmation with a report id is remembered under its key. */
  predicate Remembered(d: Decisions) {
    forall i :: 0 <= i < |d.records| && d.records[i].payload.Some? && d.records[i].payload.value.report.Some? ==>
      Suppressed(d, d.records[i].SourceKey())
  }

  predicate BuiltIsClassified(d: Decisions) {
    forall i :: 0 <= i < |d.records| && d.records[i].payload.Some? ==> d.records[i].state != HUMAN_DECISION_RECEIVED
  }

  predicate OneReportPerKey(d: Decisions) {
    forall i, j :: 0 <= i < j < |d.records| && d.records[i].payload.Some? && d.records[j].payload.Some?
                   && d.records[i].SourceKey() == d.records[j].SourceKey() ==>
      d.records[i].payload.value.report == None || d.records[j].payload.value.report == None
  }

  /** An event that builds nothing leaves every payload and every key as it was. */
  predicate SamePayloads(d: Decisions, d': Decisions) {
    && d'.confirmations == d.confirmations && |d.records| <= |d'.records|
    && (forall i :: 0 <= i < |d.records| ==>
          d'.records[i].payload == d.records[i].payload && d'.records[i].SourceKey() == d.records[i].SourceKey())
    && (forall i :: |d.records| <= i < |d'.records| ==> d'.records[i].payload == None)
  }

  lemma SamePayloadsKeep(d: Decisions, d': Decisions)
    requires SamePayloads(d, d') && Remembered(d) && OneReportPerKey(d)
    ensures Remembered(d') && OneReportPerKey(d')
  {
  }

  lemma OtherKeeps(d: Decisions, e: Event)
    requires !(e.Build? && BuildOutcome(d, e.record) == Accepted) && BuiltIsClassified(d)
    ensures SamePayloads(d, After(d, e)) && BuiltIsClassified(After(d, e))
  {
  }

  lemma BuildKeeps(d: Decisions, e: Event)
    requires e.Build? && BuildOutcome(d, e.record) == Accepted && Remembered(d) && BuiltIsClassified(d) && OneReportPerKey(d)
    ensures Remembered(After(d, e)) && BuiltIsClassified(After(d, e)) && OneReportPerKey(After(d, e))
  {
    var d', i, key := After(d, e), e.record, d.records[e.record].SourceKey();
    assert forall k :: 0 <= k < |d.records| && k != i ==> d'.records[k] == d.records[k];
    assert d'.records[i].SourceKey() == key;
    forall k | 0 <= k < |d.records| && k != i && d.records[k].payload.Some? && d.records[k].SourceKey() == key
      ensures d.records[k].payload.value.report == None
    {
      assert !Suppressed(d, key);
    }
    assert d'.confirmations == d.confirmations[key := e.report];
  }

  /** No source message is confirmed twice for one decision and revision, unless with the empty report id. */
  lemma {:induction false} ConfirmedOncePerSource(events: seq<Event>)
    ensures var d := AfterAll(events); Remembered(d) && BuiltIsClassified(d) && OneReportPerKey(d)
  {
    if events != [] {
      var d, e := AfterAll(events[..|events| - 1]), events[|events| - 1];
      ConfirmedOncePerSource(events[..|events| - 1]);
      if e.Build? && BuildOutcome(d, e.record) == Accepted {
        BuildKeeps(d, e);
      } else {
        OtherKeeps(d, e);
        SamePayloadsKeep(d, After(d, e));
      }
    }
  }

  predicate ConfirmsTwice(d: Decisions) {
    && |d.records| == 2 && d.records[0].payload.Some? && d.records[1].payload.Some?
    && d.records[0].SourceKey() == d.records[1].SourceKey()
  }

  lemma AfterOneMore(events: seq<Event>, e: Event)
    ensures AfterAll(events + [e]) == After(AfterAll(events), e)
  {
    assert (events + [e])[..|events|] == events;
  }

  /** With the empty report id the same source is confirmed again. */
  lemma EmptyReportIsConfirmedTwice(r: Response, q: Request)
    requires Binds(r, Some(q)) && r.decision == Some(q.decision)
    ensures exists events :: ConfirmsTwice(AfterAll(events))
  {
    var received, one, two := Receive(r, [q]), Build(0, None, 0, 0, 0), Build(1, None, 0, 0, 0);
    var made := NewRecord(r, [q]);
    assert made.state == HUMAN_DECISION_RECEIVED by { assert Candidate([q], r.decision) == Some(q); }
    var d := After(After(NoDecisions, received), received);
    assert d == Decisions([made, made], map[]);
    assert ConfirmsTwice(After(After(d, one), two));
    hide After, ConfirmsTwice;
    AfterOneMore([], received);
    AfterOneMore([] + [received], received);
    AfterOneMore([] + [received] + [received], one);
    AfterOneMore([] + [received] + [received] + [one], two);
    assert ConfirmsTwice(AfterAll([] + [received] + [received] + [one] + [two]));
  }

  // ----- refused decisions -----

  /** A reply to the confirmation of record `i`, field by field as its payload, in which the reviewer does not confirm. */
  predicate Refuses(d: Decisions, e: Event, i: nat) {
    && i < |d.records| && e.Apply? && e.record == i
    && d.records[i].state == REVIEW_CONFIRMATION_PENDING && d.records[i].payload.Some?
    && e.reply.response.Some? && Matches(e.reply, d.records[i].payload.value) && e.reply.result == OtherResult
  }

  predicate Refused(s: DecisionState) { s == REJECTED || s == DELIVERY_FAILED }

  /** A pending record becomes REJECTED exactly by such a reply, and leaves that state only when its delivery fails. */
  lemma RefusalStep(d: Decisions, e: Event, i: nat)
    requires i < |d.records|
    ensures i < |After(d, e).records|
    ensures d.records[i].state != REJECTED ==> (After(d, e).records[i].state == REJECTED <==> Refuses(d, e, i))
    ensures Refused(d.records[i].state) ==> Refused(After(d, e).records[i].state)
  {
    hide Matches;
  }

  /** A record that the reviewer refused is never confirmed, whatever replies come later. */
  lemma {:induction false} RefusedIsNeverConfirmed(events: seq<Event>, k: nat, i: nat)
    requires k < |events| && Refuses(AfterAll(events[..k]), events[k], i)
    ensures i < |AfterAll(events).records| && Refused(AfterAll(events).records[i].state)
    decreases |events|
  {
    hide After, Refuses, Refused;
    var n := |events| - 1;
    var before := AfterAll(events[..n]);
    if k == n {
      RefusalIsFinal(before, events[n], i);
    } else {
      assert events[..n][..k] == events[..k];
      RefusedIsNeverConfirmed(events[..n], k, i);
      RefusalStep(before, events[n], i);
    }
  }

  lemma RefusalIsFinal(d: Decisions, e: Event, i: nat)
    requires Refuses(d, e, i)
    ensures i < |After(d, e).records| && Refused(After(d, e).records[i].state)
  {
    RefusalStep(d, e, i);
  }

  // ----- bound responses -----

  /** The request that a response answers: the last one of its decision id. */
  predicate Answers(requests: seq<Request>, decision: Option<Id>, k: nat) {
    && k < |requests| && Some(requests[k].decision) == decision
    && forall j :: k < j < |requests| ==> Some(requests[j].decision) != decision
  }

  lemma {:induction false} CandidateIsLast(requests: seq<Request>, decision: Option<Id>)
    ensures var q := Candidate(requests, decision);
            && (q == None <==> forall k :: 0 <= k < |requests| ==> Some(requests[k].decision) != decision)
            && (q.Some? ==> exists k: nat :: Answers(requests, decision, k) && requests[k] == q.value)
  {
    if requests != [] {
      var n := |requests| - 1;
      CandidateIsLast(requests[..n], decision);
      if Some(requests[n].decision) == decision {
        assert Answers(requests, decision, n);
      } else if k: nat :| Answers(requests[..n], decision, k) {
        assert Answers(requests, decision, k) && requests[k] == requests[..n][k];
      }
    }
  }

  /**
   * A response is a decision exactly when it was said directly, gives its basis, and repeats the revision, subject,
   * commit and effect of the last request of its decision id; its record takes those terms from the request.
   */
  lemma ReceivedExactly(r: Response, requests: seq<Request>)
    ensures NewRecord(r, requests).state == HUMAN_DECISION_RECEIVED <==>
              && r.source == DirectConversation && r.basis.Some?
              && exists k: nat :: Answers(requests, r.decision, k)
                   && r.revision == Some(requests[k].revision) && r.subject == Some(requests[k].subject)
                   && r.commit == Some(requests[k].commit) && r.effect == Some(requests[k].effect)
    ensures var n := NewRecord(r, requests);
            && n.state in {HUMAN_DECISION_RECEIVED, HUMAN_RESPONSE_UNCLASSIFIED} && n.message == r.message && n.source == r.source && n.basis == r.basis
            && n.payload == None && n.response == None && n.allowedEffect == None && n.evidence == None
            && forall k: nat :: Answers(requests, r.decision, k) ==>
                 n.decision == Some(requests[k].decision) && n.revision == Some(requests[k].revision)
                 && n.subject == Some(requests[k].subject) && n.commit == Some(requests[k].commit) && n.effect == Some(requests[k].effect)
  {
    CandidateIsLast(requests, r.decision);
    forall j: nat, k: nat | Answers(requests, r.decision, j) && Answers(requests, r.decision, k) ensures j == k {}
  }

  /** A delivery fails exactly when it is marked so, from whatever state, and for good. */
  lemma FailureStep(d: Decisions, e: Event, i: nat)
    requires i < |d.records|
    ensures i < |After(d, e).records|
    ensures After(d, e).records[i].state == DELIVERY_FAILED <==> d.records[i].state == DELIVERY_FAILED || e == MarkFailed(i)
  {
    hide Matches;
  }

  lemma {:induction false} FailedExactly(events: seq<Event>, i: nat)
    ensures i < |AfterAll(events).records| ==>
              (AfterAll(events).records[i].state == DELIVERY_FAILED <==>
                 exists k: nat :: k < |events| && events[k] == MarkFailed(i) && i < |AfterAll(events[..k]).records|)
  {
    hide After;
    if events != [] && i < |AfterAll(events).records| {
      var n := |events| - 1;
      var before := events[..n];
      assert forall k: nat :: k < n ==> before[..k] == events[..k] && before[k] == events[k];
      if i < |AfterAll(before).records| {
        FailedExactly(before, i);
        FailureStep(AfterAll(before), events[n], i);
      } else {
        NewRecordIsUsable(AfterAll(before), events[n], i);
        forall k: nat | k < n ensures |AfterAll(events[..k]).records| <= |AfterAll(before).records| { RecordsGrow(before, k); }
      }
    }
  }

  lemma NewRecordIsUsable(d: Decisions, e: Event, i: nat)
    requires |d.records| <= i < |After(d, e).records|
    ensures After(d, e).records[i].state != DELIVERY_FAILED && e.Receive?
  {
    NewRecordStep(d, e, i);
  }

  lemma {:induction false} RecordsGrow(events: seq<Event>, k: nat)
    requires k <= |events|
    ensures |AfterAll(events[..k]).records| <= |AfterAll(events).records|
  {
    if k < |events| {
      var n := |events| - 1;
      assert events[..n][..k] == events[..k];
      RecordsGrow(events[..n], k);
    } else {
      assert events[..k] == events;
    }
  }

  /** A decision is confirmed exactly when its confirmation is pending, the reply repeats it field by field and accepts, and its effect is proved. */
  lemma ConfirmedExactly(d: Decisions, i: nat, reply: Reply, succeeded: bool, evidence: Option<Id>)
    requires i < |d.records|
    ensures ApplyOutcome(d, i, reply, succeeded, evidence) == Accepted <==>
              && d.records[i].state == REVIEW_CONFIRMATION_PENDING && d.records[i].payload.Some?
              && (var p := d.records[i].payload.value;
                  && reply.response.Some? && reply.inReplyTo == p.report && reply.confirmsReport == Some(p.confirmsReport)
                  && reply.confirmsResponse == Some(p.confirmsResponse) && reply.decision == p.decision && reply.revision == p.revision
                  && reply.commit == p.commit && reply.subject == p.subject && reply.effect == p.effect)
              && (reply.result == CONTINUE || reply.result == ACCEPT_COMPLETE) && succeeded && evidence.Some?
  {
  }
}
