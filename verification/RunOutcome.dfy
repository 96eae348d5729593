/** What each step of a process makes of a run, and that no report and no decision ever serves two runs. */
module RunOutcome {
  import opened Prelude
  import opened DayModels
  import opened RunStore
  import opened EvidenceCompletion
  import opened EvidenceBinding
  import opened RunWorld
  import opened RunProperties
  import opened RunHistory
  import RR = RepairRecovery
  import RC = ReviewControl
  import RN = ReviewContinuation
  import HD = HumanDecision

  /** The run took one step: its state and blocker, the state before in its history, and a later time, which is the clock's if that moved. */
  ghost predicate Moved(w: World, w': World, run: Id, state: DayState, blocker: Option<Blocker>, now: Time) {
    && run in w.store.files && run in w'.store.files
    && (forall r :: r in w'.store.files && r != run ==> r in w.store.files && w'.store.files[r] == w.store.files[r])
    && var was, now' := w.store.files[run], w'.store.files[run];
       && now'.intent == was.intent && now'.control.state == state && now'.control.blocker == blocker
       && now'.control.resumesAtPreflight == blocker.Some? && now'.control.history == was.control.history + [was.control.state]
       && now'.control.updatedAt == (if now > was.control.updatedAt then now else was.control.updatedAt + 1)
  }

  lemma AdvancingMoves(w: World, run: Id, state: DayState, blocker: Option<Blocker>, now: Time, reply: Reply)
    requires StoreOk(w.store) && run in w.store.files
    ensures var (w', r) := Advancing(w, w.store.files[run], state, blocker, now, reply);
            Moved(w, w', run, state, blocker, now) && w' == w.(store := w'.store) && r == reply
  {
    hide CheckUpdate, UpdateSpec, StoreOk, StoreGrows;
    StoredIdentity(w.store, run);
    var next := Advanced(w.store.files[run], state, blocker, now);
    NextVersionAccepted(w.store, run, next);
  }

  // ----- creating runs -----

  /** The current run has not ended. */
  ghost predicate InProgress(s: Store) {
    exists run :: run in s.files && IsCurrent(s, run) && s.files[run].control.state !in {COMPLETE, STOPPED, FAILED, FAILED_UNRECOVERABLE}
  }

  /** A Go makes a run exactly when the current one has ended and its id is new; it begins as it was admitted, with nothing behind it. */
  lemma GoCreates(w: World, intent: RunIntent, admission: Admission, now: Time)
    ensures var w' := Go(w, intent, admission, now);
            var creates := !InProgress(w.store) && intent.runId !in w.store.files;
            && (!creates ==> w' == w)
            && (creates ==>
                  && w'.store.retained == w.store.retained && w'.store.files.Keys == w.store.files.Keys + {intent.runId}
                  && (forall run :: run in w.store.files ==> w'.store.files[run] == w.store.files[run])
                  && w' == w.(store := w'.store)
                  && var r := w'.store.files[intent.runId];
                     && r.intent == intent && r.SameIdentity() && r.control.history == [] && r.control.updatedAt == now
                     && r.control.state == (match admission
                                            case ADMISSIBLE => PREFLIGHT
                                            case NEEDS_HUMAN(_) => HUMAN_ACTION_REQUIRED
                                            case NEEDS_EXTERNAL(_) => EXTERNAL_ACTION_REQUIRED)
                     && r.control.blocker == (if admission == ADMISSIBLE then None else Some(admission.reason))
                     && r.control.resumesAtPreflight == (admission != ADMISSIBLE))
  {
    hide IsCurrent;
  }

  // ----- single criteria -----

  /** The Day in memory is the run's, by run, day and contract. */
  predicate DayIsTheRuns(w: World, run: Id) {
    && run in w.store.files && w.day.runId == Some(w.store.files[run].intent.runId) && w.day.contract.Some?
    && w.day.contract.value.day == w.store.files[run].intent.selectedDay
    && FingerprintOf(w.day.contract.value) == w.store.files[run].intent.contractFingerprint
  }

  predicate FirstOfId(criteria: seq<Criterion>, id: Id, k: nat) {
    k < |criteria| && criteria[k].id == id && forall j :: 0 <= j < k ==> criteria[j].id != id
  }

  lemma {:induction false} PositionIsFirst(criteria: seq<Criterion>, id: Id, i: nat)
    requires i <= |criteria| && forall j :: 0 <= j < i ==> criteria[j].id != id
    ensures var k := PositionOf(criteria, id, i); if k < |criteria| then FirstOfId(criteria, id, k) else forall j :: 0 <= j < |criteria| ==> criteria[j].id != id
    decreases |criteria| - i
  {
    if i < |criteria| && criteria[i].id != id { PositionIsFirst(criteria, id, i + 1); }
  }

  /**
   * Evaluating one criterion for the run's own Day: exactly a satisfied evaluation is written, its records into the
   * store and its ids to the first criterion of that id, next to those it had; everything else stays.
   */
  lemma EvaluationIsWritten(env: Env, w: World, run: Id, criterion: Id, results: seq<RawResult>, at: Time)
    ensures var (w', r) := Evaluate(env, w, run, criterion, results, at);
            && (!DayIsTheRuns(w, run) ==> w' == w && (r == RunUnknown || r.Rejected?))
            && (DayIsTheRuns(w, run) ==>
                  var contract := w.day.contract.value;
                  var e := EvaluationOf(env, w.store.files[run].intent, contract, criterion, results, at);
                  && r == EvaluationView(e)
                  && (!(e.Evaluated? && e.satisfied) ==> w' == w)
                  && (e.Evaluated? && e.satisfied ==>
                        && w' == w.(day := w'.day) && w'.day == w.day.(evidence := w.day.evidence + e.records, contract := w'.day.contract)
                        && w'.day.contract.Some? && |w'.day.contract.value.criteria| == |contract.criteria|
                        && w'.day.contract.value == Settled(contract, w'.day.contract.value.criteria)
                        && forall k: nat :: k < |contract.criteria| ==>
                             w'.day.contract.value.criteria[k] ==
                               if FirstOfId(contract.criteria, criterion, k)
                               then contract.criteria[k].(recordIds := contract.criteria[k].recordIds + e.ids, satisfied := true)
                               else contract.criteria[k]))
  {
    hide EvaluationOf, FingerprintOf, SatisfiedIds;
    if w.day.contract.Some? { PositionIsFirst(w.day.contract.value.criteria, criterion, 0); }
  }

  // ----- human decisions -----

  /** A decision is bound to a run, unless it serves another one; the run then waits for a person. */
  lemma DecisionIsBound(w: World, run: Id, request: HD.Request, now: Time)
    requires StoreOk(w.store)
    ensures var (w', r) := BindHuman(w, run, request, now);
            var free := run in w.store.files && (request.decision in w.decisionOwners ==> w.decisionOwners[request.decision] == run);
            && (r == Accepted <==> free)
            && (!free ==> w' == w)
            && (free ==>
                  && Moved(w, w', run, HUMAN_ACTION_REQUIRED, Some(HumanDecisionRequired), now)
                  && w'.decisionOwners == w.decisionOwners[request.decision := run] && w'.requests == w.requests[run := request]
                  && w'.humans == w.humans[run := if run in w.humans then w.humans[run] else HD.NoDecisions]
                  && w'.day == w.day && w'.reviews == w.reviews && w'.repairs == w.repairs && w'.reportOwners == w.reportOwners)
  {
    hide StoreOk, Advancing;
    if run in w.store.files {
      AdvancingMoves(w.(decisionOwners := w.decisionOwners[request.decision := run], requests := w.requests[run := request],
                        humans := w.humans[run := if run in w.humans then w.humans[run] else HD.NoDecisions]),
                     run, HUMAN_ACTION_REQUIRED, Some(HumanDecisionRequired), now, Accepted);
    }
  }

  /** The human step reaches a control: it is bound, and so is the record the step is about. */
  predicate Reaches(w: World, run: Id, event: HD.Event) {
    run in w.humans && (if event.Receive? then run in w.requests else event.record < |w.humans[run].records|)
  }

  /**
   * A person's words are held against the request bound to this run and no other, and exactly an accepted
   * confirmation moves the run on.
   */
  lemma HumanStepExactly(w: World, run: Id, event: HD.Event, now: Time)
    requires StoreOk(w.store) && run in w.store.files
    ensures var (w', r) := Human(w, run, event, now);
            && (!Reaches(w, run, event) ==> w' == w && r == Rejected(DecisionNotBound))
            && (Reaches(w, run, event) ==>
                  var e := if event.Receive? then HD.Receive(event.response, [w.requests[run]]) else event;
                  var confirmed := event.Apply? && HD.OutcomeOf(w.humans[run], event) == HD.Accepted;
                  && r == DecisionView(HD.OutcomeOf(w.humans[run], e))
                  && w'.humans == w.humans[run := HD.After(w.humans[run], e)] && w' == w.(humans := w'.humans, store := w'.store)
                  && (confirmed ==> Moved(w, w', run, PREFLIGHT, None, now))
                  && (!confirmed ==> w'.store == w.store))
  {
    hide StoreOk, Advancing, HD.After, HD.OutcomeOf;
    if Reaches(w, run, event) {
      var e := if event.Receive? then event.(requests := [w.requests[run]]) else event;
      AdvancingMoves(w.(humans := w.humans[run := HD.After(w.humans[run], e)]), run, PREFLIGHT, None, now, DecisionView(HD.OutcomeOf(w.humans[run], e)));
    }
  }

  // ----- reviews -----

  /** A report is asked about exactly when it serves no other run and nothing is outstanding; the run then waits for the response. */
  lemma ReviewIsRequested(w: World, run: Id, report: Id, at: Time, now: Time)
    requires StoreOk(w.store)
    ensures var (w', r) := RequestReview(w, run, report, at, now);
            var free := run in w.store.files && (report in w.reportOwners ==> w.reportOwners[report] == run);
            var asks := free && RC.MaySend(ReviewOf(w, run));
            && (r == ReviewView(RC.Accepted) <==> asks)
            && (asks ==>
                  && Moved(w, w', run, HUMAN_ACTION_REQUIRED, Some(ReviewResponseRequired), now)
                  && w'.reportOwners == w.reportOwners[report := run]
                  && w'.reviews == w.reviews[run := RC.Review(Some(report), Some(RC.SENT), Some(at), None, None, ReviewOf(w, run).processed, None)])
            && (!asks ==> w'.store == w.store && w'.reportOwners == w.reportOwners && (forall x :: x in w'.reviews ==> w'.reviews[x] == ReviewOf(w, x)))
            && w' == w.(reviews := w'.reviews, reportOwners := w'.reportOwners, store := w'.store)
  {
    hide StoreOk, Advancing;
    if run in w.store.files {
      var review := RC.Sent(ReviewOf(w, run), report, at).0;
      AdvancingMoves(w.(reviews := w.reviews[run := review], reportOwners := w.reportOwners[report := run]), run, HUMAN_ACTION_REQUIRED,
                     Some(ReviewResponseRequired), now, ReviewView(RC.Accepted));
    }
  }

  /** The continuation of a response had its effect: exit zero, a valid envelope, and the announced effect was read back. */
  predicate TookEffect(effect: Effect) {
    effect.exitCode == 0 && effect.envelopeValid && effect.downstream.Some? && effect.observed == effect.downstream
  }

  lemma EffectIs(report: Id, response: Id, effect: Effect)
    ensures ContinuationOf(report, response, effect).state == RN.VERIFIED <==> TookEffect(effect)
  {
  }

  /** A response moves its run on exactly when it is accepted for the outstanding report and its continuation took effect. */
  lemma ResponseMovesExactly(w: World, run: Id, response: RC.Response, at: Time, effect: Effect, now: Time)
    requires StoreOk(w.store) && run in w.store.files && run in w.reviews && RC.Correlated(w.reviews[run])
    ensures var (w', r) := RespondReview(w, run, response, at, effect, now);
            var review := w.reviews[run];
            var accepted := && review.state == Some(RC.SENT) && response.responseId !in review.processed
                            && at <= review.sentAt.value + RC.TIMEOUT_SECONDS && Some(response.inReplyTo) == review.report;
            && w' == w.(reviews := w'.reviews, store := w'.store) && w'.reviews == w.reviews[run := w'.reviews[run]]
            && (accepted && TookEffect(effect) ==>
                  Moved(w, w', run, PREFLIGHT, None, now) && w'.reviews[run].state == Some(RC.VERIFIED) && w'.reviews[run].evidence == effect.observed)
            && (accepted && !TookEffect(effect) ==> w'.store == w.store && w'.reviews[run].state == Some(RC.APPLIED))
            && (!accepted ==> w'.store == w.store && w'.reviews[run].state in {review.state, Some(RC.DELIVERY_FAILED)})
            && (r == ContinuationView(RN.VERIFIED) <==> accepted && TookEffect(effect))
  {
    hide StoreOk, Advancing, ContinuationOf;
    EffectIs(response.inReplyTo, response.responseId, effect);
    var received := RC.Received(w.reviews[run], response, at, true).0;
    var verified := RC.Verified(RC.Applied(received, response.responseId).0, effect.observed).0;
    AdvancingMoves(w.(reviews := w.reviews[run := verified]), run, PREFLIGHT, None, now, ContinuationView(RN.VERIFIED));
  }

  // ----- ownership -----

  /** What a run's review or decision is about is owned by that run. */
  ghost predicate Owned(w: World) {
    && (forall run :: run in w.reviews && w.reviews[run].report.Some? ==>
          w.reviews[run].report.value in w.reportOwners && w.reportOwners[w.reviews[run].report.value] == run)
    && (forall run :: run in w.requests ==>
          w.requests[run].decision in w.decisionOwners && w.decisionOwners[w.requests[run].decision] == run)
  }

  lemma RequestKeepsOwners(w: World, run: Id, report: Id, at: Time, now: Time)
    requires Owned(w) && StoreOk(w.store)
    ensures Owned(RequestReview(w, run, report, at, now).0)
  {
    hide StoreOk, RequestReview, Moved;
    ReviewIsRequested(w, run, report, at, now);
    AskingKeepsReviews(w, run, report, at, now);
  }

  lemma AskingKeepsReviews(w: World, run: Id, report: Id, at: Time, now: Time)
    ensures RequestReview(w, run, report, at, now).0.requests == w.requests
    ensures RequestReview(w, run, report, at, now).0.decisionOwners == w.decisionOwners
  {
  }

  /** Nothing that says what serves which run changes. */
  predicate SameOwners(w: World, w': World) {
    w'.reportOwners == w.reportOwners && w'.requests == w.requests && w'.decisionOwners == w.decisionOwners
  }

  lemma ReceivingKeepsReport(r: RC.Review, response: RC.Response, at: Time, evidence: Option<Id>)
    ensures var received := RC.Received(r, response, at, true).0;
            var applied := RC.Applied(received, response.responseId).0;
            received.report == r.report && applied.report == r.report && RC.Verified(applied, evidence).0.report == r.report
  {
  }

  lemma AdvancingKeepsRest(w: World, record: RunRecord, state: DayState, blocker: Option<Blocker>, now: Time, reply: Reply)
    ensures Advancing(w, record, state, blocker, now, reply).0 == w.(store := Advancing(w, record, state, blocker, now, reply).0.store)
  {
    hide CheckUpdate, UpdateSpec, Advanced;
  }

  lemma RespondKeepsReport(w: World, run: Id, response: RC.Response, at: Time, effect: Effect, now: Time)
    ensures var w' := RespondReview(w, run, response, at, effect, now).0;
            && SameOwners(w, w') && w'.reviews.Keys == w.reviews.Keys && forall x :: x in w.reviews ==> w'.reviews[x].report == w.reviews[x].report
  {
    hide ContinuationOf, Advancing, RC.Received, RC.Applied, RC.Verified;
    forall x: World, record, state, blocker, time, reply ensures Advancing(x, record, state, blocker, time, reply).0 == x.(store := Advancing(x, record, state, blocker, time, reply).0.store) {
      AdvancingKeepsRest(x, record, state, blocker, time, reply);
    }
    if run in w.reviews { ReceivingKeepsReport(w.reviews[run], response, at, effect.observed); }
  }

  lemma RespondKeepsOwners(w: World, run: Id, response: RC.Response, at: Time, effect: Effect, now: Time)
    requires Owned(w)
    ensures Owned(RespondReview(w, run, response, at, effect, now).0)
  {
    hide RespondReview;
    RespondKeepsReport(w, run, response, at, effect, now);
  }

  lemma BindKeepsOwners(w: World, run: Id, request: HD.Request, now: Time)
    requires Owned(w)
    ensures Owned(BindHuman(w, run, request, now).0)
  {
    hide CheckUpdate, UpdateSpec, Advanced;
  }

  lemma ProjectKeepsOwners(w: World, run: Id, now: Time)
    ensures Project(w, run, now).0 == w.(store := Project(w, run, now).0.store)
  {
    hide CheckUpdate, UpdateSpec, Advanced, ProjectReason;
  }

  lemma RepairKeepsOwners(w: World, run: Id, before: RR.Repair, after: RR.Repair, now: Time, status: RR.Status)
    ensures var w' := Persist(w, run, before, after, now, status).0; w' == w.(store := w'.store, repairs := w'.repairs)
  {
    hide CheckUpdate, UpdateSpec, Adjusted;
  }

  lemma HumanKeepsOwners(w: World, run: Id, event: HD.Event, now: Time)
    ensures var w' := Human(w, run, event, now).0; w' == w.(store := w'.store, humans := w'.humans)
  {
    hide CheckUpdate, UpdateSpec, Advanced, HD.After, HD.OutcomeOf;
  }

  lemma OthersKeepOwners(env: Env, w: World, s: Step)
    requires !s.RequestReviewStep? && !s.RespondReviewStep? && !s.BindHumanStep?
    ensures SameOwners(w, After(env, w, s).0) && After(env, w, s).0.reviews == w.reviews
  {
    hide Project, Human, Persist, Bind, Evaluate, Busy, CreateSpec, AdmittedRecord, RR.AttemptRecorded, RR.ReviewApplied;
    match s
    case GoStep(_, _, _) =>
    case DayWorks(_) =>
    case ProjectStep(run, now) => ProjectKeepsOwners(w, run, now);
    case EvaluateStep(_, _, _, _) => DayStep(env, w, s);
    case BindStep(_, _) => DayStep(env, w, s);
    case BeginRepairStep(_, _) =>
    case RecordRepairStep(run, attempt, at, now) =>
      if run in w.repairs {
        var (after, status) := RR.AttemptRecorded(w.repairs[run], attempt, at);
        RepairKeepsOwners(w, run, w.repairs[run], after, now, status);
      }
    case ReviewRepairStep(run, review, at, now) =>
      if run in w.repairs {
        var (after, status) := RR.ReviewApplied(w.repairs[run], review, at);
        RepairKeepsOwners(w, run, w.repairs[run], after, now, status);
      }
    case HumanStep(run, event, now) => HumanKeepsOwners(w, run, event, now);
  }

  lemma AfterIs(env: Env, w: World, s: Step)
    ensures s.RequestReviewStep? ==> After(env, w, s) == RequestReview(w, s.run, s.report, s.at, s.now)
    ensures s.RespondReviewStep? ==> After(env, w, s) == RespondReview(w, s.run, s.response, s.at, s.effect, s.now)
    ensures s.BindHumanStep? ==> After(env, w, s) == BindHuman(w, s.run, s.request, s.now)
  {
  }

  lemma StepKeepsOwners(env: Env, w: World, s: Step)
    requires Owned(w) && StoreOk(w.store)
    ensures Owned(After(env, w, s).0)
  {
    hide StoreOk, After, RequestReview, RespondReview, BindHuman;
    match s
    case RequestReviewStep(run, report, at, now) =>
      RequestKeepsOwners(w, run, report, at, now);
      AfterIs(env, w, s);
    case RespondReviewStep(run, response, at, effect, now) =>
      RespondKeepsOwners(w, run, response, at, effect, now);
      AfterIs(env, w, s);
    case BindHumanStep(run, request, now) =>
      BindKeepsOwners(w, run, request, now);
      AfterIs(env, w, s);
    case _ => OthersKeepOwners(env, w, s);
  }

  lemma {:induction false} RunsKeepOwners(env: Env, h: History, n: nat)
    requires IsHistory(env, h) && n <= |h.steps| && h.worlds[0].requests == map[]
    ensures Owned(h.worlds[n])
  {
    hide Follows, Owned, StoreOk, StoreGrows;
    if n == 0 {
      NothingIsOwned(h.worlds[0]);
    } else {
      RunsKeepOwners(env, h, n - 1);
      RunsKeepTheStore(env, h, n - 1);
      assert StepAt(env, h, n - 1);
      FollowsIs(env, h.worlds[n - 1], h.steps[n - 1], h.worlds[n], h.replies[n - 1]);
      StepKeepsOwners(env, h.worlds[n - 1], h.steps[n - 1]);
    }
  }

  lemma NothingIsOwned(w: World)
    requires w.reviews == map[] && w.requests == map[]
    ensures Owned(w)
  {
  }

  lemma FollowsIs(env: Env, w: World, s: Step, w': World, r: Reply)
    requires Follows(env, w, s, w', r)
    ensures After(env, w, s).0 == w'
  {
    hide After;
  }

  /** Over any run of one process: no report is ever held for two runs, and no decision is ever bound to two. */
  lemma NothingServesTwoRuns(env: Env, h: History, n: nat, a: Id, b: Id)
    requires IsHistory(env, h) && n <= |h.steps| && h.worlds[0].requests == map[] && a != b
    ensures var w := h.worlds[n];
            && (a in w.reviews && b in w.reviews && w.reviews[a].report.Some? ==> w.reviews[a].report != w.reviews[b].report)
            && (a in w.requests && b in w.requests ==> w.requests[a].decision != w.requests[b].decision)
  {
    hide Follows, StoreOk;
    RunsKeepOwners(env, h, n);
  }

  // ----- repairs, and the gate -----

  /** What makes a Day's evidence complete for a run: no gap, something referenced, and every reference valid and of this run. */
  lemma ReadyExactly(w: World, record: RunRecord)
    ensures CompletionReady(w, record) <==>
              && w.day.contract.Some? && w.day.contract.value.remainingGaps == []
              && (exists k, t :: 0 <= k < |w.day.contract.value.criteria| && t in w.day.contract.value.criteria[k].recordIds)
              && forall k, t :: 0 <= k < |w.day.contract.value.criteria| && t in w.day.contract.value.criteria[k].recordIds ==>
                   exists r :: w.day.contract.value.criteria[k].recordIds[t] in w.day.evidence
                     && w.day.evidence[w.day.contract.value.criteria[k].recordIds[t]] == r
                     && r.runId == Some(record.intent.runId) && r.validatorResult
  {
    if w.day.contract.Some? {
      var criteria := w.day.contract.value.criteria;
      if c :| c in criteria && c.recordIds != map[] {
        var k :| 0 <= k < |criteria| && criteria[k] == c;
        var t :| t in criteria[k].recordIds;
      }
      forall k | 0 <= k < |criteria| ensures criteria[k] in criteria {}
    }
  }

  /** An episode begins on the stored run, with the paths that were allowed and nothing tried. */
  lemma RepairBegins(w: World, run: Id, allowed: set<Id>)
    requires run in w.store.files
    ensures var (w', r) := BeginRepair(w, run, allowed);
            && r == Accepted && w' == w.(repairs := w'.repairs) && w'.repairs == w.repairs[run := w'.repairs[run]]
            && w'.repairs[run] == RR.Repair(w.store.files[run], allowed, [], None, None)
  {
  }

  /** The run has taken over what its controller says: its state and blocker, on top of the stored history. */
  ghost predicate TookOver(w: World, w': World, run: Id, now: Time) {
    && run in w.store.files && run in w'.store.files && run in w'.repairs && w'.repairs[run].record == w'.store.files[run]
    && Moved(w, w', run, w'.repairs[run].record.control.state, w'.repairs[run].record.control.blocker, now)
  }

  /** An attempt reaches the run exactly when it may be taken; the run then stands where the attempt led. */
  lemma AttemptReachesRun(w: World, run: Id, attempt: RR.Attempt, at: Time, now: Time)
    requires WorldOk(w) && run in w.repairs && RR.RepairOk(w.repairs[run]) && 0 < w.repairs[run].Limit()
    ensures var (w', r) := RecordRepair(w, run, attempt, at, now);
            var before := w.repairs[run];
            && r == RepairView(RR.AttemptRecorded(before, attempt, at).1) && w' == w.(store := w'.store, repairs := w'.repairs)
            && (!RR.MayTake(before, attempt) ==> w' == w)
            && (RR.MayTake(before, attempt) ==>
                  && TookOver(w, w', run, now) && w'.repairs[run].attempts == before.attempts + [attempt]
                  && w'.store.files[run].control.state ==
                       (if attempt.passed then REVALIDATING else if RR.LastAlike(before, attempt) then HUMAN_ACTION_REQUIRED else DIAGNOSING_GAP))
  {
    hide CheckUpdate, UpdateSpec, StoreOk, RR.RepairOk, RR.AttemptRecorded, RR.MayTake, RR.LastAlike;
    assert RepairBound(w, run);
    StoredIdentity(w.store, run);
    RR.AttemptOutcome(w.repairs[run], attempt, at);
    AttemptMoves(w.repairs[run], attempt, at);
    var after := RR.AttemptRecorded(w.repairs[run], attempt, at).0;
    AdjustedStore(w.store, run, after.record, now);
    if RR.MayTake(w.repairs[run], attempt) { PersistedTakesOver(w, run, after, now, RR.AttemptRecorded(w.repairs[run], attempt, at).1); }
  }

  lemma PersistedTakesOver(w: World, run: Id, after: RR.Repair, now: Time, status: RR.Status)
    requires WorldOk(w) && run in w.repairs && after.record.control != w.repairs[run].record.control
    requires after.record.intent == w.repairs[run].record.intent && after.record.SameIdentity()
    requires after.record.control.resumesAtPreflight == after.record.control.blocker.Some?
    ensures var (w', r) := Persist(w, run, w.repairs[run], after, now, status);
            && TookOver(w, w', run, now) && w'.repairs[run] == after.(record := w'.repairs[run].record) && r == RepairView(status)
            && w'.repairs[run].record.control.state == after.record.control.state && w' == w.(store := w'.store, repairs := w'.repairs)
  {
    hide CheckUpdate, UpdateSpec, StoreOk, StoreGrows;
    assert RepairBound(w, run);
    StoredIdentity(w.store, run);
    AdjustedStore(w.store, run, after.record, now);
  }

  // ----- the current run -----

  /** The run that was gone for last; of several at one time, the one with the greatest id. */
  predicate GoneForLast(s: Store, run: Id)
    requires run in s.files
  {
    forall r :: r in s.files && r != run ==>
      || s.files[r].intent.goAt < s.files[run].intent.goAt
      || (s.files[r].intent.goAt == s.files[run].intent.goAt && s.files[r].intent.runId < s.files[run].intent.runId)
  }

  lemma CurrentIsTheLatest(s: Store, run: Id)
    ensures IsCurrent(s, run) <==> run in s.files && GoneForLast(s, run)
  {
  }
}
