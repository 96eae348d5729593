/** What holds over any sequence of steps of one process. */
module RunHistory {
  import opened Prelude
  import opened DayModels
  import opened RunStore
  import opened EvidenceCompletion
  import opened EvidenceBinding
  import opened RunWorld
  import opened RunProperties
  import RR = RepairRecovery
  import RC = ReviewControl
  import HD = HumanDecision

  /** The steps a process takes, the world before each step and after the last, and the replies. */
  datatype History = History(worlds: seq<World>, steps: seq<Step>, replies: seq<Reply>)

  ghost predicate Follows(env: Env, w: World, s: Step, w': World, r: Reply) {
    After(env, w, s) == (w', r)
  }

  /** A process starts without repairs or reviews, on whatever store earlier processes left behind. */
  ghost predicate Starts(w: World) {
    StoreOk(w.store) && w.repairs == map[] && w.reviews == map[]
  }

  ghost predicate StepAt(env: Env, h: History, i: nat) {
    i < |h.steps| && i < |h.replies| && i + 1 < |h.worlds|
    && Follows(env, h.worlds[i], h.steps[i], h.worlds[i + 1], h.replies[i])
  }

  ghost predicate IsHistory(env: Env, h: History) {
    && |h.worlds| == |h.steps| + 1 && |h.replies| == |h.steps|
    && Starts(h.worlds[0])
    && forall i: nat :: i < |h.steps| ==> StepAt(env, h, i)
  }

  /** The store keeps its versions over any run, and never refuses an update. */
  lemma {:induction false} RunsKeepTheStore(env: Env, h: History, n: nat)
    requires IsHistory(env, h) && n <= |h.steps|
    ensures WorldOk(h.worlds[n]) && StoreGrows(h.worlds[0].store, h.worlds[n].store)
    ensures n > 0 ==> !h.replies[n - 1].StoreRefused?
  {
    hide StoreOk, After, Extends;
    if n == 0 {
      StoreStays(h.worlds[0].store);
    } else {
      RunsKeepTheStore(env, h, n - 1);
      assert StepAt(env, h, n - 1);
      StepKeepsWorld(env, h.worlds[n - 1], h.steps[n - 1]);
      GrowthChains(h.worlds[0].store, h.worlds[n - 1].store, h.worlds[n].store);
    }
  }

  lemma GrowthChains(a: Store, b: Store, c: Store)
    requires StoreGrows(a, b) && StoreGrows(b, c)
    ensures StoreGrows(a, c)
  {
    hide StoreOk;
    forall run | run in a.files ensures run in c.files && Extends(a, c, run) {
      assert Extends(a, b, run) && Extends(b, c, run);
    }
  }

  // ----- entering COMPLETE -----

  /** Everything that is checked before a run may become COMPLETE. */
  ghost predicate CompletionGate(w: World, run: Id) {
    && run in w.store.files && IsCurrent(w.store, run)
    && w.day.state == COMPLETE && w.day.runId == Some(run)
    && w.day.selectedDay == Some(w.store.files[run].intent.selectedDay)
    && w.day.contract.Some? && FingerprintOf(w.day.contract.value) == w.store.files[run].intent.contractFingerprint
    && CompletionReady(w, w.store.files[run])
    && w.store.files[run].control.blocker != Some(ReviewResponseRequired)
    && (run in w.reviews ==> w.reviews[run].state == Some(RC.VERIFIED))
  }

  predicate IsComplete(w: World, run: Id) {
    run in w.store.files && w.store.files[run].control.state == COMPLETE
  }

  lemma GateChecked(w: World, run: Id)
    requires StoreOk(w.store) && run in w.store.files && w.day.state == COMPLETE
    ensures ProjectReason(w, w.store.files[run]) == None <==> CompletionGate(w, run)
  {
    StoredIdentity(w.store, run);
    hide StoreOk, CompletionReady, IsCurrent;
  }

  /** The only step that makes a run COMPLETE is a projection that passes the gate. */
  lemma CompleteOnlyThroughGate(env: Env, w: World, s: Step, w': World, r: Reply, run: Id)
    requires WorldOk(w) && Follows(env, w, s, w', r) && IsComplete(w', run) && !IsComplete(w, run)
    ensures s.ProjectStep? && s.run == run && CompletionGate(w, run)
  {
    hide StoreOk, After, ProjectReason, CompletionGate, Extends;
    StepKeepsWorld(env, w, s);
    if run in w.store.files && w.day.state == COMPLETE { GateChecked(w, run); }
  }

  /** A run that is COMPLETE was projected through the gate, and has been COMPLETE ever since. */
  lemma {:induction false} CompleteWasProjected(env: Env, h: History, n: nat, run: Id) returns (k: nat)
    requires IsHistory(env, h) && n <= |h.steps| && IsComplete(h.worlds[n], run) && !IsComplete(h.worlds[0], run)
    ensures k < n && h.steps[k].ProjectStep? && h.steps[k].run == run
    ensures CompletionGate(h.worlds[k], run)
    ensures forall i :: k < i <= n ==> IsComplete(h.worlds[i], run)
  {
    hide Follows, IsComplete, CompletionGate, WorldOk, StoreGrows;
    RunsKeepTheStore(env, h, n - 1);
    if IsComplete(h.worlds[n - 1], run) {
      k := CompleteWasProjected(env, h, n - 1, run);
    } else {
      k := n - 1;
      assert StepAt(env, h, k);
      CompleteOnlyThroughGate(env, h.worlds[k], h.steps[k], h.worlds[n], h.replies[k], run);
    }
  }

  // ----- the review of a run is the one last requested -----

  function ReportOf(s: Step): Option<Id> { if s.RequestReviewStep? then Some(s.report) else None }

  /** Step `i` requested a review of this run, and the request was accepted. */
  predicate Requests(h: History, i: nat, run: Id) {
    i < |h.steps| && i < |h.replies|
    && h.steps[i].RequestReviewStep? && h.steps[i].run == run && h.replies[i] == ReviewView(RC.Accepted)
  }

  ghost predicate LatestRequest(h: History, n: nat, i: nat, run: Id) {
    i < n && Requests(h, i, run) && forall j :: i < j < n ==> !Requests(h, j, run)
  }

  /** A response was taken and its effect has not been read back. */
  predicate Stuck(review: RC.Review) {
    (review.state == Some(RC.RECEIVED) || review.state == Some(RC.APPLIED)) && review.report.Some?
  }

  predicate StuckReview(w: World, run: Id) { run in w.reviews && Stuck(w.reviews[run]) }

  /** What one step does to the review of one run. */
  ghost predicate ReviewChange(requested: Option<Id>, before: RC.Review, after: RC.Review) {
    && after.report == (if requested.Some? then requested else before.report)
    && (RC.Correlated(before) ==> RC.Correlated(after))
  }

  lemma SentChange(review: RC.Review, report: Id, at: Time)
    ensures ReviewChange(if RC.Sent(review, report, at).1 == RC.Accepted then Some(report) else None, review, RC.Sent(review, report, at).0)
    ensures RC.Sent(review, report, at).1 != RC.Accepted ==> review.report.Some? && RC.Sent(review, report, at).0 == review
    ensures Stuck(review) ==> RC.Sent(review, report, at).1 != RC.Accepted
  {
  }

  lemma ResponseChange(review: RC.Review, response: RC.Response, at: Time, observed: Option<Id>)
    ensures ReviewChange(None, review, RC.Received(review, response, at, true).0)
    ensures Stuck(review) ==> RC.Received(review, response, at, true) == (review, RC.Received(review, response, at, true).1)
                              && RC.Received(review, response, at, true).1 != RC.Accepted
    ensures var applied := RC.Applied(RC.Received(review, response, at, true).0, response.responseId).0;
            ReviewChange(None, review, applied) && ReviewChange(None, review, RC.Verified(applied, observed).0)
  {
  }

  function RequestOf(s: Step, r: Reply, run: Id): Option<Id> {
    if s.RequestReviewStep? && s.run == run && r == ReviewView(RC.Accepted) then Some(s.report) else None
  }

  lemma RequestChange(w: World, s: Step)
    requires StoreOk(w.store) && s.RequestReviewStep?
    ensures var w', r := RequestReview(w, s.run, s.report, s.at, s.now).0, RequestReview(w, s.run, s.report, s.at, s.now).1;
            && ReviewChange(RequestOf(s, r, s.run), ReviewOf(w, s.run), ReviewOf(w', s.run))
            && (s.run in w'.reviews <==> s.run in w.reviews || RequestOf(s, r, s.run).Some?)
            && (StuckReview(w, s.run) ==> RequestOf(s, r, s.run) == None && w'.reviews == w.reviews)
  {
    hide CheckUpdate, UpdateSpec, StoreOk, StoreGrows, Only, Advanced, RC.Sent, RC.Correlated, Stuck;
    SentChange(ReviewOf(w, s.run), s.report, s.at);
    if s.run in w.store.files { AdvanceStore(w.store, s.run, HUMAN_ACTION_REQUIRED, Some(ReviewResponseRequired), s.now); }
  }

  lemma RespondChange(w: World, s: Step)
    requires s.RespondReviewStep?
    ensures var w' := RespondReview(w, s.run, s.response, s.at, s.effect, s.now).0;
            && ReviewChange(None, ReviewOf(w, s.run), ReviewOf(w', s.run))
            && w'.reviews.Keys == w.reviews.Keys
            && (StuckReview(w, s.run) ==> w'.reviews == w.reviews)
  {
    hide CheckUpdate, UpdateSpec, Advanced, ContinuationOf, RC.Received, RC.Applied, RC.Verified, RC.Correlated, Stuck;
    ResponseChange(ReviewOf(w, s.run), s.response, s.at, s.effect.observed);
  }

  predicate TouchesReview(s: Step, run: Id) {
    (s.RequestReviewStep? || s.RespondReviewStep?) && s.run == run
  }

  lemma RepairKeepsReviews(env: Env, w: World, s: Step)
    requires IsRepair(s)
    ensures After(env, w, s).0.reviews == w.reviews
  {
    hide Persist, RR.AttemptRecorded, RR.ReviewApplied;
    if (s.RecordRepairStep? || s.ReviewRepairStep?) && s.run in w.repairs {
      var before := w.repairs[s.run];
      var after := if s.RecordRepairStep? then RR.AttemptRecorded(before, s.attempt, s.at) else RR.ReviewApplied(before, s.review, s.at);
      PersistKeepsReviews(w, s.run, before, after.0, s.now, after.1);
    }
  }

  lemma PersistKeepsReviews(w: World, run: Id, before: RR.Repair, after: RR.Repair, now: Time, status: RR.Status)
    ensures Persist(w, run, before, after, now, status).0.reviews == w.reviews
  {
    hide CheckUpdate, UpdateSpec, Adjusted;
  }

  lemma RunKeepsReviews(env: Env, w: World, s: Step)
    requires s.ProjectStep? || s.BindHumanStep? || s.HumanStep? || s.GoStep?
    ensures After(env, w, s).0.reviews == w.reviews
  {
    hide CheckUpdate, UpdateSpec, Advanced, ProjectReason, CreateSpec, Busy, HD.After, HD.OutcomeOf;
  }

  lemma OtherReviewsStay(env: Env, w: World, s: Step, run: Id)
    requires !TouchesReview(s, run)
    ensures run in w.reviews <==> run in After(env, w, s).0.reviews
    ensures run in w.reviews ==> After(env, w, s).0.reviews[run] == w.reviews[run]
  {
    hide CheckUpdate, UpdateSpec, Advanced, ContinuationOf, Project, Evaluate, Bind, BeginRepair, RecordRepair, ReviewRepair, Go,
         BindHuman, Human, RC.Sent, RC.Received, RC.Applied, RC.Verified;
    if IsRepair(s) { RepairKeepsReviews(env, w, s); }
    else if s.DayWorks? || s.EvaluateStep? || s.BindStep? { DayStep(env, w, s); }
    else if !s.RequestReviewStep? && !s.RespondReviewStep? { RunKeepsReviews(env, w, s); }
  }

  lemma ReviewStep(env: Env, w: World, s: Step, w': World, r: Reply, run: Id)
    requires StoreOk(w.store) && Follows(env, w, s, w', r)
    ensures ReviewChange(RequestOf(s, r, run), ReviewOf(w, run), ReviewOf(w', run))
    ensures run in w'.reviews <==> run in w.reviews || RequestOf(s, r, run).Some?
    ensures StuckReview(w, run) ==> run in w'.reviews && w'.reviews[run] == w.reviews[run] && RequestOf(s, r, run) == None
  {
    hide CheckUpdate, UpdateSpec, Advanced, StoreOk, RequestReview, RespondReview, RC.Correlated, Stuck;
    if !TouchesReview(s, run) {
      OtherReviewsStay(env, w, s, run);
    } else if s.RequestReviewStep? {
      RequestChange(w, s);
    } else {
      RespondChange(w, s);
    }
  }

  /** A bound review carries the report of the latest accepted request, and exists as soon as there was one. */
  lemma {:induction false} ReviewIsLatestRequest(env: Env, h: History, n: nat, run: Id)
    requires IsHistory(env, h) && n <= |h.steps|
    ensures RC.Correlated(ReviewOf(h.worlds[n], run))
    ensures run in h.worlds[n].reviews <==> exists i: nat :: i < n && Requests(h, i, run)
    ensures run in h.worlds[n].reviews ==>
              exists i: nat :: LatestRequest(h, n, i, run) && h.worlds[n].reviews[run].report == ReportOf(h.steps[i])
  {
    hide Follows, WorldOk, StoreGrows, StoreOk, RC.Correlated;
    if n == 0 {
      NewReviewCorrelated();
    } else {
      ReviewIsLatestRequest(env, h, n - 1, run);
      RunsKeepTheStore(env, h, n - 1);
      StoreOfWorld(h.worlds[n - 1]);
      assert StepAt(env, h, n - 1);
      ReviewStep(env, h.worlds[n - 1], h.steps[n - 1], h.worlds[n], h.replies[n - 1], run);
      if Requests(h, n - 1, run) {
        assert LatestRequest(h, n, n - 1, run);
      } else if run in h.worlds[n].reviews {
        var i: nat :| LatestRequest(h, n - 1, i, run) && h.worlds[n - 1].reviews[run].report == ReportOf(h.steps[i]);
        assert LatestRequest(h, n, i, run);
      }
    }
  }

  lemma StoreOfWorld(w: World)
    requires WorldOk(w)
    ensures StoreOk(w.store)
  {
  }

  lemma NewReviewCorrelated()
    ensures RC.Correlated(RC.NewReview)
  {
  }

  /** The reviewer answered exactly this report in time, and the effect of the answer was read back. */
  predicate VerifiedAnswer(review: RC.Review, report: Option<Id>) {
    && review.state == Some(RC.VERIFIED) && review.evidence.Some?
    && review.response.Some? && Some(review.response.value.inReplyTo) == report
    && review.receivedAt.Some? && review.sentAt.Some?
    && review.receivedAt.value <= review.sentAt.value + RC.TIMEOUT_SECONDS
  }

  /**
   * When a run becomes COMPLETE, it passes the gate, and the review requested last for it in this process,
   * if there is one, was answered and verified.
   */
  lemma CompleteMeansReviewVerified(env: Env, h: History, k: nat, run: Id)
    requires IsHistory(env, h) && k < |h.steps| && !IsComplete(h.worlds[k], run) && IsComplete(h.worlds[k + 1], run)
    ensures CompletionGate(h.worlds[k], run)
    ensures (exists i: nat :: i < k && Requests(h, i, run)) ==>
              exists i: nat :: LatestRequest(h, k, i, run) && VerifiedAnswer(ReviewOf(h.worlds[k], run), ReportOf(h.steps[i]))
  {
    hide Follows, WorldOk, StoreGrows, StoreOk, IsComplete, CompletionReady, IsCurrent;
    RunsKeepTheStore(env, h, k);
    assert StepAt(env, h, k);
    CompleteOnlyThroughGate(env, h.worlds[k], h.steps[k], h.worlds[k + 1], h.replies[k], run);
    ReviewIsLatestRequest(env, h, k, run);
  }

  // ----- a review whose effect was not read back -----

  /**
   * Once a response has been applied and its effect not read back, nothing in this process revives that
   * review: it never changes again, no new request for the run is accepted, and the run cannot become COMPLETE.
   */
  lemma {:induction false} StuckReviewBlocksCompletion(env: Env, h: History, m: nat, n: nat, run: Id)
    requires IsHistory(env, h) && m <= n < |h.steps| && StuckReview(h.worlds[m], run)
    ensures run in h.worlds[n].reviews && h.worlds[n].reviews[run] == h.worlds[m].reviews[run]
    ensures !Requests(h, n, run)
    ensures !IsComplete(h.worlds[n], run) ==> !IsComplete(h.worlds[n + 1], run)
  {
    hide Follows, WorldOk, StoreGrows, StoreOk, IsComplete, CompletionReady, IsCurrent;
    if m < n {
      RunsKeepTheStore(env, h, n - 1);
      StuckReviewBlocksCompletion(env, h, m, n - 1, run);
      assert StepAt(env, h, n - 1);
      StoreOfWorld(h.worlds[n - 1]);
      ReviewStep(env, h.worlds[n - 1], h.steps[n - 1], h.worlds[n], h.replies[n - 1], run);
    }
    RunsKeepTheStore(env, h, n);
    assert StepAt(env, h, n);
    StoreOfWorld(h.worlds[n]);
    ReviewStep(env, h.worlds[n], h.steps[n], h.worlds[n + 1], h.replies[n], run);
    if !IsComplete(h.worlds[n], run) && IsComplete(h.worlds[n + 1], run) {
      CompleteOnlyThroughGate(env, h.worlds[n], h.steps[n], h.worlds[n + 1], h.replies[n], run);
    }
  }
}
