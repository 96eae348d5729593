/** When a transport recovery is resolved and when it is escalated, by the state of the report that replaces it. */
module RecoveryOutcome {
  import opened Prelude
  import opened DayModels
  import opened ReviewerReports
  import opened TransportRecovery
  import opened RecoveryProperties

  predicate IsReplacement(e: Entry, r: Recovery) { r.child == Some(e.id) }

  predicate ReplacementApplied(registry: seq<Entry>, r: Recovery) {
    exists j :: 0 <= j < |registry| && IsReplacement(registry[j], r)
                && (registry[j].state == APPLIED || registry[j].state == ACKNOWLEDGED || registry[j].state == RESOLVED_BY_CONFIRMATION)
  }

  /** The replacement's file is in error, or it asks for a person. */
  predicate ReplacementFailed(registry: seq<Entry>, r: Recovery) {
    exists j :: 0 <= j < |registry| && IsReplacement(registry[j], r)
                && (registry[j].fileError || registry[j].state == HUMAN_REQUIRED || registry[j].state == CONTINUATION_FAILED
                    || registry[j].state == CONFIRMATION_BLOCKED)
  }

  /** The worker's own part cannot go on: see each of its branches. */
  predicate GivesUp(rid: ReportId, r: Recovery, comments: seq<Comment>, look: Look) {
    var replacements := Select(comments, (c: Comment) => c.replacing == Some(rid));
    var exhausted := r.attempts >= MAX_ATTEMPTS;
    if r.child == None && replacements != [] then
      |replacements| != 1 || look.replacement == Refused || (look.replacement == Unavailable && exhausted)
    else if r.phase == POSTING then !PostedOnce(comments, r.trigger, r.child)
    else
      || exhausted || Checked(rid, r, comments, look.request) == CheckRefused
      || (Checked(rid, r, comments, look.request).Repairable?
          && (look.delivery == DeliveryRefused || (look.delivery == DeliveryUnavailable && r.attempts + 1 >= MAX_ATTEMPTS)))
  }

  predicate AtWork(r: Recovery) { r.phase == DETECTED || r.phase == PREPARING || r.phase == POSTING }

  // ----- one visit -----

  lemma {:induction false} FoundIs(registry: seq<Entry>, id: Option<ReportId>)
    ensures var e := Find(registry, id);
            && (e == None <==> forall j :: 0 <= j < |registry| ==> id != Some(registry[j].id))
            && (e.Some? ==> e.value in registry && id == Some(e.value.id))
  {
    if registry != [] { FoundIs(registry[1..], id); }
  }

  lemma TargetIs(registry: seq<Entry>, r: Recovery)
    requires Distinct(registry)
    ensures Applied(Find(registry, r.child)) <==> ReplacementApplied(registry, r)
    ensures r.child.Some? && Failed(Find(registry, r.child)) <==> ReplacementFailed(registry, r)
  {
    FoundIs(registry, r.child);
    var e := Find(registry, r.child);
    if e.Some? {
      var j :| 0 <= j < |registry| && registry[j] == e.value;
      assert IsReplacement(registry[j], r);
      assert forall k :: 0 <= k < |registry| && IsReplacement(registry[k], r) ==> k == j;
    }
  }

  /** One visit resolves exactly when the replacement was applied, and escalates exactly for these reasons. */
  lemma VisitOutcome(registry: seq<Entry>, rid: ReportId, r: Recovery, comments: Option<seq<Comment>>, look: Look, now: Time)
    requires Distinct(registry) && !r.Terminal()
    ensures var phase := Visited(rid, r, Find(registry, r.child), comments, look, now).recovery.phase;
            && (phase == RESOLVED <==> ReplacementApplied(registry, r))
            && (phase == ESCALATED <==> Escalates(registry, rid, r, comments, look, now))
  {
    hide Select, Checked, PostedOnce, Applied, Failed, ReplacementApplied, ReplacementFailed;
    TargetIs(registry, r);
  }

  predicate Escalates(registry: seq<Entry>, rid: ReportId, r: Recovery, comments: Option<seq<Comment>>, look: Look, now: Time) {
    && !ReplacementApplied(registry, r)
    && (ReplacementFailed(registry, r) || now >= r.deadline
        || (comments.Some? && AtWork(r) && GivesUp(rid, r, comments.value, look)))
  }

  // ----- one event -----

  predicate Going(w: World, i: nat) { i < |w.registry| && w.registry[i].recovery.Some? && !w.registry[i].recovery.value.Terminal() }

  /** This event works on record `i`, and what it finds is saved. */
  predicate Reaches(w: World, e: Event, i: nat) {
    Going(w, i)
    && match e
       case Tick(comments, looks, now) => |looks| == |w.registry| && TickUpTo(w.registry, i, comments, looks, now).post == None
       case Death(comments, looks, now, at, cut) =>
         && |looks| == |w.registry| && i <= at < |w.registry| && TickUpTo(w.registry, i, comments, looks, now).post == None
         && (i == at ==> cut != NothingSaved)
       case _ => false
  }

  lemma {:induction false} TickVisits(snapshot: seq<Entry>, n: nat, i: nat, comments: Option<seq<Comment>>, looks: seq<Look>, now: Time)
    requires i < |snapshot| && n <= |snapshot| == |looks|
    ensures TickUpTo(snapshot, n, comments, looks, now).registry[i].recovery ==
              var v := VisitAt(snapshot, i, comments, looks, now);
              if i < n && v.Some? && TickUpTo(snapshot, i, comments, looks, now).post == None then Some(v.value.recovery)
              else snapshot[i].recovery
  {
    hide Visited;
    if n > 0 {
      TickVisits(snapshot, n - 1, i, comments, looks, now);
      var before := TickUpTo(snapshot, n - 1, comments, looks, now);
      if i < n - 1 && before.post == None && TickUpTo(snapshot, i, comments, looks, now).post.Some? {
        PostEndsTick(snapshot, i, n - 1, comments, looks, now);
      }
    }
  }

  /** What one event makes of a record that is going on. */
  lemma EventOutcome(w: World, e: Event, i: nat)
    requires Distinct(w.registry) && Going(w, i)
    ensures i < |After(w, e).registry| && After(w, e).registry[i].recovery.Some?
    ensures After(w, e).registry[i].recovery.value.phase == RESOLVED <==> Resolves(w, e, i)
    ensures After(w, e).registry[i].recovery.value.phase == ESCALATED <==> GetsEscalated(w, e, i)
  {
    hide Visited, TickUpTo, Select, ReplacementApplied, ReplacementFailed, GivesUp, Follows;
    var r := w.registry[i].recovery.value;
    match e
    case Tick(comments, looks, now) =>
      if |looks| == |w.registry| {
        TickVisits(w.registry, |w.registry|, i, comments, looks, now);
        VisitOutcome(w.registry, w.registry[i].id, r, comments, looks[i], now);
      }
    case Death(comments, looks, now, at, cut) =>
      if |looks| == |w.registry| && at < |w.registry| {
        TickVisits(w.registry, at, i, comments, looks, now);
        VisitOutcome(w.registry, w.registry[i].id, r, comments, looks[i], now);
        VisitFollows(w.registry[i].id, r, Find(w.registry, r.child), comments, looks[i], now);
      }
    case Reject(_, _, _) =>
    case Other(_) =>
  }

  ghost predicate Resolves(w: World, e: Event, i: nat) {
    Reaches(w, e, i) && ReplacementApplied(w.registry, w.registry[i].recovery.value)
  }

  ghost predicate GetsEscalated(w: World, e: Event, i: nat) {
    Reaches(w, e, i) && Escalates(w.registry, w.registry[i].id, w.registry[i].recovery.value, e.comments, e.looks[i], e.now)
  }

  // ----- any events -----

  function Phase(w: World, i: nat): Option<Phase> {
    if i < |w.registry| && w.registry[i].recovery.Some? then Some(w.registry[i].recovery.value.phase) else None
  }

  lemma PhaseStep(w: World, e: Event, i: nat)
    requires WorldOk(w)
    ensures Phase(After(w, e), i) == Some(RESOLVED) <==> Phase(w, i) == Some(RESOLVED) || Resolves(w, e, i)
    ensures Phase(After(w, e), i) == Some(ESCALATED) <==> Phase(w, i) == Some(ESCALATED) || GetsEscalated(w, e, i)
  {
    hide After, Follows, ReplacementApplied, Escalates;
    if Going(w, i) {
      EventOutcome(w, e, i);
    } else if i < |w.registry| && w.registry[i].recovery.Some? {
      EndedRecoveriesStay(w, e, i);
    } else {
      StepFollows(w, e);
      if i < |w.registry| { assert EntryFollows(w.registry[i], After(w, e).registry[i]); }
    }
  }

  /**
   * Whatever the repository answers and wherever processes die: a recovery is RESOLVED exactly when some poll that
   * worked on it found its replacement applied, and ESCALATED exactly when one found, before that, its replacement
   * failed, its deadline passed, or its own part at an end.
   */
  lemma {:induction false} RecoveryEndsBy(registry: seq<Entry>, events: seq<Event>, i: nat)
    requires Distinct(registry) && forall j :: 0 <= j < |registry| ==> registry[j].recovery == None
    ensures Phase(AfterAll(World(registry, []), events), i) == Some(RESOLVED) <==>
              exists k: nat :: k < |events| && Resolves(AfterAll(World(registry, []), events[..k]), events[k], i)
    ensures Phase(AfterAll(World(registry, []), events), i) == Some(ESCALATED) <==>
              exists k: nat :: k < |events| && GetsEscalated(AfterAll(World(registry, []), events[..k]), events[k], i)
  {
    hide After, WorldOk, Resolves, GetsEscalated, Phase;
    if events == [] {
      NoPhaseYet(registry, i);
    } else {
      var n, w := |events| - 1, World(registry, []);
      var before := events[..n];
      RecoveryEndsBy(registry, before, i);
      RecoveriesAreBounded(registry, before);
      PhaseStep(AfterAll(w, before), events[n], i);
      assert forall k: nat :: k < n ==> before[..k] == events[..k] && before[k] == events[k];
      OneMoreEvent(w, events, i);
    }
  }

  /** Some event before the last one did it, or the last one. */
  lemma OneMoreEvent(w: World, events: seq<Event>, i: nat)
    requires events != []
    ensures var n := |events| - 1;
            var before := events[..n];
            && ((exists k: nat :: k < |events| && Resolves(AfterAll(w, events[..k]), events[k], i)) <==>
                  (exists k: nat :: k < n && Resolves(AfterAll(w, before[..k]), before[k], i)) || Resolves(AfterAll(w, before), events[n], i))
            && ((exists k: nat :: k < |events| && GetsEscalated(AfterAll(w, events[..k]), events[k], i)) <==>
                  (exists k: nat :: k < n && GetsEscalated(AfterAll(w, before[..k]), before[k], i)) || GetsEscalated(AfterAll(w, before), events[n], i))
  {
    hide After, Resolves, GetsEscalated, AfterAll;
    var n := |events| - 1;
    var before := events[..n];
    forall k: nat | k < n ensures before[..k] == events[..k] && before[k] == events[k] {}
    forall k: nat | k < n
      ensures Resolves(AfterAll(w, before[..k]), before[k], i) == Resolves(AfterAll(w, events[..k]), events[k], i)
      ensures GetsEscalated(AfterAll(w, before[..k]), before[k], i) == GetsEscalated(AfterAll(w, events[..k]), events[k], i)
    {
      assert before[..k] == events[..k] && before[k] == events[k];
    }
  }

  lemma NoPhaseYet(registry: seq<Entry>, i: nat)
    requires forall j :: 0 <= j < |registry| ==> registry[j].recovery == None
    ensures Phase(World(registry, []), i) == None
  {
  }

  // ----- the other phases -----

  /** The rejected report is in order except for an authority line that its trigger left out and its request still has. */
  predicate Repairable(rid: ReportId, r: Recovery, comments: seq<Comment>, look: Look) {
    var reports := Select(comments, (c: Comment) => c.reportId == Some(rid));
    && r.reason == AuthorityRecordMismatch && |reports| == 1 && reports[0].recoveryOf == None
    && look.request.Found? && look.request.request.recoveryOf == None
    && reports[0].pin.authority == None && look.request.request.authority.Some? && look.request.request.supported
    && reports[0].pin.reviewedCommit.Some?
    && look.request.request.fields ==
         reports[0].pin.(authority := look.request.request.fields.authority, commit := look.request.request.fields.commit)
  }

  predicate Overtaken(rid: ReportId, r: Recovery, comments: seq<Comment>) {
    r.child == None && Select(comments, (c: Comment) => c.replacing == Some(rid)) != []
  }

  /** The visit comes as far as the worker's own part. */
  predicate Works(registry: seq<Entry>, r: Recovery, comments: Option<seq<Comment>>, now: Time) {
    && !ReplacementApplied(registry, r) && !ReplacementFailed(registry, r) && now < r.deadline && comments.Some? && AtWork(r)
  }

  predicate Prepares(registry: seq<Entry>, rid: ReportId, r: Recovery, comments: Option<seq<Comment>>, look: Look, now: Time) {
    && Works(registry, r, comments, now) && r.phase != POSTING && r.attempts < MAX_ATTEMPTS
    && !Overtaken(rid, r, comments.value) && Repairable(rid, r, comments.value, look)
  }

  lemma RepairableIs(rid: ReportId, r: Recovery, comments: seq<Comment>, look: Look)
    ensures Checked(rid, r, comments, look.request).Repairable? <==> Repairable(rid, r, comments, look)
    ensures Checked(rid, r, comments, look.request).Repairable? ==>
              Checked(rid, r, comments, look.request).commit == Select(comments, (c: Comment) => c.reportId == Some(rid))[0].pin.commit
  {
    hide Select;
  }

  /**
   * A replacement is published exactly when a repairable rejection is still open, unovertaken and within its
   * attempts, and its request was stored; an attempt is counted exactly when one is prepared.
   */
  lemma PublishedExactly(registry: seq<Entry>, rid: ReportId, r: Recovery, comments: Option<seq<Comment>>, look: Look, now: Time)
    requires Distinct(registry) && !r.Terminal()
    ensures var v := Visited(rid, r, Find(registry, r.child), comments, look, now);
            var prepares := Prepares(registry, rid, r, comments, look, now);
            && (v.post.Some? <==> prepares && look.delivery.Delivered?)
            && (v.recovery.attempts == r.attempts + if prepares then 1 else 0)
            && (prepares ==>
                  var child := RepairOf(rid, Select(comments.value, (c: Comment) => c.reportId == Some(rid))[0].pin.commit);
                  && v.recovery.child == Some(child)
                  && (look.delivery.Delivered? ==> v.post == Some(Trigger(child, rid, look.delivery.commit)) && v.recovery.trigger == v.post && v.recovery.phase == POSTING))
  {
    hide Select, Checked, PostedOnce, Applied, Failed, ReplacementApplied, ReplacementFailed, Repairable;
    TargetIs(registry, r);
    if comments.Some? { RepairableIs(rid, r, comments.value, look); }
  }

  /** When a recovery waits for its replacement, and when it notices the replacement's reply. */
  lemma WaitsExactly(registry: seq<Entry>, rid: ReportId, r: Recovery, comments: Option<seq<Comment>>, look: Look, now: Time)
    requires Distinct(registry) && !r.Terminal()
    ensures var phase := Visited(rid, r, Find(registry, r.child), comments, look, now).recovery.phase;
            var open := !ReplacementApplied(registry, r) && !ReplacementFailed(registry, r) && now < r.deadline;
            var replied := exists j :: 0 <= j < |registry| && IsReplacement(registry[j], r)
                                       && (registry[j].state == RESPONSE_RECEIVED || registry[j].state == APPLYING);
            && (phase == RECEIVED <==> open && (r.phase == RECEIVED || (r.phase == AWAITING && comments.Some? && replied)))
            && (phase == AWAITING <==>
                  && open
                  && ((r.phase == AWAITING && !(comments.Some? && replied))
                      || (comments.Some? && AtWork(r)
                          && if Overtaken(rid, r, comments.value) then
                               |Select(comments.value, (c: Comment) => c.replacing == Some(rid))| == 1 && look.replacement.Found?
                             else r.phase == POSTING && PostedOnce(comments.value, r.trigger, r.child))))
  {
    hide Select, Checked, PostedOnce, Applied, Failed, ReplacementApplied, ReplacementFailed;
    TargetIs(registry, r);
    FoundIs(registry, r.child);
    var e := Find(registry, r.child);
    if e.Some? {
      var j :| 0 <= j < |registry| && registry[j] == e.value;
      assert IsReplacement(registry[j], r);
      assert forall k :: 0 <= k < |registry| && IsReplacement(registry[k], r) ==> k == j;
    }
  }

  /** A rejection opens a recovery of ten minutes for a report that has none, and changes no other report. */
  lemma RejectionOpens(registry: seq<Entry>, i: nat, reason: RejectReason, now: Time)
    requires i < |registry|
    ensures var after := Rejected(registry, i, reason, now);
            && |after| == |registry| && (forall k :: 0 <= k < |registry| && k != i ==> after[k] == registry[k])
            && after[i] == registry[i].(recovery := if registry[i].recovery.Some? then registry[i].recovery
                                                    else Some(Recovery(DETECTED, reason, now + 600, 0, None, None)))
  {
  }

  // ----- reading a publication back -----

  lemma {:induction false} SelectedNone(comments: seq<Comment>, p: Comment -> bool)
    ensures Select(comments, p) == [] <==> forall k :: 0 <= k < |comments| ==> !p(comments[k])
  {
    if comments != [] {
      SelectedNone(comments[1..], p);
      assert forall k :: 1 <= k < |comments| ==> comments[k] == comments[1..][k - 1];
      assert forall k :: 0 <= k < |comments| - 1 ==> comments[1..][k] == comments[k + 1];
    }
  }

  /** Comment `k`, and no other, is one of those. */
  ghost predicate Alone(comments: seq<Comment>, p: Comment -> bool, k: nat) {
    k < |comments| && p(comments[k]) && forall j :: 0 <= j < |comments| && j != k ==> !p(comments[j])
  }

  lemma {:induction false} SelectedOne(comments: seq<Comment>, p: Comment -> bool)
    ensures |Select(comments, p)| == 1 <==> exists k: nat :: Alone(comments, p, k)
    ensures forall k: nat :: Alone(comments, p, k) ==> Select(comments, p) == [comments[k]]
  {
    if comments != [] {
      var rest := comments[1..];
      SelectedOne(rest, p);
      SelectedNone(rest, p);
      forall j | 0 <= j < |rest| ensures rest[j] == comments[j + 1] {}
      if p(comments[0]) {
        if Select(rest, p) == [] { assert Alone(comments, p, 0) by { assert forall j :: 1 <= j < |comments| ==> comments[j] == rest[j - 1]; } }
        forall k: nat | Alone(comments, p, k) ensures k == 0 && Select(rest, p) == [] {
          forall j | 0 <= j < |rest| ensures !p(rest[j]) { assert rest[j] == comments[j + 1]; }
        }
      } else {
        forall k: nat | Alone(rest, p, k) ensures Alone(comments, p, k + 1) {
          forall j | 0 <= j < |comments| && j != k + 1 ensures !p(comments[j]) { if j > 0 { assert comments[j] == rest[j - 1]; } }
        }
        forall k: nat | Alone(comments, p, k) ensures k > 0 && Alone(rest, p, k - 1) {
          forall j | 0 <= j < |rest| && j != k - 1 ensures !p(rest[j]) { assert rest[j] == comments[j + 1]; }
        }
      }
    }
  }

  /** A publication is confirmed exactly when one comment alone carries the replacement's id, with the origin and commit that were published. */
  lemma PublicationIsConfirmed(comments: seq<Comment>, trigger: Option<Trigger>, child: Option<ReportId>)
    ensures PostedOnce(comments, trigger, child) <==>
              trigger.Some? && exists k: nat ::
                && Alone(comments, (c: Comment) => c.reportId == child, k)
                && comments[k].recoveryOf == Some(trigger.value.recoveryOf) && comments[k].pin.commit == trigger.value.commit
  {
    hide Select;
    SelectedOne(comments, (c: Comment) => c.reportId == child);
  }
}
