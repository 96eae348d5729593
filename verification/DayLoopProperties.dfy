/** Every request of the Day worker is in the transition table, but one, and a worker that returns is settled. */
module DayLoopProperties {
  import opened Prelude
  import opened DayModels
  import opened DayStateMachine
  import opened DayLoop

  predicate Settled(w: Worker) { !Active(w.state) }

  /** A retry request that no longer matches its repair scope is taken up. */
  predicate StaleRefusal(w: Worker, c: Cycle) {
    !c.stop && c.trouble != RaiseOnEvaluate && !c.complete && w.stale && !c.resumeMatches
  }

  lemma Moves(w: Worker, to: DayState)
    requires ValidTransition(w.state, to)
    ensures Move(w, to) == w.(state := to, history := w.history + [to])
  {
  }

  /** The states from which the Day may be blocked. */
  predicate Blockable(s: DayState) {
    s == PREFLIGHT || s == DIAGNOSING_GAP || s == COLLECTING_EVIDENCE || s == EXECUTING_DAY_WORK || s == REPAIR_SUPERVISOR
  }

  /** Nothing but state, history and blocker differ, and no request was refused. */
  predicate OnlyState(w: Worker, w': Worker) {
    w' == w.(state := w'.state, history := w'.history, blocker := w'.blocker)
  }

  lemma BlockSettles(w: Worker, c: Classification, t: Option<Id>)
    requires Blockable(w.state)
    ensures OnlyState(w, Block(w, c, t)) && Block(w, c, t).state == TerminalFor(c)
  {
  }

  lemma RaisedSettles(w: Worker)
    requires Active(w.state)
    ensures OnlyState(w, Raised(w)) && Raised(w).state == FAILED_UNRECOVERABLE
  {
  }

  /** Ingesting a result leaves the Day at work, in repair, or settled. */
  lemma IngestEnds(w: Worker, d: Diagnosis, r: ActionResult, c: Cycle)
    requires w.state == DIAGNOSING_GAP || w.state == COLLECTING_EVIDENCE || w.state == EXECUTING_DAY_WORK
    ensures Active(Ingested(w, d, r, c).state) ==> c.trouble != RaiseOnIngest
    ensures var w' := Ingested(w, d, r, c);
            && OnlyState(w.(repaired := w'.repaired), w')
            && (w'.state == w.state || w'.state == REPAIR_SUPERVISOR || Settled(w'))
            && (w'.repaired == w.repaired || w'.repaired == w.repaired + [d.strategy.id])
  {
    hide Block, Move, Raised;
    RaisedSettles(w);
    BlockSettles(w, r.classification, TemplateId(d.strategy));
    Moves(w, REPAIR_SUPERVISOR);
    var recorded := Move(w, REPAIR_SUPERVISOR).(repaired := w.repaired + [d.strategy.id]);
    RaisedSettles(recorded);
    BlockSettles(recorded, if c.reviewUnavailable then EXTERNAL_AUTHORITY_REQUIRED else HUMAN_PRODUCT_DECISION_REQUIRED, None);
  }

  /** A part of a cycle goes on in VALIDATING or returns settled; it refuses nothing and takes up no request. */
  predicate GoodEnd(w: Worker, e: CycleEnd) {
    && e.worker.refused == w.refused && e.worker.stale == w.stale
    && (if e.Continues? then e.worker.state == VALIDATING else Settled(e.worker))
  }

  lemma RevalidatedEnds(w: Worker, c: Cycle, effects: seq<Effect>)
    requires w.state == REVALIDATING
    ensures var e := Revalidated(w, c, effects); GoodEnd(w, e) && OnlyState(w, e.worker) && e.effects == effects
  {
    hide Move, Raised;
    Moves(w, VALIDATING);
    RaisedSettles(w);
  }

  lemma RepairResumedEnds(w: Worker, c: Cycle)
    requires w.state == DIAGNOSING_GAP
    ensures var e := RepairResumed(w, c);
            GoodEnd(w, e) && OnlyState(w.(pendingRepair := false), e.worker) && e.effects == []
  {
    hide Block, Move, Raised, Revalidated;
    Moves(w, REPAIR_SUPERVISOR);
    var supervised := Move(w, REPAIR_SUPERVISOR).(pendingRepair := false);
    RaisedSettles(supervised);
    BlockSettles(supervised, if c.reviewUnavailable then EXTERNAL_AUTHORITY_REQUIRED else HUMAN_PRODUCT_DECISION_REQUIRED, None);
    Moves(supervised, REVALIDATING);
    RevalidatedEnds(Move(supervised, REVALIDATING), c, []);
  }

  lemma StartedEnds(w: Worker, d: Diagnosis)
    requires w.state == DIAGNOSING_GAP && d.strategy.template.Some?
    ensures var w' := Started(w, d);
            && (w'.state == COLLECTING_EVIDENCE || w'.state == EXECUTING_DAY_WORK)
            && OnlyState(w.(attempts := w'.attempts), w')
            && |w'.attempts| == |w.attempts| + 1 && w.attempts <= w'.attempts
            && w'.attempts[|w.attempts|].template == d.strategy.template.value.id
            && w'.attempts[|w.attempts|].input == d.input
  {
    hide Move;
    Moves(w, if d.strategy.template.value.mode == READ_ONLY then COLLECTING_EVIDENCE else EXECUTING_DAY_WORK);
  }

  lemma ExecutedEnds(w: Worker, d: Diagnosis, retry: bool, c: Cycle)
    requires w.state == DIAGNOSING_GAP && d.strategy.template.Some?
    ensures GoodEnd(w, Executed(w, d, retry, c))
    ensures Executed(w, d, retry, c).worker.pendingRepair == w.pendingRepair
    ensures Executed(w, d, retry, c).effects == [Effect(d.strategy.template.value.id, d.input, retry)]
  {
    hide Ingested, Started, WithResult, Move, Raised, Revalidated, ResultOf;
    StartedEnds(w, d);
    var started, result := Started(w, d), ResultOf(d.strategy.template.value, c);
    ResultEnds(started, result);
    RaisedSettles(started);
    var reported := WithResult(started, result);
    IngestEnds(reported, d, result, c);
    var after := Ingested(reported, d, result, c);
    if Active(after.state) {
      Moves(after, REVALIDATING);
      RevalidatedEnds(Move(after, REVALIDATING), c, [Effect(d.strategy.template.value.id, d.input, retry)]);
    }
  }

  lemma ResultEnds(w: Worker, r: ActionResult)
    requires w.attempts != []
    ensures var w' := WithResult(w, r);
            && w' == w.(attempts := w'.attempts) && |w'.attempts| == |w.attempts|
            && forall i :: 0 <= i < |w.attempts| ==> w'.attempts[i].template == w.attempts[i].template && w'.attempts[i].input == w.attempts[i].input
  {
  }

  lemma RoutedEnds(w: Worker, d: Diagnosis, c: Cycle)
    requires w.state == DIAGNOSING_GAP
    ensures var w' := Routed(w, d, c);
            && OnlyState(w.(repaired := w'.repaired), w')
            && (w'.state == REVALIDATING || Settled(w'))
  {
    hide Ingested, Block, Move;
    BlockSettles(w, HUMAN_PRODUCT_DECISION_REQUIRED, TemplateId(d.strategy));
    if d.strategy.template.Some? {
      var result := ActionResult(OTHER_OUTCOME, ENGINEERING_REPAIR, false, d.strategy.template.value.orderValid);
      IngestEnds(w, d, result, c);
      var after := Ingested(w, d, result, c);
      if Active(after.state) { Moves(after, REVALIDATING); }
    }
  }

  lemma WorkedEnds(cfg: Config, w: Worker, all: seq<Diagnosis>, c: Cycle)
    requires w.state == DIAGNOSING_GAP
    ensures GoodEnd(w, Worked(cfg, w, all, c))
  {
    hide Routed, Executed, RepairResumed, Best, RetryAuthorized, Block, Raised, Revalidated;
    RepairResumedEnds(w, c);
    RaisedSettles(w);
    var selected := Selected(cfg, w.attempts, all, c.approvedPaths);
    var authority := FirstAuthority(all);
    if selected.Some? {
      ExecutedEnds(w, selected.value, RetryAuthorized(cfg, w.attempts, selected.value, c.approvedPaths), c);
    } else if authority.Some? {
      BlockSettles(w, authority.value.classification, TemplateId(authority.value.strategy));
      AuthorityFound(all);
    } else if all != [] {
      RoutedEnds(w, all[0], c);
      if Active(Routed(w, all[0], c).state) { RevalidatedEnds(Routed(w, all[0], c), c, []); }
    }
  }

  lemma {:induction false} AuthorityFound(all: seq<Diagnosis>)
    ensures var d := FirstAuthority(all);
            d.Some? ==> d.value in all
                        && (d.value.classification == EXTERNAL_AUTHORITY_REQUIRED || d.value.classification == HUMAN_PRODUCT_DECISION_REQUIRED)
  {
    if all != [] { AuthorityFound(all[1..]); }
  }

  /** One cycle goes on in VALIDATING or returns settled; it refuses a request only for a stale retry. */
  lemma CycleEnds(cfg: Config, w: Worker, c: Cycle)
    requires w.state == VALIDATING
    ensures var e := RunCycle(cfg, w, c);
            && (if e.Continues? then e.worker.state == VALIDATING && !e.worker.stale else Settled(e.worker))
            && e.worker.refused == w.refused + (if StaleRefusal(w, c) then 1 else 0)
            && (StaleRefusal(w, c) ==> e.worker.state == FAILED_UNRECOVERABLE && e.Returns?)
  {
    hide Worked, RepairResumed, Diagnoses, Move, Raised;
    RaisedSettles(w);
    Moves(w, STOPPED);
    Moves(w, COMPLETE);
    Moves(w, DIAGNOSING_GAP);
    var taken := w.(stale := false);
    Moves(taken, DIAGNOSING_GAP);
    RepairResumedEnds(Move(taken, DIAGNOSING_GAP), c);
    StaleRefused(taken);
    var all := Diagnoses(cfg, w.attempts, c.gaps, c.input);
    RaisedSettles(Move(w, DIAGNOSING_GAP));
    if all.Some? { WorkedEnds(cfg, Move(w, DIAGNOSING_GAP), all.value, c); }
  }

  lemma StaleRefused(w: Worker)
    requires w.state == VALIDATING
    ensures var w' := Guarded(w, Block(w, EXTERNAL_AUTHORITY_REQUIRED, None));
            w'.refused == w.refused + 1 && w'.state == FAILED_UNRECOVERABLE && w'.stale == w.stale
  {
  }

  lemma PreflightEnds(w: Worker, p: Preflight)
    requires w.state == PREFLIGHT
    ensures var w' := Preflighted(w, p); OnlyState(w, w') && (w'.state == VALIDATING || Settled(w'))
  {
    hide Move, Raised, Block;
    RaisedSettles(w);
    var cleared := w.(blocker := None);
    BlockSettles(cleared, EXTERNAL_AUTHORITY_REQUIRED, None);
    Moves(cleared, LOADING_CONTRACT);
    Moves(Move(cleared, LOADING_CONTRACT), INVENTORY);
    Moves(Move(Move(cleared, LOADING_CONTRACT), INVENTORY), VALIDATING);
    RaisedSettles(Move(Move(cleared, LOADING_CONTRACT), INVENTORY));
    if w.blocker.Some? { Moves(w, TerminalFor(w.blocker.value.classification)); }
  }

  lemma {:induction false} LoopSettles(cfg: Config, w: Worker, cycles: seq<Cycle>)
    requires w.state == VALIDATING
    ensures var e := Looped(cfg, w, cycles);
            && (if e.Continues? then e.worker.state == VALIDATING && e.worker.refused == w.refused else Settled(e.worker))
            && w.refused <= e.worker.refused <= w.refused + (if w.stale then 1 else 0)
            && (e.worker.refused != w.refused ==> e.worker.state == FAILED_UNRECOVERABLE)
    decreases |cycles|
  {
    hide RunCycle;
    if cycles != [] {
      CycleEnds(cfg, w, cycles[0]);
      var first := RunCycle(cfg, w, cycles[0]);
      if first.Continues? { LoopSettles(cfg, first.worker, cycles[1..]); }
    }
  }

  /**
   * From PREFLIGHT, for any answers of the environment: the worker returns in a state that is not active, and
   * the guard refuses none of its requests, except at most one when an operator's retry request was still
   * waiting to be taken up; the Day then is FAILED_UNRECOVERABLE.
   */
  lemma WorkerSettles(cfg: Config, w: Worker, p: Preflight, cycles: seq<Cycle>)
    requires w.state == PREFLIGHT
    ensures var e := Execute(cfg, w, p, cycles);
            && (if e.Returns? then Settled(e.worker) else e.worker.state == VALIDATING)
            && w.refused <= e.worker.refused <= w.refused + (if w.stale then 1 else 0)
            && (e.worker.refused != w.refused ==> e.worker.state == FAILED_UNRECOVERABLE)
  {
    hide Looped, Preflighted;
    PreflightEnds(w, p);
    if Preflighted(w, p).state == VALIDATING { LoopSettles(cfg, Preflighted(w, p), cycles); }
  }

  /** Exactly when one cycle requests a transition that the table forbids, and which one it is. */
  lemma RefusedExactlyWhenStale(cfg: Config, w: Worker, c: Cycle)
    requires w.state == VALIDATING
    ensures RunCycle(cfg, w, c).worker.refused != w.refused <==> StaleRefusal(w, c)
    ensures StaleRefusal(w, c) ==>
              && TerminalFor(EXTERNAL_AUTHORITY_REQUIRED) == EXTERNAL_ACTION_REQUIRED
              && !ValidTransition(VALIDATING, EXTERNAL_ACTION_REQUIRED)
              && RunCycle(cfg, w, c).worker.state == FAILED_UNRECOVERABLE
  {
    CycleEnds(cfg, w, c);
  }

  // ----- selection -----

  /** `d` is a candidate at position `i`, comes before every earlier candidate, and no later one before it. */
  ghost predicate FirstCandidate(cfg: Config, attempts: seq<Attempt>, all: seq<Diagnosis>, n: nat, approvedPaths: bool, i: nat)
    requires n <= |all|
  {
    && i < n && Candidate(cfg, attempts, all, all[i], approvedPaths)
    && (forall k :: 0 <= k < i && Candidate(cfg, attempts, all, all[k], approvedPaths) ==> Before(all[i], all[k]))
    && (forall k :: i < k < n && Candidate(cfg, attempts, all, all[k], approvedPaths) ==> !Before(all[k], all[i]))
  }

  lemma BeforeChains(a: Diagnosis, b: Diagnosis, c: Diagnosis)
    requires a.strategy.template.Some? && b.strategy.template.Some? && c.strategy.template.Some?
    ensures Before(a, b) && Before(b, c) ==> Before(a, c)
    ensures Before(a, b) && !Before(c, b) ==> Before(a, c)
  {
  }

  /** A candidate that comes before the first one so far becomes the first; otherwise that one stays it. */
  lemma NextFirst(cfg: Config, attempts: seq<Attempt>, all: seq<Diagnosis>, n: nat, approvedPaths: bool, i: nat)
    requires 0 < n <= |all| && FirstCandidate(cfg, attempts, all, n - 1, approvedPaths, i)
    ensures var d := all[n - 1];
            if Candidate(cfg, attempts, all, d, approvedPaths) && Before(d, all[i])
            then FirstCandidate(cfg, attempts, all, n, approvedPaths, n - 1)
            else FirstCandidate(cfg, attempts, all, n, approvedPaths, i)
  {
    hide RetryAuthorized, Tried, Before;
    var d := all[n - 1];
    if Candidate(cfg, attempts, all, d, approvedPaths) && Before(d, all[i]) {
      forall k | 0 <= k < n - 1 && Candidate(cfg, attempts, all, all[k], approvedPaths) ensures Before(d, all[k]) {
        BeforeChains(d, all[i], all[k]);
      }
    }
  }

  lemma {:induction false} BestIsFirst(cfg: Config, attempts: seq<Attempt>, all: seq<Diagnosis>, n: nat, approvedPaths: bool)
    returns (i: nat)
    requires n <= |all|
    ensures var best := Best(cfg, attempts, all, n, approvedPaths);
            && (best == None <==> forall k :: 0 <= k < n ==> !Candidate(cfg, attempts, all, all[k], approvedPaths))
            && (best.Some? ==> FirstCandidate(cfg, attempts, all, n, approvedPaths, i) && all[i] == best.value)
  {
    hide RetryAuthorized, Tried, Before;
    i := 0;
    if n > 0 {
      i := BestIsFirst(cfg, attempts, all, n - 1, approvedPaths);
      if Best(cfg, attempts, all, n - 1, approvedPaths) == None {
        i := n - 1;
      } else {
        NextFirst(cfg, attempts, all, n, approvedPaths, i);
        if Candidate(cfg, attempts, all, all[n - 1], approvedPaths) && Before(all[n - 1], all[i]) { i := n - 1; }
      }
    }
  }

  /** What is selected: the first, in the given order, of the candidates that no other comes before. */
  lemma SelectionIsFirst(cfg: Config, attempts: seq<Attempt>, all: seq<Diagnosis>, approvedPaths: bool) returns (i: nat)
    ensures var selected := Selected(cfg, attempts, all, approvedPaths);
            && (selected == None <==> forall k :: 0 <= k < |all| ==> !Candidate(cfg, attempts, all, all[k], approvedPaths))
            && (selected.Some? ==> FirstCandidate(cfg, attempts, all, |all|, approvedPaths, i) && all[i] == selected.value)
  {
    hide RetryAuthorized, Tried, Before, Best;
    i := BestIsFirst(cfg, attempts, all, |all|, approvedPaths);
  }
}
