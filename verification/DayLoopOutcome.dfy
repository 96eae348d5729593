/** In which state the Day worker ends, said of what its last cycle observed and was answered. */
module DayLoopOutcome {
  import opened Prelude
  import opened DayModels
  import opened DayStateMachine
  import opened DayLoop
  import opened DayLoopProperties
  import opened DayLoopOnce

  // ----- what a cycle is about -----

  /** The cycle got as far as looking at the contract's gaps. */
  predicate Looks(c: Cycle) { !c.stop && c.trouble != RaiseOnEvaluate }

  predicate HasGaps(c: Cycle) { Looks(c) && !c.complete }

  predicate IsAuthority(c: Classification) { c == EXTERNAL_AUTHORITY_REQUIRED || c == HUMAN_PRODUCT_DECISION_REQUIRED }

  /** What a cycle with gaps sets out to do; `Nothing`: it cannot go on safely. */
  datatype Work = Resume | Act(d: Diagnosis) | Await(d: Diagnosis) | Route(d: Diagnosis) | Nothing

  ghost predicate Diagnosed(cfg: Config, w: Worker, c: Cycle, all: seq<Diagnosis>) {
    Diagnoses(cfg, w.attempts, c.gaps, c.input) == Some(all)
  }

  ghost predicate FirstAt(all: seq<Diagnosis>, d: Diagnosis) {
    exists i :: 0 <= i < |all| && all[i] == d && IsAuthority(d.classification) && forall k :: 0 <= k < i ==> !IsAuthority(all[k].classification)
  }

  /**
   * An operator's retry comes first, then an interrupted repair, a registered action, the first diagnosis that
   * waits for an authority, and last the first gap of all.
   */
  ghost predicate SetsOut(cfg: Config, w: Worker, c: Cycle, work: Work) {
    var all := Diagnoses(cfg, w.attempts, c.gaps, c.input);
    match work
    case Resume => if w.stale then c.resumeMatches else all.Some? && w.pendingRepair && c.itemFound
    case Act(d) => !w.stale && all.Some? && !w.pendingRepair && Selected(cfg, w.attempts, all.value, c.approvedPaths) == Some(d)
    case Await(d) =>
      && !w.stale && all.Some? && !w.pendingRepair && Selected(cfg, w.attempts, all.value, c.approvedPaths) == None
      && FirstAt(all.value, d)
    case Route(d) =>
      && !w.stale && all.Some? && !w.pendingRepair && Selected(cfg, w.attempts, all.value, c.approvedPaths) == None
      && (forall x :: x in all.value ==> !IsAuthority(x.classification)) && all.value != [] && d == all.value[0]
    case Nothing =>
      if w.stale then !c.resumeMatches else all == None || (if w.pendingRepair then !c.itemFound else all.value == [])
  }

  /** A gap for which no repair may be ordered. */
  predicate NotRepairable(w: Worker, d: Diagnosis) {
    || d.classification == MODEL_QUALITY_FINDING || d.strategy.id in w.repaired || d.strategy.template == None
    || d.strategy.template.value.mode != ENGINEERING_WORKTREE || !d.strategy.template.value.hasTests
  }

  /** The action reports an engineering defect instead of a result. */
  predicate Defect(r: ActionResult) {
    && r.outcome != COMPLETED && r.outcome != COMPLETED_NO_CHANGE
    && (r.classification == IMPLEMENTATION_DEFECT || r.classification == ENGINEERING_REPAIR)
  }

  /** The work has come to a point where a repair is to be supervised. */
  predicate OrdersRepair(w: Worker, work: Work, c: Cycle) {
    match work
    case Resume => c.trouble != RaiseOnWork
    case Act(d) =>
      && d.strategy.template.Some? && c.trouble != RaiseOnWork && c.trouble != RaiseOnIngest
      && Defect(ResultOf(d.strategy.template.value, c)) && ResultOf(d.strategy.template.value, c).orderValid
    case Route(d) => !NotRepairable(w, d) && c.trouble != RaiseOnIngest && d.strategy.template.value.orderValid
    case _ => false
  }

  predicate RaisesInRepair(work: Work, c: Cycle) { c.trouble == RaiseInRepair && work != Resume }

  /** The answers of this cycle ask for that authority. */
  predicate AsksFor(w: Worker, work: Work, c: Cycle, who: Classification) {
    || (OrdersRepair(w, work, c) && !RaisesInRepair(work, c) && !c.repairSucceeds
        && who == if c.reviewUnavailable then EXTERNAL_AUTHORITY_REQUIRED else HUMAN_PRODUCT_DECISION_REQUIRED)
    || (match work
        case Act(d) =>
          && d.strategy.template.Some? && c.trouble != RaiseOnWork && c.trouble != RaiseOnIngest
          && ResultOf(d.strategy.template.value, c).classification == who
        case Await(d) => d.classification == who
        case Route(d) => NotRepairable(w, d) && who == HUMAN_PRODUCT_DECISION_REQUIRED
        case _ => false)
  }

  predicate Asks(w: Worker, work: Work, c: Cycle) {
    AsksFor(w, work, c, EXTERNAL_AUTHORITY_REQUIRED) || AsksFor(w, work, c, HUMAN_PRODUCT_DECISION_REQUIRED)
  }

  /** Something raises on the way, or the cycle cannot go on safely. */
  predicate Breaks(w: Worker, work: Work, c: Cycle) {
    match work
    case Nothing => true
    case Resume => c.trouble == RaiseOnWork || (c.repairSucceeds && c.trouble == RaiseAfterWork)
    case Act(_) =>
      || c.trouble == RaiseOnWork || c.trouble == RaiseOnIngest || (OrdersRepair(w, work, c) && c.trouble == RaiseInRepair)
      || (!Asks(w, work, c) && c.trouble == RaiseAfterWork)
    case Route(d) =>
      && !NotRepairable(w, d)
      && (c.trouble == RaiseOnIngest || (OrdersRepair(w, work, c) && c.trouble == RaiseInRepair)
          || (!Asks(w, work, c) && c.trouble == RaiseAfterWork))
    case Await(_) => false
  }

  /** The state that work leads to. */
  predicate EndsWith(w: Worker, work: Work, c: Cycle, e: CycleEnd) {
    && (e.worker.state == EXTERNAL_ACTION_REQUIRED <==> AsksFor(w, work, c, EXTERNAL_AUTHORITY_REQUIRED))
    && (e.worker.state == HUMAN_ACTION_REQUIRED <==> AsksFor(w, work, c, HUMAN_PRODUCT_DECISION_REQUIRED))
    && (e.worker.state == FAILED_UNRECOVERABLE <==> Breaks(w, work, c))
    && (e.Continues? <==> !Asks(w, work, c) && !Breaks(w, work, c))
    && (e.Continues? <==> e.worker.state == VALIDATING)
    && e.worker.state in {EXTERNAL_ACTION_REQUIRED, HUMAN_ACTION_REQUIRED, FAILED_UNRECOVERABLE, VALIDATING}
  }

  // ----- the parts of a cycle -----

  lemma IngestOutcome(w: Worker, d: Diagnosis, r: ActionResult, c: Cycle)
    requires w.state == DIAGNOSING_GAP || w.state == COLLECTING_EVIDENCE || w.state == EXECUTING_DAY_WORK
    ensures var s := Ingested(w, d, r, c).state;
            if c.trouble == RaiseOnIngest then s == FAILED_UNRECOVERABLE
            else if IsAuthority(r.classification) then s == TerminalFor(r.classification)
            else if !Defect(r) then s == w.state
            else if !r.orderValid then s == REPAIR_SUPERVISOR
            else if c.trouble == RaiseInRepair then s == FAILED_UNRECOVERABLE
            else if c.repairSucceeds then s == REPAIR_SUPERVISOR
            else s == if c.reviewUnavailable then EXTERNAL_ACTION_REQUIRED else HUMAN_ACTION_REQUIRED
  {
    hide Block, Move, Raised;
    RaisedSettles(w);
    BlockSettles(w, r.classification, TemplateId(d.strategy));
    Moves(w, REPAIR_SUPERVISOR);
    var recorded := Move(w, REPAIR_SUPERVISOR).(repaired := w.repaired + [d.strategy.id]);
    RaisedSettles(recorded);
    BlockSettles(recorded, if c.reviewUnavailable then EXTERNAL_AUTHORITY_REQUIRED else HUMAN_PRODUCT_DECISION_REQUIRED, None);
  }

  lemma RevalidatedOutcome(w: Worker, c: Cycle, effects: seq<Effect>)
    requires w.state == REVALIDATING
    ensures var e := Revalidated(w, c, effects);
            if c.trouble == RaiseAfterWork then e.Returns? && e.worker.state == FAILED_UNRECOVERABLE else e.Continues? && e.worker.state == VALIDATING
  {
    hide Move, Raised;
    Moves(w, VALIDATING);
    RaisedSettles(w);
  }

  lemma RepairBlockedIs(w: Worker, c: Cycle)
    requires w.state == REPAIR_SUPERVISOR
    ensures RepairBlocked(w, c).state == if c.reviewUnavailable then EXTERNAL_ACTION_REQUIRED else HUMAN_ACTION_REQUIRED
  {
    hide Block;
    BlockSettles(w, if c.reviewUnavailable then EXTERNAL_AUTHORITY_REQUIRED else HUMAN_PRODUCT_DECISION_REQUIRED, None);
  }

  lemma ResumeOutcome(w: Worker, c: Cycle)
    requires w.state == DIAGNOSING_GAP
    ensures EndsWith(w, Resume, c, RepairResumed(w, c))
  {
    hide Block, Move, Raised, Revalidated, RepairBlocked;
    Moves(w, REPAIR_SUPERVISOR);
    var supervised := Move(w, REPAIR_SUPERVISOR).(pendingRepair := false);
    RepairBlockedIs(supervised, c);
    RaisedSettles(supervised);
    Moves(supervised, REVALIDATING);
    RevalidatedOutcome(Move(supervised, REVALIDATING), c, []);
  }

  lemma ActOutcome(w: Worker, d: Diagnosis, retry: bool, c: Cycle)
    requires w.state == DIAGNOSING_GAP && d.strategy.template.Some?
    ensures EndsWith(w, Act(d), c, Executed(w, d, retry, c))
  {
    hide Ingested, Started, WithResult, Move, Raised, Revalidated, ResultOf;
    StartedEnds(w, d);
    var started, result := Started(w, d), ResultOf(d.strategy.template.value, c);
    ResultEnds(started, result);
    RaisedSettles(started);
    var reported := WithResult(started, result);
    IngestOutcome(reported, d, result, c);
    var after := Ingested(reported, d, result, c);
    if Active(after.state) {
      Moves(after, REVALIDATING);
      RevalidatedOutcome(Move(after, REVALIDATING), c, [Effect(d.strategy.template.value.id, d.input, retry)]);
    }
  }

  lemma RouteOutcome(w: Worker, d: Diagnosis, c: Cycle)
    requires w.state == DIAGNOSING_GAP
    ensures var routed := Routed(w, d, c);
            EndsWith(w, Route(d), c, if Active(routed.state) then Revalidated(routed, c, []) else Returns(routed, []))
  {
    hide Ingested, Block, Move, Raised, Revalidated;
    BlockSettles(w, HUMAN_PRODUCT_DECISION_REQUIRED, TemplateId(d.strategy));
    if !NotRepairable(w, d) {
      var result := ActionResult(OTHER_OUTCOME, ENGINEERING_REPAIR, false, d.strategy.template.value.orderValid);
      IngestOutcome(w, d, result, c);
      var after := Ingested(w, d, result, c);
      if Active(after.state) { Moves(after, REVALIDATING); }
    }
    var routed := Routed(w, d, c);
    if Active(routed.state) { RevalidatedOutcome(routed, c, []); }
  }

  lemma {:induction false} AuthorityIsFirst(all: seq<Diagnosis>)
    ensures FirstAuthority(all) == None <==> forall d :: d in all ==> !IsAuthority(d.classification)
    ensures FirstAuthority(all).Some? ==> FirstAt(all, FirstAuthority(all).value)
  {
    if all != [] && !IsAuthority(all[0].classification) {
      AuthorityIsFirst(all[1..]);
      if FirstAuthority(all[1..]).Some? {
        var d := FirstAuthority(all[1..]).value;
        var i :| 0 <= i < |all| - 1 && all[1..][i] == d && IsAuthority(d.classification)
                 && forall k :: 0 <= k < i ==> !IsAuthority(all[1..][k].classification);
        assert all[i + 1] == d;
        assert forall k :: 1 <= k < i + 1 ==> all[k] == all[1..][k - 1];
      }
    }
  }

  lemma AwaitsTheFirst(all: seq<Diagnosis>, d: Diagnosis)
    requires FirstAt(all, d)
    ensures FirstAuthority(all) == Some(d)
  {
    AuthorityIsFirst(all);
  }

  lemma WorkOutcome(cfg: Config, w: Worker, all: seq<Diagnosis>, c: Cycle, work: Work)
    requires w.state == DIAGNOSING_GAP && !w.stale && Diagnosed(cfg, w, c, all) && SetsOut(cfg, w, c, work)
    ensures EndsWith(w, work, c, Worked(cfg, w, all, c))
  {
    hide Routed, Executed, RepairResumed, Best, RetryAuthorized, Block, Raised, Revalidated, EndsWith, FirstAt, Diagnoses;
    ResumeOutcome(w, c);
    AuthorityIsFirst(all);
    if w.pendingRepair || all == [] { BrokenOutcome(w, c); }
    match work
    case Resume =>
    case Act(d) => ActOutcome(w, d, RetryAuthorized(cfg, w.attempts, d, c.approvedPaths), c);
    case Await(d) =>
      AwaitsTheFirst(all, d);
      AwaitIsAuthority(all, d);
      AwaitOutcome(w, d, c);
    case Route(d) => RouteOutcome(w, d, c);
    case Nothing =>
  }

  lemma BrokenOutcome(w: Worker, c: Cycle)
    requires Active(w.state)
    ensures EndsWith(w, Nothing, c, Returns(Raised(w), []))
  {
    hide Raised;
    RaisedSettles(w);
  }

  lemma AwaitOutcome(w: Worker, d: Diagnosis, c: Cycle)
    requires w.state == DIAGNOSING_GAP && IsAuthority(d.classification)
    ensures EndsWith(w, Await(d), c, Returns(Block(w, d.classification, TemplateId(d.strategy)), []))
  {
    hide Block;
    BlockSettles(w, d.classification, TemplateId(d.strategy));
  }

  lemma AwaitIsAuthority(all: seq<Diagnosis>, d: Diagnosis)
    requires FirstAt(all, d)
    ensures IsAuthority(d.classification)
  {
  }

  // ----- one cycle -----

  /** Every cycle sets out to do exactly one thing. */
  lemma WorkIsOne(cfg: Config, w: Worker, c: Cycle) returns (work: Work)
    ensures SetsOut(cfg, w, c, work)
    ensures forall x :: SetsOut(cfg, w, c, x) ==> x == work
  {
    hide Diagnoses, Best;
    var all := Diagnoses(cfg, w.attempts, c.gaps, c.input);
    work := Nothing;
    if w.stale {
      if c.resumeMatches { work := Resume; }
    } else if all.Some? {
      AuthorityIsFirst(all.value);
      var selected := Selected(cfg, w.attempts, all.value, c.approvedPaths);
      if w.pendingRepair {
        if c.itemFound { work := Resume; }
      } else if selected.Some? {
        work := Act(selected.value);
        SelectedIsThere(cfg, w.attempts, all.value, c.approvedPaths);
      } else if FirstAuthority(all.value).Some? {
        work := Await(FirstAuthority(all.value).value);
      } else if all.value != [] {
        work := Route(all.value[0]);
      }
    }
  }

  lemma SelectedIsThere(cfg: Config, attempts: seq<Attempt>, all: seq<Diagnosis>, approvedPaths: bool)
    ensures Selected(cfg, attempts, all, approvedPaths).Some? ==> all != []
  {
    hide Candidate;
  }

  /**
   * The state after one cycle: STOPPED and COMPLETE by what was observed first, an authority state exactly when
   * an answer asks for that authority, FAILED_UNRECOVERABLE exactly when something raises or nothing can be done.
   */
  lemma CycleOutcome(cfg: Config, w: Worker, c: Cycle, work: Work)
    requires w.state == VALIDATING && SetsOut(cfg, w, c, work)
    ensures var e := RunCycle(cfg, w, c);
            && (e.worker.state == STOPPED <==> c.stop)
            && (e.worker.state == COMPLETE <==> Looks(c) && c.complete)
            && (e.worker.state == EXTERNAL_ACTION_REQUIRED <==> HasGaps(c) && AsksFor(w, work, c, EXTERNAL_AUTHORITY_REQUIRED))
            && (e.worker.state == HUMAN_ACTION_REQUIRED <==> HasGaps(c) && AsksFor(w, work, c, HUMAN_PRODUCT_DECISION_REQUIRED))
            && (e.worker.state == FAILED_UNRECOVERABLE <==> !c.stop && (c.trouble == RaiseOnEvaluate || (HasGaps(c) && Breaks(w, work, c))))
            && (e.Continues? <==> HasGaps(c) && !Asks(w, work, c) && !Breaks(w, work, c))
            && (e.Continues? <==> e.worker.state == VALIDATING)
  {
    hide Worked, RepairResumed, Diagnoses, Move, Raised, EndsWith, AsksFor, Breaks, Selected;
    RaisedSettles(w);
    Moves(w, STOPPED);
    Moves(w, COMPLETE);
    if HasGaps(c) { GapsOutcome(cfg, w, c, work); EndsApart(w, work, c, RunCycle(cfg, w, c)); }
  }

  lemma EndsApart(w: Worker, work: Work, c: Cycle, e: CycleEnd)
    requires EndsWith(w, work, c, e)
    ensures (e.worker.state == EXTERNAL_ACTION_REQUIRED <==> AsksFor(w, work, c, EXTERNAL_AUTHORITY_REQUIRED))
    ensures (e.worker.state == HUMAN_ACTION_REQUIRED <==> AsksFor(w, work, c, HUMAN_PRODUCT_DECISION_REQUIRED))
    ensures (e.worker.state == FAILED_UNRECOVERABLE <==> Breaks(w, work, c))
    ensures (e.Continues? <==> !Asks(w, work, c) && !Breaks(w, work, c)) && (e.Continues? <==> e.worker.state == VALIDATING)
    ensures e.worker.state != STOPPED && e.worker.state != COMPLETE
  {
    hide AsksFor, Breaks;
  }

  lemma GapsOutcome(cfg: Config, w: Worker, c: Cycle, work: Work)
    requires w.state == VALIDATING && SetsOut(cfg, w, c, work) && HasGaps(c)
    ensures EndsWith(w, work, c, RunCycle(cfg, w, c))
  {
    hide Worked, RepairResumed, Diagnoses, Move, Raised, Selected, FirstAt, EndsWith;
    Moves(w, DIAGNOSING_GAP);
    var diagnosing := Move(w, DIAGNOSING_GAP);
    var taken := w.(stale := false);
    Moves(taken, DIAGNOSING_GAP);
    var all := Diagnoses(cfg, w.attempts, c.gaps, c.input);
    if w.stale {
      StaleRefused(taken);
      RefusalBreaks(w, c, Returns(Guarded(taken, Block(taken, EXTERNAL_AUTHORITY_REQUIRED, None)), []));
      ResumeOutcome(Move(taken, DIAGNOSING_GAP), c);
      SameWork(w, Move(taken, DIAGNOSING_GAP), work, c, RunCycle(cfg, w, c));
    } else {
      BrokenOutcome(diagnosing, c);
      if all.Some? {
        SameSetOut(cfg, w, diagnosing, c, work);
        WorkOutcome(cfg, diagnosing, all.value, c, work);
      }
      SameWork(w, diagnosing, work, c, RunCycle(cfg, w, c));
    }
  }

  lemma RefusalBreaks(w: Worker, c: Cycle, e: CycleEnd)
    requires e.Returns? && e.worker.state == FAILED_UNRECOVERABLE
    ensures EndsWith(w, Nothing, c, e)
  {
  }

  lemma SameSetOut(cfg: Config, w: Worker, w': Worker, c: Cycle, work: Work)
    requires w'.attempts == w.attempts && w'.stale == w.stale && w'.pendingRepair == w.pendingRepair
    ensures SetsOut(cfg, w, c, work) == SetsOut(cfg, w', c, work)
  {
    hide Diagnoses, Selected, FirstAt;
  }

  lemma SameWork(w: Worker, w': Worker, work: Work, c: Cycle, e: CycleEnd)
    requires w'.repaired == w.repaired
    ensures EndsWith(w, work, c, e) == EndsWith(w', work, c, e)
  {
  }

  // ----- the worker -----

  /** The checks before the loop let the worker in. */
  predicate Passes(w: Worker, p: Preflight) {
    !p.raises && (w.blocker == None || p.blockerResolved || p.retryEligible) && !p.sourcesMissing && !p.ingestRaises
  }

  /** A blocker of an earlier run that nothing resolved. */
  predicate StillBlocked(w: Worker, p: Preflight) {
    !p.raises && w.blocker.Some? && !p.blockerResolved && !p.retryEligible
  }

  predicate PreflightAsks(w: Worker, p: Preflight, to: DayState) {
    if StillBlocked(w, p) then to == TerminalFor(w.blocker.value.classification)
    else !p.raises && p.sourcesMissing && to == EXTERNAL_ACTION_REQUIRED
  }

  lemma PreflightOutcome(w: Worker, p: Preflight)
    requires w.state == PREFLIGHT
    ensures var s := Preflighted(w, p).state;
            && (s == VALIDATING <==> Passes(w, p))
            && (s == EXTERNAL_ACTION_REQUIRED <==> PreflightAsks(w, p, EXTERNAL_ACTION_REQUIRED))
            && (s == HUMAN_ACTION_REQUIRED <==> PreflightAsks(w, p, HUMAN_ACTION_REQUIRED))
            && s != STOPPED && s != COMPLETE
    ensures Passes(w, p) ==> Preflighted(w, p) == w.(state := VALIDATING, blocker := None, history := w.history + [LOADING_CONTRACT, INVENTORY, VALIDATING])
  {
    hide Move, Raised, Block, Fail;
    RaisedSettles(w);
    var cleared := w.(blocker := None);
    BlockSettles(cleared, EXTERNAL_AUTHORITY_REQUIRED, None);
    Moves(cleared, LOADING_CONTRACT);
    Moves(Move(cleared, LOADING_CONTRACT), INVENTORY);
    var taken := Move(Move(cleared, LOADING_CONTRACT), INVENTORY);
    Moves(taken, VALIDATING);
    RaisedSettles(taken);
    if w.blocker.Some? { FailSettles(w, w.blocker.value.classification); }
  }

  lemma FailSettles(w: Worker, c: Classification)
    requires w.state == PREFLIGHT
    ensures Fail(w, c).state == TerminalFor(c) && TerminalFor(c) in {EXTERNAL_ACTION_REQUIRED, HUMAN_ACTION_REQUIRED, FAILED_UNRECOVERABLE}
  {
  }

  /** The `n`-th of these cycles is the one the loop returns in; `u` is the worker it starts with. */
  ghost predicate ReturnsIn(cfg: Config, w: Worker, cycles: seq<Cycle>, n: nat, u: Worker)
    requires n < |cycles|
  {
    var e := Looped(cfg, w, cycles[..n]);
    e.Continues? && e.worker == u && RunCycle(cfg, u, cycles[n]).Returns?
  }

  lemma {:induction false} LastCycle(cfg: Config, w: Worker, cycles: seq<Cycle>) returns (n: nat, u: Worker)
    requires w.state == VALIDATING && Looped(cfg, w, cycles).Returns?
    ensures n < |cycles| && u.state == VALIDATING && ReturnsIn(cfg, w, cycles, n, u)
    ensures Looped(cfg, w, cycles).worker == RunCycle(cfg, u, cycles[n]).worker
    decreases |cycles|
  {
    hide RunCycle;
    CycleEnds(cfg, w, cycles[0]);
    var first := RunCycle(cfg, w, cycles[0]);
    if first.Returns? {
      n, u := 0, w;
    } else {
      var m;
      m, u := LastCycle(cfg, first.worker, cycles[1..]);
      n := m + 1;
      assert cycles[..n][1..] == cycles[1..][..m] && cycles[..n][0] == cycles[0];
    }
  }

  /** And there is no other such cycle. */
  lemma {:induction false} LastCycleIsOne(cfg: Config, w: Worker, cycles: seq<Cycle>, n: nat, u: Worker)
    requires n < |cycles| && ReturnsIn(cfg, w, cycles, n, u)
    ensures Looped(cfg, w, cycles).Returns? && Looped(cfg, w, cycles).worker == RunCycle(cfg, u, cycles[n]).worker
    decreases n
  {
    hide RunCycle;
    if n > 0 {
      assert cycles[..n][0] == cycles[0] && cycles[..n][1..] == cycles[1..][..n - 1];
      LastCycleIsOne(cfg, RunCycle(cfg, w, cycles[0]).worker, cycles[1..], n - 1, u);
    }
  }

  /** The cycle a run of the worker returns in, what it set out to do, and what came of it. */
  ghost predicate EndedIn(cfg: Config, w: Worker, p: Preflight, cycles: seq<Cycle>, n: nat, u: Worker, work: Work)
    requires n < |cycles|
  {
    Passes(w, p) && ReturnsIn(cfg, Preflighted(w, p), cycles, n, u) && SetsOut(cfg, u, cycles[n], work)
  }

  lemma EndIsTheLastCycles(cfg: Config, w: Worker, p: Preflight, cycles: seq<Cycle>, n: nat, u: Worker, work: Work)
    requires w.state == PREFLIGHT && n < |cycles| && EndedIn(cfg, w, p, cycles, n, u, work)
    ensures Execute(cfg, w, p, cycles).Returns? && u.state == VALIDATING
    ensures Execute(cfg, w, p, cycles).worker == RunCycle(cfg, u, cycles[n]).worker
  {
    hide RunCycle, Preflighted, SetsOut, Looped;
    PreflightOutcome(w, p);
    var ready := Preflighted(w, p);
    LastCycleIsOne(cfg, ready, cycles, n, u);
    LoopSettles(cfg, ready, cycles[..n]);
  }

  /** Either the checks before the loop decide, or its last cycle, or the worker has not returned. */
  lemma EndIsDecided(cfg: Config, w: Worker, p: Preflight, cycles: seq<Cycle>) returns (n: nat, u: Worker, work: Work)
    requires w.state == PREFLIGHT
    ensures !Passes(w, p) ==> Execute(cfg, w, p, cycles).worker == Preflighted(w, p)
    ensures Passes(w, p) && Execute(cfg, w, p, cycles).Returns? ==> n < |cycles| && EndedIn(cfg, w, p, cycles, n, u, work)
    ensures Execute(cfg, w, p, cycles).Continues? ==> Execute(cfg, w, p, cycles).worker.state == VALIDATING
  {
    hide RunCycle, Preflighted, SetsOut, Looped;
    PreflightOutcome(w, p);
    var ready := Preflighted(w, p);
    n, u, work := 0, w, Nothing;
    if Passes(w, p) {
      LoopSettles(cfg, ready, cycles);
      if Looped(cfg, ready, cycles).Returns? {
        n, u := LastCycle(cfg, ready, cycles);
        work := WorkIsOne(cfg, u, cycles[n]);
      }
    }
  }

  /** It returned in a cycle that found no gap. */
  ghost predicate FoundNoGap(cfg: Config, w: Worker, p: Preflight, cycles: seq<Cycle>) {
    exists n: nat, u, work :: n < |cycles| && EndedIn(cfg, w, p, cycles, n, u, work) && Looks(cycles[n]) && cycles[n].complete
  }

  ghost predicate WasStopped(cfg: Config, w: Worker, p: Preflight, cycles: seq<Cycle>) {
    exists n: nat, u, work :: n < |cycles| && EndedIn(cfg, w, p, cycles, n, u, work) && cycles[n].stop
  }

  /** It returned in a cycle whose answers ask for this authority. */
  ghost predicate WasAsked(cfg: Config, w: Worker, p: Preflight, cycles: seq<Cycle>, who: Classification) {
    exists n: nat, u, work :: n < |cycles| && EndedIn(cfg, w, p, cycles, n, u, work) && HasGaps(cycles[n]) && AsksFor(u, work, cycles[n], who)
  }

  /**
   * From PREFLIGHT, for any answers: COMPLETE exactly when the last cycle was not stopped, did not raise on
   * evaluation and found no gap; STOPPED exactly when it was stopped; an authority state exactly when its answers
   * ask for that authority, or the checks before the loop do.
   */
  lemma WorkerOutcome(cfg: Config, w: Worker, p: Preflight, cycles: seq<Cycle>)
    requires w.state == PREFLIGHT
    ensures var s := Execute(cfg, w, p, cycles).worker.state;
            && (s == COMPLETE <==> FoundNoGap(cfg, w, p, cycles))
            && (s == STOPPED <==> WasStopped(cfg, w, p, cycles))
            && (s == EXTERNAL_ACTION_REQUIRED <==>
                  PreflightAsks(w, p, EXTERNAL_ACTION_REQUIRED) || WasAsked(cfg, w, p, cycles, EXTERNAL_AUTHORITY_REQUIRED))
            && (s == HUMAN_ACTION_REQUIRED <==>
                  PreflightAsks(w, p, HUMAN_ACTION_REQUIRED) || WasAsked(cfg, w, p, cycles, HUMAN_PRODUCT_DECISION_REQUIRED))
  {
    hide Execute, RunCycle, Preflighted, SetsOut, Looped, EndedIn, AsksFor, Breaks, PreflightAsks, Passes;
    PreflightOutcome(w, p);
    var n, u, work := EndIsDecided(cfg, w, p, cycles);
    forall m: nat, v, x | m < |cycles| && EndedIn(cfg, w, p, cycles, m, v, x)
      ensures Execute(cfg, w, p, cycles).worker == RunCycle(cfg, v, cycles[m]).worker && v.state == VALIDATING && SetsOut(cfg, v, cycles[m], x)
      ensures var s := Execute(cfg, w, p, cycles).worker.state;
              && (s == STOPPED <==> cycles[m].stop) && (s == COMPLETE <==> Looks(cycles[m]) && cycles[m].complete)
              && (s == EXTERNAL_ACTION_REQUIRED <==> HasGaps(cycles[m]) && AsksFor(v, x, cycles[m], EXTERNAL_AUTHORITY_REQUIRED))
              && (s == HUMAN_ACTION_REQUIRED <==> HasGaps(cycles[m]) && AsksFor(v, x, cycles[m], HUMAN_PRODUCT_DECISION_REQUIRED))
    {
      EndOutcome(cfg, w, p, cycles, m, v, x);
    }
    if Passes(w, p) { PassingAsksNothing(w, p); }
  }

  lemma PassingAsksNothing(w: Worker, p: Preflight)
    requires Passes(w, p)
    ensures !PreflightAsks(w, p, EXTERNAL_ACTION_REQUIRED) && !PreflightAsks(w, p, HUMAN_ACTION_REQUIRED)
  {
  }

  lemma EndOutcome(cfg: Config, w: Worker, p: Preflight, cycles: seq<Cycle>, n: nat, u: Worker, work: Work)
    requires w.state == PREFLIGHT && n < |cycles| && EndedIn(cfg, w, p, cycles, n, u, work)
    ensures Passes(w, p) && u.state == VALIDATING && SetsOut(cfg, u, cycles[n], work)
    ensures var s := Execute(cfg, w, p, cycles).worker.state;
            && s == RunCycle(cfg, u, cycles[n]).worker.state && Execute(cfg, w, p, cycles).worker == RunCycle(cfg, u, cycles[n]).worker
            && (s == STOPPED <==> cycles[n].stop) && (s == COMPLETE <==> Looks(cycles[n]) && cycles[n].complete)
            && (s == EXTERNAL_ACTION_REQUIRED <==> HasGaps(cycles[n]) && AsksFor(u, work, cycles[n], EXTERNAL_AUTHORITY_REQUIRED))
            && (s == HUMAN_ACTION_REQUIRED <==> HasGaps(cycles[n]) && AsksFor(u, work, cycles[n], HUMAN_PRODUCT_DECISION_REQUIRED))
  {
    hide Execute, RunCycle, Preflighted, SetsOut, Looped, AsksFor, Breaks, ReturnsIn, Passes;
    EndIsTheLastCycles(cfg, w, p, cycles, n, u, work);
    CycleOutcome(cfg, u, cycles[n], work);
  }

  // ----- the life of a Day -----

  /** Nothing between two runs makes a Day COMPLETE. */
  ghost predicate NoForgedCompletion(cfg: Config, start: Worker, steps: seq<LifeStep>) {
    && start.state != COMPLETE
    && forall i :: 0 <= i < |steps| && steps[i].Change? && steps[i].worker.state == COMPLETE ==>
         LivedAll(cfg, start, steps[..i]).worker.state == COMPLETE
  }

  /** The `k`-th step ran the worker, which returned in a cycle that found no gap, and the Day has been COMPLETE since. */
  ghost predicate CompletedAt(cfg: Config, start: Worker, steps: seq<LifeStep>, k: nat)
    requires k < |steps|
  {
    var w := LivedAll(cfg, start, steps[..k]).worker;
    && steps[k].Work? && w.state == PREFLIGHT && FoundNoGap(cfg, w, steps[k].preflight, steps[k].cycles)
    && forall j :: k < j <= |steps| ==> LivedAll(cfg, start, steps[..j]).worker.state == COMPLETE
  }

  lemma StepCompletes(cfg: Config, l: Life, s: LifeStep)
    requires l.worker.state != COMPLETE && (s.Change? ==> s.worker.state != COMPLETE)
    ensures Lived(cfg, l, s).worker.state == COMPLETE <==>
              s.Work? && l.worker.state == PREFLIGHT && FoundNoGap(cfg, l.worker, s.preflight, s.cycles)
  {
    hide Execute, Killed, FoundNoGap;
    if s.Work? && l.worker.state == PREFLIGHT {
      WorkerOutcome(cfg, l.worker, s.preflight, s.cycles);
      var n, u, work := EndIsDecided(cfg, l.worker, s.preflight, s.cycles);
      KilledIsPaused(cfg, Execute(cfg, l.worker, s.preflight, s.cycles).worker, s.last, s.cut);
    }
  }

  lemma KilledIsPaused(cfg: Config, w: Worker, c: Cycle, cut: Cut)
    ensures Killed(cfg, w, c, cut).worker.state == PAUSED
  {
    hide RunCycle;
  }

  /** Over the whole life of a Day, with stops, deaths and resumes: it is COMPLETE exactly when some run of the worker completed it so. */
  lemma {:induction false} CompletedByARun(cfg: Config, start: Worker, steps: seq<LifeStep>)
    requires NoForgedCompletion(cfg, start, steps)
    ensures LivedAll(cfg, start, steps).worker.state == COMPLETE <==> exists k: nat :: k < |steps| && CompletedAt(cfg, start, steps, k)
  {
    hide Lived, FoundNoGap;
    assert steps[..|steps|] == steps;
    if steps != [] && LivedAll(cfg, start, steps).worker.state == COMPLETE {
      var n := |steps| - 1;
      var before := steps[..n];
      assert forall i :: 0 <= i < n ==> before[..i] == steps[..i];
      if LivedAll(cfg, start, before).worker.state == COMPLETE {
        CompletedByARun(cfg, start, before);
        var k: nat :| k < n && CompletedAt(cfg, start, before, k);
        StillCompleted(cfg, start, steps, k);
      } else {
        StepCompletes(cfg, LivedAll(cfg, start, before), steps[n]);
        assert CompletedAt(cfg, start, steps, n);
      }
    }
  }

  lemma StillCompleted(cfg: Config, start: Worker, steps: seq<LifeStep>, k: nat)
    requires steps != [] && k < |steps| - 1 && CompletedAt(cfg, start, steps[..|steps| - 1], k)
    requires LivedAll(cfg, start, steps).worker.state == COMPLETE
    ensures CompletedAt(cfg, start, steps, k)
  {
    hide Lived, FoundNoGap;
    var before := steps[..|steps| - 1];
    assert before[..k] == steps[..k] && steps[..|steps|] == steps;
    forall j | k < j <= |steps| ensures LivedAll(cfg, start, steps[..j]).worker.state == COMPLETE {
      if j < |steps| { assert before[..j] == steps[..j]; }
    }
  }
}
