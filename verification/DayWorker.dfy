/** The Day worker as it runs: its loop and callees change the Day in place, cycle by cycle as `DayLoop` says. */
module DayWorker {
  import opened Prelude
  import opened DayModels
  import opened DayStateMachine
  import opened DayLoop

  class LocalLLMDayProgram {
    const cfg: Config
    var state: DayState
    var history: seq<DayState>
    var refused: nat
    var attempts: seq<Attempt>
    var repaired: seq<Id>
    var blocker: Option<AuthorityBlocker>
    var stale: bool
    var pendingRepair: bool
    /** Every registered action handed to an executor, oldest first. */
    var executed: seq<Effect>

    function View(): Worker reads this {
      Worker(state, history, refused, attempts, repaired, blocker, stale, pendingRepair)
    }

    constructor (cfg: Config, w: Worker)
      ensures this.cfg == cfg && View() == w && executed == []
    {
      this.cfg, state, history, refused, attempts := cfg, w.state, w.history, w.refused, w.attempts;
      repaired, blocker, stale, pendingRepair, executed := w.repaired, w.blocker, w.stale, w.pendingRepair, [];
    }

    method Transition(to: DayState)
      modifies this`state, this`history, this`refused
      ensures View() == Move(old(View()), to)
    {
      if ValidTransition(state, to) {
        state, history := to, history + [to];
      } else {
        refused := refused + 1;
      }
    }

    method FailDay(c: Classification)
      modifies this`state, this`history, this`refused
      ensures View() == Fail(old(View()), c)
    {
      var terminal := FAILED_UNRECOVERABLE;
      if c == MISSING_EXTERNAL_AUTHORITY || c == EXTERNAL_AUTHORITY_REQUIRED { terminal := EXTERNAL_ACTION_REQUIRED; }
      else if c == HUMAN_PRODUCT_DECISION_REQUIRED { terminal := HUMAN_ACTION_REQUIRED; }
      if state != terminal { Transition(terminal); }
    }

    method TerminalBlocker(c: Classification, template: Option<Id>)
      modifies this`state, this`history, this`refused, this`blocker
      ensures View() == Block(old(View()), c, template)
    {
      hide Move;
      blocker := Some(AuthorityBlocker(c, template));
      FailDay(c);
    }

    method ExternalRepairBlocker(c: Cycle)
      modifies this`state, this`history, this`refused, this`blocker
      ensures View() == RepairBlocked(old(View()), c)
    {
      hide Block;
      TerminalBlocker(if c.reviewUnavailable then EXTERNAL_AUTHORITY_REQUIRED else HUMAN_PRODUCT_DECISION_REQUIRED, None);
    }

    method PreviousAttempt(template: Option<Id>, input: Fingerprint) returns (previous: Option<Attempt>)
      ensures previous == Previous(attempts, template, input)
    {
      var i := |attempts|;
      assert attempts[..i] == attempts;
      while i > 0
        invariant 0 <= i <= |attempts|
        invariant Previous(attempts, template, input) == Previous(attempts[..i], template, input)
      {
        i := i - 1;
        assert attempts[..i + 1][..i] == attempts[..i];
        if Some(attempts[i].template) == template && attempts[i].input == input { return Some(attempts[i]); }
      }
      return None;
    }

    method DiagnoseGaps(gaps: seq<Gap>, input: Fingerprint) returns (all: Option<seq<Diagnosis>>)
      ensures all == Diagnoses(cfg, attempts, gaps, input)
    {
      hide Previous;
      var found: seq<Diagnosis> := [];
      var i := 0;
      while i < |gaps|
        invariant 0 <= i <= |gaps| && Diagnoses(cfg, attempts, gaps[..i], input) == Some(found)
      {
        assert gaps[..i + 1][..i] == gaps[..i];
        var gap := gaps[i];
        if gap.evidenceType !in cfg.strategies {
          MissingStrategy(cfg, attempts, gaps, i, input);
          return None;
        }
        var s := cfg.strategies[gap.evidenceType];
        var previous := PreviousAttempt(TemplateId(s), input);
        var classification := s.classification;
        if previous.Some? {
          classification := if previous.value.observed == None || previous.value.observed == Some(INSUFFICIENT_EVIDENCE)
                            then ENGINEERING_REPAIR else previous.value.observed.value;
        }
        var action := ActionFingerprint(gap.criterion, gap.evidenceType, TemplateId(s), s.id, input);
        found := found + [Diagnosis(gap, classification, input, action, s)];
        i := i + 1;
      }
      assert gaps[..i] == gaps;
      return Some(found);
    }

    method SelectRegisteredAction(all: seq<Diagnosis>, approvedPaths: bool) returns (best: Option<Diagnosis>)
      ensures best == Selected(cfg, attempts, all, approvedPaths)
    {
      hide Candidate, Before;
      best := None;
      for i := 0 to |all|
        invariant best == Best(cfg, attempts, all, i, approvedPaths)
      {
        if Candidate(cfg, attempts, all, all[i], approvedPaths) {
          CandidateHasTemplate(cfg, attempts, all, all[i], approvedPaths);
          if best.Some? { CandidateHasTemplate(cfg, attempts, all, best.value, approvedPaths); }
          if best == None || Before(all[i], best.value) { best := Some(all[i]); }
        }
      }
    }

    method FindAuthority(all: seq<Diagnosis>) returns (found: Option<Diagnosis>)
      ensures found == FirstAuthority(all)
    {
      var i := 0;
      while i < |all|
        invariant 0 <= i <= |all| && FirstAuthority(all) == FirstAuthority(all[i..])
      {
        if all[i].classification == EXTERNAL_AUTHORITY_REQUIRED || all[i].classification == HUMAN_PRODUCT_DECISION_REQUIRED {
          return Some(all[i]);
        }
        i := i + 1;
      }
      return None;
    }

    method IngestActionResult(d: Diagnosis, r: ActionResult, c: Cycle)
      modifies this`state, this`history, this`refused, this`blocker, this`repaired
      ensures View() == Ingested(old(View()), d, r, c)
    {
      hide Move, Block, Raised;
      if c.trouble == RaiseOnIngest {
        HandleException();
        return;
      }
      if r.classification == EXTERNAL_AUTHORITY_REQUIRED || r.classification == HUMAN_PRODUCT_DECISION_REQUIRED {
        TerminalBlocker(r.classification, TemplateId(d.strategy));
        return;
      }
      if r.outcome != COMPLETED && r.outcome != COMPLETED_NO_CHANGE
         && (r.classification == IMPLEMENTATION_DEFECT || r.classification == ENGINEERING_REPAIR) {
        Transition(REPAIR_SUPERVISOR);
        if r.orderValid {
          repaired := repaired + [d.strategy.id];
          if c.trouble == RaiseInRepair {
            HandleException();
          } else if !c.repairSucceeds {
            ExternalRepairBlocker(c);
          }
        }
      }
    }

    method RouteObservedGap(d: Diagnosis, c: Cycle)
      modifies this`state, this`history, this`refused, this`blocker, this`repaired
      ensures View() == Routed(old(View()), d, c)
    {
      hide Move, Block, Ingested;
      var t := d.strategy.template;
      if d.classification == MODEL_QUALITY_FINDING || t == None || t.value.mode != ENGINEERING_WORKTREE || !t.value.hasTests
         || d.strategy.id in repaired {
        TerminalBlocker(HUMAN_PRODUCT_DECISION_REQUIRED, TemplateId(d.strategy));
        return;
      }
      IngestActionResult(d, ActionResult(OTHER_OUTCOME, ENGINEERING_REPAIR, false, t.value.orderValid), c);
      if Active(state) { Transition(REVALIDATING); }
    }

    /** The attempt is recorded before its action is handed to an executor. */
    method ExecuteRegisteredAction(d: Diagnosis, retry: bool, c: Cycle) returns (returned: bool)
      requires d.strategy.template.Some?
      modifies this
      ensures var e := Executed(old(View()), d, retry, c);
              View() == e.worker && returned == e.Returns? && executed == old(executed) + e.effects
    {
      hide Move, Block, Ingested, Raised, ResultOf;
      var t := d.strategy.template.value;
      Transition(if t.mode == READ_ONLY then COLLECTING_EVIDENCE else EXECUTING_DAY_WORK);
      attempts := attempts + [Attempt(d.action, d.gap.criterion, d.gap.evidenceType, t.id, d.input, STARTED, None, false)];
      executed := executed + [Effect(t.id, d.input, retry)];
      if c.trouble == RaiseOnWork {
        HandleException();
        return true;
      }
      var result := RunAction(t, c);
      var n := |attempts| - 1;
      attempts := attempts[n := attempts[n].(outcome := result.outcome, observed := Some(result.classification),
                                             unapprovedPaths := result.unapprovedPaths)];
      IngestActionResult(d, result, c);
      if !Active(state) { return true; }
      Transition(REVALIDATING);
      returned := Revalidate(c);
    }

    /** Hands the action to its executor; the checkpoint routine answers COMPLETE or asks for a human decision. */
    method RunAction(t: Template, c: Cycle) returns (r: ActionResult)
      ensures r == ResultOf(t, c)
      ensures t.mode == BASELINE_CHECKPOINT ==> r.outcome == COMPLETED || r.classification == HUMAN_PRODUCT_DECISION_REQUIRED
    {
      if t.mode != BASELINE_CHECKPOINT { return c.result; }
      if !c.checkpointed {
        return ActionResult(HUMAN_REQUIRED, HUMAN_PRODUCT_DECISION_REQUIRED, c.result.unapprovedPaths, false);
      }
      return ActionResult(COMPLETED, INSUFFICIENT_EVIDENCE, false, false);
    }

    method HandleException()
      modifies this`state, this`history, this`refused
      ensures View() == Raised(old(View()))
    {
      FailDay(ENGINEERING_REPAIR);
    }

    method Revalidate(c: Cycle) returns (returned: bool)
      modifies this`state, this`history, this`refused
      ensures var e := Revalidated(old(View()), c, []); View() == e.worker && returned == e.Returns?
    {
      hide Move, Raised;
      if c.trouble == RaiseAfterWork {
        HandleException();
        return true;
      }
      Transition(VALIDATING);
      return false;
    }

    method ResumeRepair(c: Cycle) returns (returned: bool)
      modifies this`state, this`history, this`refused, this`blocker, this`pendingRepair
      ensures var e := RepairResumed(old(View()), c); View() == e.worker && returned == e.Returns? && e.effects == []
    {
      hide Move, Block, Raised;
      Transition(REPAIR_SUPERVISOR);
      pendingRepair := false;
      if c.trouble == RaiseOnWork {
        HandleException();
        return true;
      }
      if !c.repairSucceeds {
        ExternalRepairBlocker(c);
        return true;
      }
      Transition(REVALIDATING);
      returned := Revalidate(c);
    }

    /** What follows the diagnosis of the gaps: a pending repair, a registered action, or a route for the first gap. */
    method Work(all: seq<Diagnosis>, c: Cycle) returns (returned: bool)
      modifies this
      ensures var e := Worked(cfg, old(View()), all, c);
              View() == e.worker && returned == e.Returns? && executed == old(executed) + e.effects
    {
      hide Move, Block, Raised, Executed, Routed, RepairResumed, Revalidated, Candidate, Best, RetryAuthorized;
      if pendingRepair {
        if c.itemFound {
          returned := ResumeRepair(c);
        } else {
          HandleException();
          returned := true;
        }
        RepairHasNoEffect(old(View()), c);
        return;
      }
      var selected := SelectRegisteredAction(all, c.approvedPaths);
      if selected.Some? {
        CandidateHasTemplate(cfg, attempts, all, selected.value, c.approvedPaths);
        returned := ExecuteRegisteredAction(selected.value, RetryAuthorized(cfg, attempts, selected.value, c.approvedPaths), c);
        return;
      }
      var authority := FindAuthority(all);
      if authority.Some? {
        TerminalBlocker(authority.value.classification, TemplateId(authority.value.strategy));
        return true;
      }
      if all == [] {
        HandleException();
        return true;
      }
      RouteObservedGap(all[0], c);
      if !Active(state) { return true; }
      RevalidatedHasNoEffect(View(), c);
      returned := Revalidate(c);
    }

    /** One turn of the loop, from the test of the stop event to the next validation. */
    method Turn(c: Cycle) returns (returned: bool)
      modifies this
      ensures var e := RunCycle(cfg, old(View()), c);
              View() == e.worker && returned == e.Returns? && executed == old(executed) + e.effects
    {
      hide Move, Block, Raised, Worked, RepairResumed, Diagnoses;
      if c.stop {
        Transition(STOPPED);
        return true;
      }
      if c.trouble == RaiseOnEvaluate {
        HandleException();
        return true;
      }
      if c.complete {
        Transition(COMPLETE);
        return true;
      }
      if stale {
        stale := false;
        if !c.resumeMatches {
          var before := refused;
          TerminalBlocker(EXTERNAL_AUTHORITY_REQUIRED, None);
          if refused > before { HandleException(); }
          return true;
        }
        Transition(DIAGNOSING_GAP);
        RepairHasNoEffect(View(), c);
        returned := ResumeRepair(c);
        return;
      }
      Transition(DIAGNOSING_GAP);
      MoveKeepsAttempts(old(View()), DIAGNOSING_GAP);
      var all := DiagnoseGaps(c.gaps, c.input);
      if all == None {
        HandleException();
        return true;
      }
      returned := Work(all.value, c);
    }

    method CheckPreflight(p: Preflight)
      modifies this`state, this`history, this`refused, this`blocker
      ensures View() == Preflighted(old(View()), p)
    {
      hide Move, Block, Raised;
      if p.raises {
        HandleException();
        return;
      }
      if blocker.Some? {
        if !p.blockerResolved && !p.retryEligible {
          FailDay(blocker.value.classification);
          return;
        }
        blocker := None;
      }
      if p.sourcesMissing {
        TerminalBlocker(EXTERNAL_AUTHORITY_REQUIRED, None);
        return;
      }
      Transition(LOADING_CONTRACT);
      Transition(INVENTORY);
      if p.ingestRaises {
        HandleException();
        return;
      }
      Transition(VALIDATING);
    }

    /** The worker: preflight, then the loop, for as long as there are cycles to observe. */
    method ExecuteDay(p: Preflight, cycles: seq<Cycle>) returns (returned: bool)
      modifies this
      ensures var e := Execute(cfg, old(View()), p, cycles);
              View() == e.worker && returned == e.Returns? && executed == old(executed) + e.effects
    {
      hide RunCycle, Preflighted;
      CheckPreflight(p);
      if state != VALIDATING {
        return true;
      }
      ghost var ready := View();
      ghost var start := executed;
      var i := 0;
      while i < |cycles|
        invariant 0 <= i <= |cycles| && start <= executed
        invariant Looped(cfg, ready, cycles) == Prefixed(executed[|start|..], Looped(cfg, View(), cycles[i..]))
      {
        ghost var before := executed;
        ghost var w := View();
        returned := Turn(cycles[i]);
        ghost var first := RunCycle(cfg, w, cycles[i]);
        assert cycles[i..][1..] == cycles[i + 1..];
        assert executed[|start|..] == before[|start|..] + first.effects;
        if returned { return; }
        PrefixTwice(before[|start|..], first.effects, Looped(cfg, View(), cycles[i + 1..]));
        i := i + 1;
      }
      assert cycles[i..] == [];
      return false;
    }
  }

  /** An end with these effects before its own. */
  ghost function Prefixed(effects: seq<Effect>, e: CycleEnd): CycleEnd {
    if e.Returns? then Returns(e.worker, effects + e.effects) else Continues(e.worker, effects + e.effects)
  }

  lemma PrefixTwice(a: seq<Effect>, b: seq<Effect>, e: CycleEnd)
    ensures Prefixed(a, Prefixed(b, e)) == Prefixed(a + b, e)
  {
    assert a + (b + e.effects) == a + b + e.effects;
  }

  lemma CandidateHasTemplate(cfg: Config, attempts: seq<Attempt>, all: seq<Diagnosis>, d: Diagnosis, approvedPaths: bool)
    requires Candidate(cfg, attempts, all, d, approvedPaths)
    ensures d.strategy.template.Some?
  {
  }

  lemma MoveKeepsAttempts(w: Worker, to: DayState)
    ensures Move(w, to).attempts == w.attempts
  {
  }

  lemma RevalidatedHasNoEffect(w: Worker, c: Cycle)
    ensures Revalidated(w, c, []).effects == []
  {
  }

  lemma RepairHasNoEffect(w: Worker, c: Cycle)
    ensures RepairResumed(w, c).effects == []
  {
  }

  lemma {:induction false} MissingStrategy(cfg: Config, attempts: seq<Attempt>, gaps: seq<Gap>, i: nat, input: Fingerprint)
    requires i < |gaps| && gaps[i].evidenceType !in cfg.strategies
    ensures Diagnoses(cfg, attempts, gaps, input) == None
  {
    if i < |gaps| - 1 { MissingStrategy(cfg, attempts, gaps[..|gaps| - 1], i, input); }
  }
}
