/** No registered action runs twice on the same inputs, and with fixed inputs the worker's loop ends. */
module DayLoopOnce {
  import opened Prelude
  import opened DayModels
  import opened DayStateMachine
  import opened DayLoop
  import opened DayLoopProperties

  // ----- one cycle -----

  /** Every pair of template and inputs that was tried stays tried. */
  ghost predicate Keeps(before: seq<Attempt>, after: seq<Attempt>) {
    forall t, f :: Tried(before, t, f) ==> Tried(after, t, f)
  }

  lemma SameTried(before: seq<Attempt>, after: seq<Attempt>)
    requires |before| <= |after|
    requires forall i :: 0 <= i < |before| ==> after[i].template == before[i].template && after[i].input == before[i].input
    ensures Keeps(before, after)
  {
    forall t, f | Tried(before, t, f) ensures Tried(after, t, f) {
      var a :| a in before && a.template == t && a.input == f;
      var i :| 0 <= i < |before| && before[i] == a;
      assert after[i] in after;
    }
  }

  /** What a cycle, or a part of one, did to attempts and repairs and which effect it had. */
  ghost predicate Logged(cfg: Config, w: Worker, c: Cycle, e: CycleEnd) {
    && Keeps(w.attempts, e.worker.attempts) && |e.effects| <= 1
    && (e.effects != [] ==>
          var x := e.effects[0];
          && Tried(e.worker.attempts, x.template, x.input)
          && (if x.retry then cfg.day == 1 && x.template == DAY_ONE_CHECKPOINT && c.approvedPaths
              else !Tried(w.attempts, x.template, x.input)))
  }

  lemma ExecutedLogs(cfg: Config, w: Worker, d: Diagnosis, c: Cycle, all: seq<Diagnosis>)
    requires w.state == DIAGNOSING_GAP && Candidate(cfg, w.attempts, all, d, c.approvedPaths)
    ensures Logged(cfg, w, c, Executed(w, d, RetryAuthorized(cfg, w.attempts, d, c.approvedPaths), c))
  {
    var retry := RetryAuthorized(cfg, w.attempts, d, c.approvedPaths);
    ExecutedAttempts(w, d, retry, c);
    var after, n := Executed(w, d, retry, c).worker.attempts, |w.attempts|;
    ExecutedEnds(w, d, retry, c);
    hide Executed;
    SameTried(w.attempts, after);
    assert after[n] in after;
  }

  lemma ExecutedAttempts(w: Worker, d: Diagnosis, retry: bool, c: Cycle)
    requires w.state == DIAGNOSING_GAP && d.strategy.template.Some?
    ensures var e, n := Executed(w, d, retry, c), |w.attempts|;
            var after := e.worker.attempts;
            && |after| == n + 1 && after[..n] == w.attempts
            && after[n].template == d.strategy.template.value.id && after[n].input == d.input
            && (e.Continues? ==> after[n].outcome == ResultOf(d.strategy.template.value, c).outcome)
  {
    hide Ingested, Started, Move, Raised, Revalidated, ResultOf;
    StartedEnds(w, d);
    var started, result := Started(w, d), ResultOf(d.strategy.template.value, c);
    ResultEnds(started, result);
    RaisedSettles(started);
    var reported := WithResult(started, result);
    IngestEnds(reported, d, result, c);
    var after := Ingested(reported, d, result, c);
    if Active(after.state) {
      Moves(after, REVALIDATING);
      RevalidatedEnds(Move(after, REVALIDATING), c, [Effect(d.strategy.template.value.id, d.input, retry)]);
    }
  }

  lemma WorkedLogs(cfg: Config, w: Worker, all: seq<Diagnosis>, c: Cycle)
    requires w.state == DIAGNOSING_GAP
    ensures Logged(cfg, w, c, Worked(cfg, w, all, c))
  {
    hide Routed, Executed, RepairResumed, Best, RetryAuthorized, Candidate, Block, Raised, Revalidated, Tried;
    RepairResumedEnds(w, c);
    RaisedSettles(w);
    var selected := Selected(cfg, w.attempts, all, c.approvedPaths);
    var authority := FirstAuthority(all);
    if selected.Some? {
      ExecutedLogs(cfg, w, selected.value, c, all);
    } else if authority.Some? {
      BlockSettles(w, authority.value.classification, TemplateId(authority.value.strategy));
    } else if all != [] {
      RoutedEnds(w, all[0], c);
      if Active(Routed(w, all[0], c).state) { RevalidatedEnds(Routed(w, all[0], c), c, []); }
    }
  }

  lemma CycleLogs(cfg: Config, w: Worker, c: Cycle)
    requires w.state == VALIDATING
    ensures Logged(cfg, w, c, RunCycle(cfg, w, c))
  {
    hide Worked, RepairResumed, Diagnoses, Move, Raised, Tried, Block;
    RaisedSettles(w);
    Moves(w, STOPPED);
    Moves(w, COMPLETE);
    Moves(w, DIAGNOSING_GAP);
    var taken := w.(stale := false);
    Moves(taken, DIAGNOSING_GAP);
    RepairResumedEnds(Move(taken, DIAGNOSING_GAP), c);
    RefusedKeepsAttempts(taken);
    var all := Diagnoses(cfg, w.attempts, c.gaps, c.input);
    RaisedSettles(Move(w, DIAGNOSING_GAP));
    if all.Some? { WorkedLogs(cfg, Move(w, DIAGNOSING_GAP), all.value, c); }
  }

  lemma RefusedKeepsAttempts(w: Worker)
    ensures Guarded(w, Block(w, EXTERNAL_AUTHORITY_REQUIRED, None)).attempts == w.attempts
  {
  }

  // ----- the life of a Day -----

  /** Where a process dies inside a cycle: an attempt is saved before its effect, its outcome before a repair. */
  datatype Cut = BeforeAttempt | BeforeEffect | AfterEffect | InRepair

  /**
   * `Work`: the worker runs from PREFLIGHT over some cycles; if it has not returned by then, its process dies
   * at the cut inside one more cycle.  `Change`: anything between two runs, such as a restart or a resume,
   * none of which touches the attempts.
   */
  datatype LifeStep =
    | Work(preflight: Preflight, cycles: seq<Cycle>, last: Cycle, cut: Cut)
    | Change(worker: Worker)

  datatype Life = Life(worker: Worker, executed: seq<Effect>)

  /** What is durable, and which effect happened, when the process dies in this cycle. */
  function Killed(cfg: Config, w: Worker, c: Cycle, cut: Cut): Life {
    var e := RunCycle(cfg, w, c.(trouble := if cut == InRepair then RaiseInRepair else RaiseOnWork));
    if cut == InRepair then Life(e.worker.(state := PAUSED), e.effects)
    else if cut == BeforeAttempt || e.effects == [] then Life(w.(state := PAUSED), [])
    else Life(w.(state := PAUSED, attempts := e.worker.attempts), if cut == AfterEffect then e.effects else [])
  }

  function Lived(cfg: Config, l: Life, s: LifeStep): Life {
    match s
    case Change(worker) => if worker.attempts == l.worker.attempts then l.(worker := worker) else l
    case Work(p, cycles, last, cut) =>
      if l.worker.state != PREFLIGHT then l
      else
        var e := Execute(cfg, l.worker, p, cycles);
        if e.Returns? then Life(e.worker, l.executed + e.effects)
        else
          var killed := Killed(cfg, e.worker, last, cut);
          Life(killed.worker, l.executed + e.effects + killed.executed)
  }

  function LivedAll(cfg: Config, start: Worker, steps: seq<LifeStep>): Life {
    if steps == [] then Life(start, []) else Lived(cfg, LivedAll(cfg, start, steps[..|steps| - 1]), steps[|steps| - 1])
  }

  ghost predicate Remembers(attempts: seq<Attempt>, executed: seq<Effect>) {
    forall i :: 0 <= i < |executed| ==> Tried(attempts, executed[i].template, executed[i].input)
  }

  predicate SamePair(a: Effect, b: Effect) { a.template == b.template && a.input == b.input }

  /** A later run of the same template on the same inputs is the authorized Day 1 scope retry. */
  ghost predicate Once(cfg: Config, executed: seq<Effect>) {
    && (forall i, j :: 0 <= i < j < |executed| && SamePair(executed[i], executed[j]) ==> executed[j].retry)
    && (forall i :: 0 <= i < |executed| && executed[i].retry ==> cfg.day == 1 && executed[i].template == DAY_ONE_CHECKPOINT)
  }

  lemma OneMoreEffect(cfg: Config, w: Worker, c: Cycle, e: CycleEnd, executed: seq<Effect>)
    requires Logged(cfg, w, c, e) && Remembers(w.attempts, executed) && Once(cfg, executed)
    ensures Remembers(e.worker.attempts, executed + e.effects) && Once(cfg, executed + e.effects)
  {
    hide Tried;
    var all := executed + e.effects;
    forall i | 0 <= i < |all| ensures Tried(e.worker.attempts, all[i].template, all[i].input) {
      if i < |executed| { assert all[i] == executed[i]; } else { assert all[i] == e.effects[0]; }
    }
    forall i, j | 0 <= i < j < |all| && SamePair(all[i], all[j]) ensures all[j].retry {
      if j < |executed| { assert SamePair(executed[i], executed[j]); }
      else { assert Tried(w.attempts, executed[i].template, executed[i].input); }
    }
  }

  lemma {:induction false} LoopOnce(cfg: Config, w: Worker, cycles: seq<Cycle>, executed: seq<Effect>)
    requires w.state == VALIDATING && Remembers(w.attempts, executed) && Once(cfg, executed)
    ensures var e := Looped(cfg, w, cycles);
            Remembers(e.worker.attempts, executed + e.effects) && Once(cfg, executed + e.effects)
    decreases |cycles|
  {
    hide RunCycle, Tried, Once, Remembers;
    if cycles == [] {
      assert executed + [] == executed;
    } else {
      var first := RunCycle(cfg, w, cycles[0]);
      CycleLogs(cfg, w, cycles[0]);
      CycleEnds(cfg, w, cycles[0]);
      OneMoreEffect(cfg, w, cycles[0], first, executed);
      if first.Continues? {
        LoopOnce(cfg, first.worker, cycles[1..], executed + first.effects);
        var rest := Looped(cfg, first.worker, cycles[1..]);
        assert executed + (first.effects + rest.effects) == executed + first.effects + rest.effects;
      }
    }
  }

  lemma KilledOnce(cfg: Config, w: Worker, c: Cycle, cut: Cut, executed: seq<Effect>)
    requires w.state == VALIDATING && Remembers(w.attempts, executed) && Once(cfg, executed)
    ensures var k := Killed(cfg, w, c, cut);
            Remembers(k.worker.attempts, executed + k.executed) && Once(cfg, executed + k.executed)
  {
    hide RunCycle, Tried;
    var dying := c.(trouble := if cut == InRepair then RaiseInRepair else RaiseOnWork);
    var e := RunCycle(cfg, w, dying);
    CycleLogs(cfg, w, dying);
    OneMoreEffect(cfg, w, dying, e, executed);
    assert executed + [] == executed;
    forall i | 0 <= i < |executed| ensures Tried(e.worker.attempts, executed[i].template, executed[i].input) {
      assert Tried(w.attempts, executed[i].template, executed[i].input);
    }
  }

  lemma StepOnce(cfg: Config, l: Life, s: LifeStep)
    requires Remembers(l.worker.attempts, l.executed) && Once(cfg, l.executed)
    ensures var l' := Lived(cfg, l, s); Remembers(l'.worker.attempts, l'.executed) && Once(cfg, l'.executed)
  {
    hide Looped, Preflighted, Killed, Once, Remembers;
    if s.Work? && l.worker.state == PREFLIGHT {
      var ready := Preflighted(l.worker, s.preflight);
      PreflightEnds(l.worker, s.preflight);
      assert l.executed + [] == l.executed;
      if ready.state == VALIDATING {
        LoopOnce(cfg, ready, s.cycles, l.executed);
        LoopSettles(cfg, ready, s.cycles);
        var e := Looped(cfg, ready, s.cycles);
        if e.Continues? { KilledOnce(cfg, e.worker, s.last, s.cut, l.executed + e.effects); }
      }
    }
  }

  /**
   * Over the whole life of a Day, through stops, deaths of the process and resumes, no registered template is
   * executed twice on the same inputs, other than by the authorized Day 1 scope retry.
   */
  lemma {:induction false} ActionsRunOnce(cfg: Config, start: Worker, steps: seq<LifeStep>)
    ensures var l := LivedAll(cfg, start, steps); Remembers(l.worker.attempts, l.executed) && Once(cfg, l.executed)
  {
    hide Lived, Once, Remembers;
    if steps == [] {
      NothingExecuted(cfg, start.attempts);
    } else {
      ActionsRunOnce(cfg, start, steps[..|steps| - 1]);
      StepOnce(cfg, LivedAll(cfg, start, steps[..|steps| - 1]), steps[|steps| - 1]);
    }
  }

  lemma NothingExecuted(cfg: Config, attempts: seq<Attempt>)
    ensures Remembers(attempts, []) && Once(cfg, [])
  {
  }

  // ----- the loop ends -----

  ghost function Untried(cfg: Config, attempts: seq<Attempt>, input: Fingerprint): set<Id> {
    set t | t in cfg.strategies && cfg.strategies[t].template.Some?
            && !Tried(attempts, cfg.strategies[t].template.value.id, input) :: cfg.strategies[t].template.value.id
  }

  ghost function Unrepaired(cfg: Config, repaired: seq<Id>): set<Id> {
    set t | t in cfg.strategies && cfg.strategies[t].id !in repaired :: cfg.strategies[t].id
  }

  /** The Day 1 checkpoint was made, so its scope retry is authorized no more. */
  predicate Checkpointed(attempts: seq<Attempt>) {
    exists a :: a in attempts && a.template == DAY_ONE_CHECKPOINT && a.outcome == COMPLETED
  }

  /** How many more cycles can go on. */
  ghost function Left(cfg: Config, w: Worker, input: Fingerprint): nat {
    |Untried(cfg, w.attempts, input)| + |Unrepaired(cfg, w.repaired)| + (if Checkpointed(w.attempts) then 0 else 1)
    + (if w.stale then 1 else 0) + (if w.pendingRepair then 1 else 0)
  }

  /** Gaps of this strategy are routed to a repair, and the order built for it is refused. */
  predicate Unrepairable(s: Strategy) {
    && s.template.Some? && s.template.value.mode == ENGINEERING_WORKTREE && s.template.value.hasTests
    && !s.template.value.orderValid
  }

  predicate MakesCheckpoint(s: Strategy) {
    TemplateId(s) == Some(DAY_ONE_CHECKPOINT) ==> s.template.value.mode == BASELINE_CHECKPOINT
  }

  /** The registry gives the Day 1 checkpoint to another executor, which may report anything. */
  predicate Misregistered(cfg: Config) {
    && cfg.day == 1 && COMMIT_REF in cfg.strategies && !MakesCheckpoint(cfg.strategies[COMMIT_REF])
    && COMMIT_REF !in cfg.strategies[COMMIT_REF].template.value.inputs
  }

  /** The Day 1 checkpoint is registered for the checkpoint routine, and every repair scope makes a valid order. */
  ghost predicate Registered(cfg: Config) {
    !Misregistered(cfg) && forall t :: t in cfg.strategies ==> !Unrepairable(cfg.strategies[t])
  }

  lemma {:induction false} DiagnosesRegistered(cfg: Config, attempts: seq<Attempt>, gaps: seq<Gap>, input: Fingerprint)
    ensures var all := Diagnoses(cfg, attempts, gaps, input);
            all.Some? ==> forall d :: d in all.value ==>
              d.gap.evidenceType in cfg.strategies && d.strategy == cfg.strategies[d.gap.evidenceType] && d.input == input
  {
    if gaps != [] { DiagnosesRegistered(cfg, attempts, gaps[..|gaps| - 1], input); }
  }

  lemma FewerUntried(cfg: Config, before: seq<Attempt>, after: seq<Attempt>, input: Fingerprint, t: EvidenceType)
    requires Keeps(before, after) && t in cfg.strategies && cfg.strategies[t].template.Some?
    requires !Tried(before, cfg.strategies[t].template.value.id, input) && Tried(after, cfg.strategies[t].template.value.id, input)
    ensures |Untried(cfg, after, input)| < |Untried(cfg, before, input)|
  {
    hide Tried;
    var id := cfg.strategies[t].template.value.id;
    var b, a := Untried(cfg, before, input), Untried(cfg, after, input);
    assert id in b && id !in a;
    assert a <= b - {id};
    assert |b - {id}| == |b| - 1;
    SubsetSize(a, b - {id});
  }

  lemma {:induction false} SubsetSize<T>(a: set<T>, b: set<T>)
    requires a <= b
    ensures |a| <= |b|
  {
    if a != {} {
      var x :| x in a;
      SubsetSize(a - {x}, b - {x});
    }
  }

  lemma UntriedShrinks(cfg: Config, before: seq<Attempt>, after: seq<Attempt>, input: Fingerprint)
    requires Keeps(before, after)
    ensures |Untried(cfg, after, input)| <= |Untried(cfg, before, input)|
  {
    hide Tried;
    SubsetSize(Untried(cfg, after, input), Untried(cfg, before, input));
  }

  lemma UnrepairedShrinks(cfg: Config, repaired: seq<Id>, id: Id)
    ensures |Unrepaired(cfg, repaired + [id])| <= |Unrepaired(cfg, repaired)|
    ensures id !in repaired && (exists t :: t in cfg.strategies && cfg.strategies[t].id == id) ==>
              |Unrepaired(cfg, repaired + [id])| < |Unrepaired(cfg, repaired)|
  {
    var b, a := Unrepaired(cfg, repaired), Unrepaired(cfg, repaired + [id]);
    assert a <= b - {id};
    SubsetSize(a, b - {id});
    if id in b { assert |b - {id}| == |b| - 1; } else { assert b - {id} == b; }
  }

  /** Attempts are only appended, so a checkpoint that was made stays made. */
  lemma StaysCheckpointed(before: seq<Attempt>, after: seq<Attempt>)
    requires before <= after
    ensures Checkpointed(before) ==> Checkpointed(after)
  {
    if a :| a in before && a.template == DAY_ONE_CHECKPOINT && a.outcome == COMPLETED {
      assert a in after;
    }
  }

  /** A checkpoint that was not made asks for a human decision, which ends the loop. */
  lemma OnlyACheckpointGoesOn(w: Worker, d: Diagnosis, retry: bool, c: Cycle)
    requires w.state == DIAGNOSING_GAP && d.strategy.template.Some? && d.strategy.template.value.mode == BASELINE_CHECKPOINT
    ensures Executed(w, d, retry, c).Continues? ==> ResultOf(d.strategy.template.value, c).outcome == COMPLETED
  {
    hide Started, WithResult, Move, Raised, Revalidated, Block;
    StartedEnds(w, d);
    var started, result := Started(w, d), ResultOf(d.strategy.template.value, c);
    ResultEnds(started, result);
    RaisedSettles(started);
    var reported := WithResult(started, result);
    RaisedSettles(reported);
    BlockSettles(reported, HUMAN_PRODUCT_DECISION_REQUIRED, TemplateId(d.strategy));
  }

  lemma ExecutedProgress(cfg: Config, w: Worker, all: seq<Diagnosis>, d: Diagnosis, c: Cycle, input: Fingerprint)
    requires w.state == DIAGNOSING_GAP && Registered(cfg) && d in all && Candidate(cfg, w.attempts, all, d, c.approvedPaths)
    requires d.gap.evidenceType in cfg.strategies && d.strategy == cfg.strategies[d.gap.evidenceType] && d.input == input
    ensures var e := Executed(w, d, RetryAuthorized(cfg, w.attempts, d, c.approvedPaths), c);
            e.Continues? ==> Left(cfg, e.worker, input) < Left(cfg, w, input)
  {
    var retry := RetryAuthorized(cfg, w.attempts, d, c.approvedPaths);
    var e, n := Executed(w, d, retry, c), |w.attempts|;
    var id, after := d.strategy.template.value.id, e.worker.attempts;
    ExecutedLogs(cfg, w, d, c, all);
    ExecutedEnds(w, d, retry, c);
    ExecutedRepaired(w, d, retry, c);
    ExecutedAttempts(w, d, retry, c);
    assert e.effects[0] == Effect(id, d.input, retry);
    assert w.attempts <= after;
    StaysCheckpointed(w.attempts, after);
    UnrepairedShrinks(cfg, w.repaired, d.strategy.id);
    UntriedShrinks(cfg, w.attempts, after, input);
    if !Tried(w.attempts, id, input) {
      hide Executed, Candidate, Tried, Checkpointed;
      FewerUntried(cfg, w.attempts, after, input, d.gap.evidenceType);
    } else if e.Continues? {
      OnlyACheckpointGoesOn(w, d, retry, c);
      hide Executed, Tried;
      assert after[n] in after;
    }
  }

  lemma ExecutedRepaired(w: Worker, d: Diagnosis, retry: bool, c: Cycle)
    requires w.state == DIAGNOSING_GAP && d.strategy.template.Some?
    ensures var repaired := Executed(w, d, retry, c).worker.repaired;
            repaired == w.repaired || repaired == w.repaired + [d.strategy.id]
  {
    hide Ingested, Started, WithResult, Move, Raised, Revalidated, ResultOf;
    StartedEnds(w, d);
    var started, result := Started(w, d), ResultOf(d.strategy.template.value, c);
    ResultEnds(started, result);
    RaisedSettles(started);
    var reported := WithResult(started, result);
    IngestEnds(reported, d, result, c);
    var after := Ingested(reported, d, result, c);
    if Active(after.state) {
      Moves(after, REVALIDATING);
      RevalidatedEnds(Move(after, REVALIDATING), c, [Effect(d.strategy.template.value.id, d.input, retry)]);
    }
  }

  lemma IngestRepairs(w: Worker, d: Diagnosis, c: Cycle)
    requires w.state == DIAGNOSING_GAP
    ensures var w' := Ingested(w, d, ActionResult(OTHER_OUTCOME, ENGINEERING_REPAIR, false, true), c);
            Active(w'.state) ==> w'.repaired == w.repaired + [d.strategy.id]
  {
    hide Block, Move, Raised;
    Moves(w, REPAIR_SUPERVISOR);
    RaisedSettles(w);
    var recorded := Move(w, REPAIR_SUPERVISOR).(repaired := w.repaired + [d.strategy.id]);
    RaisedSettles(recorded);
    BlockSettles(recorded, if c.reviewUnavailable then EXTERNAL_AUTHORITY_REQUIRED else HUMAN_PRODUCT_DECISION_REQUIRED, None);
  }

  /** A gap that is routed to repair and stays active used up its repair. */
  lemma RoutedRepairs(cfg: Config, w: Worker, d: Diagnosis, c: Cycle)
    requires w.state == DIAGNOSING_GAP && !Unrepairable(d.strategy)
    ensures var w' := Routed(w, d, c);
            Active(w'.state) ==> d.strategy.id !in w.repaired && w'.repaired == w.repaired + [d.strategy.id]
  {
    hide Block, Move, Ingested;
    BlockSettles(w, HUMAN_PRODUCT_DECISION_REQUIRED, TemplateId(d.strategy));
    IngestRepairs(w, d, c);
    IngestEnds(w, d, ActionResult(OTHER_OUTCOME, ENGINEERING_REPAIR, false, true), c);
    var after := Ingested(w, d, ActionResult(OTHER_OUTCOME, ENGINEERING_REPAIR, false, true), c);
    if Active(after.state) { Moves(after, REVALIDATING); }
  }

  lemma RoutedProgress(cfg: Config, w: Worker, d: Diagnosis, c: Cycle, input: Fingerprint)
    requires w.state == DIAGNOSING_GAP && Registered(cfg) && c.input == input
    requires d.gap.evidenceType in cfg.strategies && d.strategy == cfg.strategies[d.gap.evidenceType]
    ensures var w' := Routed(w, d, c); Active(w'.state) ==> Left(cfg, w', input) < Left(cfg, w, input)
  {
    hide Routed, Untried, Unrepaired, Checkpointed, Unrepairable, Misregistered;
    RoutedRepairs(cfg, w, d, c);
    RoutedEnds(w, d, c);
    UnrepairedShrinks(cfg, w.repaired, d.strategy.id);
  }

  /** With fixed inputs, a cycle that goes on leaves strictly fewer to go. */
  lemma WorkedProgress(cfg: Config, w: Worker, all: seq<Diagnosis>, c: Cycle, input: Fingerprint)
    requires w.state == DIAGNOSING_GAP && Registered(cfg) && c.input == input
    requires forall d :: d in all ==> d.gap.evidenceType in cfg.strategies && d.strategy == cfg.strategies[d.gap.evidenceType] && d.input == input
    ensures var e := Worked(cfg, w, all, c); e.Continues? ==> Left(cfg, e.worker, input) < Left(cfg, w, input)
  {
    hide Routed, Executed, RepairResumed, Best, RetryAuthorized, Candidate, Block, Raised, Revalidated, Tried, Untried, Unrepaired, Registered;
    RepairResumedEnds(w, c);
    var selected := Selected(cfg, w.attempts, all, c.approvedPaths);
    var authority := FirstAuthority(all);
    if w.pendingRepair {
    } else if selected.Some? {
      ExecutedProgress(cfg, w, all, selected.value, c, input);
    } else if authority == None && all != [] {
      RoutedProgress(cfg, w, all[0], c, input);
      RoutedEnds(w, all[0], c);
      if Active(Routed(w, all[0], c).state) { RevalidatedEnds(Routed(w, all[0], c), c, []); }
    }
  }

  lemma CycleProgress(cfg: Config, w: Worker, c: Cycle, input: Fingerprint)
    requires w.state == VALIDATING && Registered(cfg) && c.input == input
    ensures var e := RunCycle(cfg, w, c); e.Continues? ==> Left(cfg, e.worker, input) < Left(cfg, w, input)
  {
    hide Worked, RepairResumed, Diagnoses, Move, Raised, Block, Tried, Untried, Unrepaired, Registered;
    Moves(w, DIAGNOSING_GAP);
    var taken := w.(stale := false);
    Moves(taken, DIAGNOSING_GAP);
    RepairResumedEnds(Move(taken, DIAGNOSING_GAP), c);
    var all := Diagnoses(cfg, w.attempts, c.gaps, c.input);
    DiagnosesRegistered(cfg, w.attempts, c.gaps, c.input);
    if all.Some? { WorkedProgress(cfg, Move(w, DIAGNOSING_GAP), all.value, c, input); }
  }

  /**
   * With fixed inputs the loop returns within one cycle more than the templates it has not tried, the
   * strategies it has not repaired, and three for a Day 1 checkpoint, a retry request and an interrupted repair.
   */
  lemma {:induction false} LoopEnds(cfg: Config, w: Worker, cycles: seq<Cycle>, input: Fingerprint)
    requires w.state == VALIDATING && Registered(cfg) && forall i :: 0 <= i < |cycles| ==> cycles[i].input == input
    ensures |cycles| > Left(cfg, w, input) ==> Looped(cfg, w, cycles).Returns?
    decreases |cycles|
  {
    hide RunCycle, Left;
    if cycles != [] {
      CycleProgress(cfg, w, cycles[0], input);
      CycleEnds(cfg, w, cycles[0]);
      var first := RunCycle(cfg, w, cycles[0]);
      if first.Continues? { LoopEnds(cfg, first.worker, cycles[1..], input); }
    }
  }

  /** The templates registered for the Day, and its strategies. */
  ghost function Templates(cfg: Config): set<Id> {
    set t | t in cfg.strategies && cfg.strategies[t].template.Some? :: cfg.strategies[t].template.value.id
  }

  ghost function Strategies(cfg: Config): set<Id> {
    set t | t in cfg.strategies :: cfg.strategies[t].id
  }

  /** The bound in terms of the configuration alone: templates plus strategies, plus four. */
  lemma WorkerEnds(cfg: Config, w: Worker, p: Preflight, cycles: seq<Cycle>, input: Fingerprint)
    requires w.state == PREFLIGHT && Registered(cfg) && forall i :: 0 <= i < |cycles| ==> cycles[i].input == input
    requires |cycles| >= |Templates(cfg)| + |Strategies(cfg)| + 4
    ensures Execute(cfg, w, p, cycles).Returns?
  {
    hide Looped, Preflighted, Registered, Tried;
    PreflightEnds(w, p);
    var ready := Preflighted(w, p);
    if ready.state == VALIDATING {
      SubsetSize(Untried(cfg, ready.attempts, input), Templates(cfg));
      SubsetSize(Unrepaired(cfg, ready.repaired), Strategies(cfg));
      LoopEnds(cfg, ready, cycles, input);
    }
  }

  // ----- and why the repair orders have to be valid -----

  /** The only gap is of a strategy that cannot be repaired, and its template was tried on these inputs. */
  ghost predicate Circling(cfg: Config, w: Worker, t: EvidenceType, input: Fingerprint) {
    && w.state == VALIDATING && !w.stale && !w.pendingRepair
    && t in cfg.strategies && Unrepairable(cfg.strategies[t])
    && cfg.strategies[t].id !in w.repaired
    && Tried(w.attempts, cfg.strategies[t].template.value.id, input)
    && (var previous := Previous(w.attempts, TemplateId(cfg.strategies[t]), input);
        previous.Some? && previous.value.observed == None)
  }

  function SameGap(t: EvidenceType, input: Fingerprint): Cycle {
    Cycle(false, NoTrouble, false, [Gap(0, t)], input, false, true, true,
          ActionResult(STARTED, INSUFFICIENT_EVIDENCE, false, false), false, false, false)
  }

  function Repeated(t: EvidenceType, input: Fingerprint, n: nat): seq<Cycle> { seq(n, _ => SameGap(t, input)) }

  lemma CirclingCycle(cfg: Config, w: Worker, t: EvidenceType, input: Fingerprint)
    requires Circling(cfg, w, t, input)
    ensures var e := RunCycle(cfg, w, SameGap(t, input)); e.Continues? && Circling(cfg, e.worker, t, input)
  {
    hide Move, Tried, Previous;
    var c := SameGap(t, input);
    var d := DiagnosisOf(cfg, w.attempts, Gap(0, t), input);
    assert c.gaps[..0] == [];
    assert Diagnoses(cfg, w.attempts, [], input) == Some([]);
    assert [] + [d] == [d];
    assert Diagnoses(cfg, w.attempts, c.gaps, input) == Some([d]);
    Moves(w, DIAGNOSING_GAP);
    var diagnosing := Move(w, DIAGNOSING_GAP);
    assert !Candidate(cfg, w.attempts, [d], d, false);
    assert Selected(cfg, w.attempts, [d], false) == None;
    assert FirstAuthority([d]) == None;
    Moves(diagnosing, REPAIR_SUPERVISOR);
    Moves(Move(diagnosing, REPAIR_SUPERVISOR), REVALIDATING);
    Moves(Move(Move(diagnosing, REPAIR_SUPERVISOR), REVALIDATING), VALIDATING);
  }

  /** Then the loop never ends: it is still going after any number of cycles. */
  lemma {:induction false} CirclesForever(cfg: Config, w: Worker, t: EvidenceType, input: Fingerprint, n: nat)
    requires Circling(cfg, w, t, input)
    ensures Looped(cfg, w, Repeated(t, input, n)).Continues?
    decreases n
  {
    hide RunCycle, Circling;
    if n > 0 {
      CirclingCycle(cfg, w, t, input);
      assert Repeated(t, input, n)[1..] == Repeated(t, input, n - 1);
      CirclesForever(cfg, RunCycle(cfg, w, SameGap(t, input)).worker, t, input, n - 1);
    }
  }

  /** For every configuration with such a strategy there is a Day on which the worker goes on for ever. */
  lemma UnrepairableConfigurationCircles(cfg: Config, t: EvidenceType, input: Fingerprint) returns (w: Worker)
    requires t in cfg.strategies && Unrepairable(cfg.strategies[t])
    ensures w.state == VALIDATING && forall n: nat :: Looped(cfg, w, Repeated(t, input, n)).Continues?
  {
    var s := cfg.strategies[t];
    var a := Attempt(ActionFingerprint(0, t, TemplateId(s), s.id, input), 0, t, s.template.value.id, input, STARTED, None, false);
    w := Worker(VALIDATING, [], 0, [a], [], None, false, false);
    assert a in w.attempts;
    forall n: nat ensures Looped(cfg, w, Repeated(t, input, n)).Continues? {
      CirclesForever(cfg, w, t, input, n);
    }
  }

  // ----- and why the checkpoint has to be the checkpoint routine -----

  /** A scope retry is authorized, and the only gap asks for it. */
  ghost predicate Retrying(cfg: Config, w: Worker) {
    && w.state == VALIDATING && !w.stale && !w.pendingRepair && !Checkpointed(w.attempts)
    && exists a :: a in w.attempts && a.template == DAY_ONE_CHECKPOINT && a.outcome == HUMAN_REQUIRED && a.unapprovedPaths
  }

  function RetryCycle(input: Fingerprint): Cycle {
    Cycle(false, NoTrouble, false, [Gap(0, COMMIT_REF)], input, true, true, true,
          ActionResult(OTHER_OUTCOME, INSUFFICIENT_EVIDENCE, false, false), false, false, false)
  }

  lemma RetrySelected(cfg: Config, attempts: seq<Attempt>, input: Fingerprint)
    requires Misregistered(cfg) && !Checkpointed(attempts)
    requires exists a :: a in attempts && a.template == DAY_ONE_CHECKPOINT && a.outcome == HUMAN_REQUIRED && a.unapprovedPaths
    ensures var d := DiagnosisOf(cfg, attempts, Gap(0, COMMIT_REF), input);
            && Diagnoses(cfg, attempts, [Gap(0, COMMIT_REF)], input) == Some([d])
            && RetryAuthorized(cfg, attempts, d, true) && Selected(cfg, attempts, [d], true) == Some(d)
  {
    hide Tried, Previous;
    var d, gaps := DiagnosisOf(cfg, attempts, Gap(0, COMMIT_REF), input), [Gap(0, COMMIT_REF)];
    assert gaps[..0] == [];
    assert Diagnoses(cfg, attempts, [], input) == Some([]);
    assert [] + [d] == [d];
    assert RetryAuthorized(cfg, attempts, d, true);
    assert Candidate(cfg, attempts, [d], d, true);
  }

  lemma RetryingCycle(cfg: Config, w: Worker, input: Fingerprint)
    requires Misregistered(cfg) && Retrying(cfg, w)
    ensures var e := RunCycle(cfg, w, RetryCycle(input));
            && e.Continues? && Retrying(cfg, e.worker)
            && e.effects == [Effect(DAY_ONE_CHECKPOINT, input, true)]
  {
    hide Move, Tried, Previous, Diagnoses, DiagnosisOf, RetryAuthorized, Selected, Executed;
    var a :| a in w.attempts && a.template == DAY_ONE_CHECKPOINT && a.outcome == HUMAN_REQUIRED && a.unapprovedPaths;
    var c, d := RetryCycle(input), DiagnosisOf(cfg, w.attempts, Gap(0, COMMIT_REF), input);
    Moves(w, DIAGNOSING_GAP);
    RetrySelected(cfg, w.attempts, input);
    assert d.strategy == cfg.strategies[COMMIT_REF] && d.input == input by { GapDiagnosis(cfg, w.attempts, input); }
    var diagnosing := Move(w, DIAGNOSING_GAP);
    RetryGoesOn(diagnosing, d, c);
    var after := Executed(diagnosing, d, true, c).worker.attempts;
    assert forall x :: x in after ==> x in w.attempts || x == after[|w.attempts|];
    assert after[..|w.attempts|] == w.attempts && a in after[..|w.attempts|];
    assert a in after;
  }

  lemma GapDiagnosis(cfg: Config, attempts: seq<Attempt>, input: Fingerprint)
    requires COMMIT_REF in cfg.strategies
    ensures var d := DiagnosisOf(cfg, attempts, Gap(0, COMMIT_REF), input);
            d.strategy == cfg.strategies[COMMIT_REF] && d.input == input
  {
    hide Previous;
  }

  lemma RetryGoesOn(w: Worker, d: Diagnosis, c: Cycle)
    requires w.state == DIAGNOSING_GAP && d.strategy.template.Some? && d.strategy.template.value.mode != BASELINE_CHECKPOINT
    requires c.trouble == NoTrouble && c.result == ActionResult(OTHER_OUTCOME, INSUFFICIENT_EVIDENCE, false, false)
    ensures var e, n := Executed(w, d, true, c), |w.attempts|;
            && e.Continues? && e.worker.state == VALIDATING
            && e.worker.stale == w.stale && e.worker.pendingRepair == w.pendingRepair
            && |e.worker.attempts| == n + 1 && e.worker.attempts[..n] == w.attempts && e.worker.attempts[n].outcome == OTHER_OUTCOME
            && e.effects == [Effect(d.strategy.template.value.id, d.input, true)]
  {
    hide Move;
    Moves(w, if d.strategy.template.value.mode == READ_ONLY then COLLECTING_EVIDENCE else EXECUTING_DAY_WORK);
    var reported := WithResult(Started(w, d), c.result);
    Moves(reported, REVALIDATING);
    Moves(Move(reported, REVALIDATING), VALIDATING);
  }

  function Retries(input: Fingerprint, n: nat): seq<Cycle> { seq(n, _ => RetryCycle(input)) }

  /** Then the retry runs in every cycle, without end and on the same inputs. */
  lemma {:induction false} RetriesForever(cfg: Config, w: Worker, input: Fingerprint, n: nat)
    requires Misregistered(cfg) && Retrying(cfg, w)
    ensures var e := Looped(cfg, w, Retries(input, n)); e.Continues? && |e.effects| == n
    decreases n
  {
    hide RunCycle, Retrying;
    if n > 0 {
      RetryingCycle(cfg, w, input);
      assert Retries(input, n)[1..] == Retries(input, n - 1);
      RetriesForever(cfg, RunCycle(cfg, w, RetryCycle(input)).worker, input, n - 1);
    }
  }

  /** For every such registry there is a Day on which the worker goes on for ever. */
  lemma MisregisteredCheckpointRetriesForever(cfg: Config, input: Fingerprint) returns (w: Worker)
    requires Misregistered(cfg)
    ensures w.state == VALIDATING
    ensures forall n: nat :: Looped(cfg, w, Retries(input, n)).Continues? && |Looped(cfg, w, Retries(input, n)).effects| == n
  {
    var s := cfg.strategies[COMMIT_REF];
    var a := Attempt(ActionFingerprint(0, COMMIT_REF, TemplateId(s), s.id, input), 0, COMMIT_REF, DAY_ONE_CHECKPOINT, input,
                     HUMAN_REQUIRED, Some(HUMAN_PRODUCT_DECISION_REQUIRED), true);
    w := Worker(VALIDATING, [], 0, [a], [], None, false, false);
    assert a in w.attempts;
    assert Retrying(cfg, w);
    forall n: nat ensures Looped(cfg, w, Retries(input, n)).Continues? && |Looped(cfg, w, Retries(input, n)).effects| == n {
      RetriesForever(cfg, w, input, n);
    }
  }

  // ----- exactly when the loop is bounded -----

  /** On these inputs the loop returns within that many cycles, from any state and for any other answers. */
  ghost predicate BoundedBy(cfg: Config, input: Fingerprint, n: nat) {
    forall w: Worker, cycles: seq<Cycle> ::
      w.state == VALIDATING && |cycles| >= n && (forall i :: 0 <= i < |cycles| ==> cycles[i].input == input) ==>
        Looped(cfg, w, cycles).Returns?
  }

  /** A registry bounds the loop exactly when it registers the checkpoint and every repair scope as it should. */
  lemma LoopIsBoundedExactly(cfg: Config, input: Fingerprint)
    ensures (exists n: nat :: BoundedBy(cfg, input, n)) <==> Registered(cfg)
  {
    if Registered(cfg) {
      var n := |Templates(cfg)| + |Strategies(cfg)| + 4;
      forall w: Worker, cycles: seq<Cycle> |
        w.state == VALIDATING && |cycles| >= n && (forall i :: 0 <= i < |cycles| ==> cycles[i].input == input)
        ensures Looped(cfg, w, cycles).Returns?
      {
        hide Looped, Registered, Tried;
        SubsetSize(Untried(cfg, w.attempts, input), Templates(cfg));
        SubsetSize(Unrepaired(cfg, w.repaired), Strategies(cfg));
        LoopEnds(cfg, w, cycles, input);
      }
      assert BoundedBy(cfg, input, n);
    } else {
      forall n: nat ensures !BoundedBy(cfg, input, n) { Unbounded(cfg, input, n); }
    }
  }

  lemma Unbounded(cfg: Config, input: Fingerprint, n: nat)
    requires !Registered(cfg)
    ensures !BoundedBy(cfg, input, n)
  {
    hide Looped;
    if Misregistered(cfg) {
      var w := MisregisteredCheckpointRetriesForever(cfg, input);
      assert Looped(cfg, w, Retries(input, n)).Continues?;
    } else {
      var t :| t in cfg.strategies && Unrepairable(cfg.strategies[t]);
      var w := UnrepairableConfigurationCircles(cfg, t, input);
      assert Looped(cfg, w, Repeated(t, input, n)).Continues?;
    }
  }
}
