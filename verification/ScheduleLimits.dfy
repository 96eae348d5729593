/** No run of the scheduler ever exceeds a limit of its plan. */
module ScheduleLimits {
  import opened Prelude
  import opened TokenUsage
  import opened ModelRouter
  import opened DaySchedule

  /** The executor takes no more Codex turns than the cap it was called with. */
  ghost predicate HonoursCap(env: Env) {
    forall i: nat, n: nat, cap: int, routes: seq<Decision> :: cap >= 0 ==> env.result(i, n, cap, routes).attempts <= cap
  }

  predicate LoopsBounded(plan: Plan, queue: seq<Item>) {
    forall i :: 0 <= i < |queue| ==> queue[i].repairLoops <= plan.maxRepairLoops
  }

  predicate InLimits(plan: Plan, s: Snapshot) {
    && s.architectCalls <= plan.maxArchitect && s.evaluatorCalls <= plan.maxEvaluator
    && s.tasksProcessed <= plan.maxTasks && s.retries <= plan.maxRetries && s.replans <= plan.maxReplans
    && LoopsBounded(plan, s.queue)
  }

  /** The plan's limits, with the Codex limit for executors that honour their cap. */
  predicate Bounded(plan: Plan, s: Snapshot, capped: bool) {
    InLimits(plan, s) && (capped ==> s.codexCalls <= plan.maxCodex)
  }

  lemma PiecesStayBounded(plan: Plan, s: Snapshot, id: TaskId, why: Reason, i: nat, state: ItemState, capped: bool)
    requires Bounded(plan, s, capped)
    ensures Bounded(plan, Reviewed(s, id, why), capped) && Bounded(plan, Completed(s), capped)
    ensures Bounded(plan, Replanned(plan, s, why), capped)
    ensures s.tasksProcessed < plan.maxTasks ==> Bounded(plan, Counted(s, i, state), capped) && Bounded(plan, Ended(plan, s, i, state), capped)
  {
    hide Percent, IndexFrom, AllSuccessful, Successes;
  }

  lemma RunStaysBounded(cfg: Config, plan: Plan, s: Snapshot, i: nat, complexity: Complexity, failure: Option<Failure>, env: Env, capped: bool)
    requires i < |s.queue| && Bounded(plan, s, capped) && (capped ==> HonoursCap(env))
    ensures var t := RunOf(cfg, plan, s, i, complexity, failure, env).snapshot;
            Bounded(plan, t, capped) && t.tasksProcessed == s.tasksProcessed
  {
    hide CodexRouted, DecisionFor, RoutesOf;
  }

  lemma ChargingStaysBounded(plan: Plan, run: Run, capped: bool)
    requires Bounded(plan, run.snapshot, capped)
    ensures Bounded(plan, Charging(run), capped) && Charging(run).tasksProcessed == run.snapshot.tasksProcessed
  {
  }

  lemma {:induction false} ExecutedStaysBounded(cfg: Config, plan: Plan, s: Snapshot, i: nat, complexity: Complexity, failure: Option<Failure>, env: Env, capped: bool)
    requires i < |s.queue| && Configured(cfg, s.queue)
    requires Bounded(plan, s, capped) && s.tasksProcessed < plan.maxTasks && (capped ==> HonoursCap(env))
    ensures Bounded(plan, Executed(cfg, plan, s, i, complexity, failure, env), capped)
    decreases RepairsLeft(plan, s.queue, i), 1
  {
    hide RunOf, Charging, Reviewed, Ended, Counted, Evaluated, HonoursCap, LoopsBounded, DecisionFor;
    var id := s.queue[i].taskId;
    if !(cfg.tasks[id].requiresCodex && s.codexCalls >= plan.maxCodex) {
      RunStaysBounded(cfg, plan, s, i, complexity, failure, env, capped);
      var run := RunOf(cfg, plan, s, i, complexity, failure, env);
      PiecesStayBounded(plan, run.snapshot, id, RoutingMissing, i, Pass, capped);
      var t := Charging(run);
      ChargingStaysBounded(plan, run, capped);
      PiecesStayBounded(plan, t, id, TaskAsks, i, CompleteNoChange, capped);
      PiecesStayBounded(plan, t, id, TaskAsks, i, Pass, capped);
      PiecesStayBounded(plan, t, id, TaskAsks, i, Failed, capped);
      EvaluatedStaysBounded(cfg, plan, t, i, run.result.guardFailed, env, capped);
    }
  }

  lemma CallStaysBounded(cfg: Config, plan: Plan, s: Snapshot, d: Decision, env: Env, capped: bool)
    requires Bounded(plan, s, capped) && s.evaluatorCalls < plan.maxEvaluator
    ensures var t := Called(cfg, plan, s, d, env);
            Bounded(plan, t, capped) && t.tasksProcessed == s.tasksProcessed && t.queue == s.queue
  {
    hide Charged;
  }

  lemma RepairStaysBounded(cfg: Config, plan: Plan, s: Snapshot, i: nat, capped: bool)
    requires Bounded(plan, s, capped) && i < |s.queue| && s.queue[i].repairLoops < plan.maxRepairLoops && Configured(cfg, s.queue)
    ensures var t := RepairBegun(s, i);
            && Bounded(plan, t, capped) && t.tasksProcessed == s.tasksProcessed && SameTasks(s.queue, t.queue)
            && Configured(cfg, t.queue) && RepairsLeft(plan, t.queue, i) < RepairsLeft(plan, s.queue, i)
  {
  }

  lemma {:induction false} EvaluatedStaysBounded(cfg: Config, plan: Plan, s: Snapshot, i: nat, guardFailed: bool, env: Env, capped: bool)
    requires i < |s.queue| && Configured(cfg, s.queue)
    requires Bounded(plan, s, capped) && s.tasksProcessed < plan.maxTasks && (capped ==> HonoursCap(env))
    ensures Bounded(plan, Evaluated(cfg, plan, s, i, guardFailed, env), capped)
    decreases RepairsLeft(plan, s.queue, i), 0
  {
    hide Reviewed, Ended, Executed, HonoursCap, DecisionFor, Called, RepairBegun, LoopsBounded;
    var id := s.queue[i].taskId;
    var d := DecisionFor(cfg, plan, s.roles, EVALUATOR, plan.evaluator, NORMAL, None);
    PiecesStayBounded(plan, s, id, SafetyFailure, i, Pass, capped);
    PiecesStayBounded(plan, s, id, ProviderNotConfigured(EVALUATOR), i, Pass, capped);
    if d.Review? {
      PiecesStayBounded(plan, s, SYSTEM, NotRouted(d.reason), i, Pass, capped);
    } else if s.evaluatorCalls < plan.maxEvaluator {
      var t := Called(cfg, plan, s, d, env);
      CallStaysBounded(cfg, plan, s, d, env, capped);
      PiecesStayBounded(plan, t, id, ProviderError(EVALUATOR), i, Pass, capped);
      PiecesStayBounded(plan, t, id, EvaluationAsks, i, Pass, capped);
      if s.queue[i].repairLoops < plan.maxRepairLoops {
        RepairStaysBounded(cfg, plan, t, i, capped);
        ExecutedStaysBounded(cfg, plan, RepairBegun(t, i), i, NORMAL, Some(REASONING), env, capped);
      }
    }
  }

  lemma FollowedStaysBounded(cfg: Config, plan: Plan, s: Snapshot, choice: Choice, id: Option<TaskId>, env: Env, capped: bool)
    requires Configured(cfg, s.queue)
    requires Bounded(plan, s, capped) && s.tasksProcessed < plan.maxTasks && (capped ==> HonoursCap(env))
    ensures Bounded(plan, Followed(cfg, plan, s, choice, id, env), capped)
  {
    hide Reviewed, Ended, Executed, HonoursCap, LoopsBounded, EligibleFrom, Replanned, AllSuccessful, Progressed;
    var i := EligibleFrom(s.queue, id, 0);
    PiecesStayBounded(plan, s, if id.Some? then id.value else SYSTEM, ArchitectAsks, if i.Some? then i.value else 0, Skipped, capped);
    PiecesStayBounded(plan, s, SYSTEM, InvalidTask, 0, Skipped, capped);
    PiecesStayBounded(plan, s, SYSTEM, PrematureComplete, 0, Skipped, capped);
    if i.Some? && choice.RunTask? {
      ExecutedStaysBounded(cfg, plan, s, i.value, choice.complexity, None, env, capped);
    }
  }

  lemma AnswerStaysBounded(plan: Plan, s: Snapshot, d: Decision, u: Usage, capped: bool)
    requires Bounded(plan, s, capped)
    ensures var t := ChargedTo(Used(s, ARCHITECT, u), d, u);
            Bounded(plan, t, capped) && t.tasksProcessed == s.tasksProcessed && t.queue == s.queue
  {
    hide Charged;
  }

  lemma StopStaysBounded(plan: Plan, s: Snapshot, why: Reason, capped: bool)
    requires Bounded(plan, s, capped)
    ensures Bounded(plan, Stopped(s, why), capped)
  {
  }

  lemma ArchitectCallStaysBounded(plan: Plan, s: Snapshot, capped: bool)
    requires Bounded(plan, s, capped) && s.architectCalls < plan.maxArchitect
    ensures var called := s.(architectCalls := s.architectCalls + 1);
            && Bounded(plan, called, capped) && called.tasksProcessed == s.tasksProcessed
            && (s.retries < plan.maxRetries ==> Bounded(plan, called.(retries := s.retries + 1), capped))
  {
  }

  lemma ProcessedStaysBounded(cfg: Config, plan: Plan, s: Snapshot, env: Env, capped: bool)
    requires Configured(cfg, s.queue)
    requires Bounded(plan, s, capped) && s.tasksProcessed < plan.maxTasks && (capped ==> HonoursCap(env))
    ensures Bounded(plan, Processed(cfg, plan, s, env), capped)
  {
    hide Reviewed, Followed, HonoursCap, Bounded, DecisionFor, ChargedTo, Used, Configured, Stopped;
    var d := DecisionFor(cfg, plan, s.roles, ARCHITECT, plan.architect, NORMAL, None);
    StopStaysBounded(plan, s, MaxArchitectCalls, capped);
    StopStaysBounded(plan, s, BudgetGuard(ARCHITECT), capped);
    if d.Review? {
      PiecesStayBounded(plan, s, SYSTEM, NotRouted(d.reason), 0, Pass, capped);
    } else if s.architectCalls < plan.maxArchitect {
      var called := s.(architectCalls := s.architectCalls + 1);
      ArchitectCallStaysBounded(plan, s, capped);
      PiecesStayBounded(plan, s, SYSTEM, ProviderNotConfigured(ARCHITECT), 0, Pass, capped);
      PiecesStayBounded(plan, called, SYSTEM, ProviderError(ARCHITECT), 0, Pass, capped);
      match env.architect(s.architectCalls)
      case ArchitectError(_) =>
      case Chose(choice, id, u) =>
        AnswerStaysBounded(plan, called, d, u, capped);
        FollowedStaysBounded(cfg, plan, ChargedTo(Used(called, ARCHITECT, u), d, u), choice, id, env, capped);
    }
  }

  lemma {:induction false} AdvancedStaysBounded(cfg: Config, plan: Plan, s: Snapshot, env: Env, capped: bool)
    requires Configured(cfg, s.queue)
    requires Bounded(plan, s, capped) && (capped ==> HonoursCap(env))
    ensures Bounded(plan, Advanced(cfg, plan, s, env), capped)
    decreases Minus(plan.maxArchitect, s.architectCalls), s.state == RUNNING
  {
    hide Processed, HonoursCap, LoopsBounded, AllSuccessful, Successes, Percent;
    if s.state == RUNNING && s.tasksProcessed < plan.maxTasks {
      var t := Processed(cfg, plan, s, env);
      ProcessedStaysBounded(cfg, plan, s, env, capped);
      if t.state == RUNNING && s.mode == Continuous {
        AdvancedStaysBounded(cfg, plan, t, env, capped);
      }
    }
  }

  // ----- a process that dies -----

  lemma {:induction false} SavedStaysBounded(cfg: Config, plan: Plan, s: Snapshot, i: nat, complexity: Complexity, failure: Option<Failure>, env: Env, n: nat, at: Point, capped: bool)
    requires i < |s.queue| && Configured(cfg, s.queue)
    requires Bounded(plan, s, capped) && s.tasksProcessed < plan.maxTasks && (capped ==> HonoursCap(env))
    ensures Bounded(plan, SavedInAttempt(cfg, plan, s, i, complexity, failure, env, n, at), capped)
    decreases n
  {
    hide RunOf, Charging, Executed, Called, RepairBegun, HonoursCap, Bounded, RoutedSoFar, DecisionFor, Stopped;
    StopStaysBounded(plan, s, MaxCodexCalls, capped);
    if at.AtExecutor? { RoutingStaysBounded(cfg, plan, s, i, complexity, failure, env, at.routed, capped); }
    ExecutedStaysBounded(cfg, plan, s, i, complexity, failure, env, capped);
    RunStaysBounded(cfg, plan, s, i, complexity, failure, env, capped);
    var run := RunOf(cfg, plan, s, i, complexity, failure, env);
    ChargingStaysBounded(plan, run, capped);
    var t := Charging(run);
    var d := DecisionFor(cfg, plan, t.roles, EVALUATOR, plan.evaluator, NORMAL, None);
    if CallsEvaluator(cfg, plan, t, run.result.guardFailed) && StartsRepair(cfg, plan, t, i, env) {
      CallStaysBounded(cfg, plan, t, d, env, capped);
      var called := Called(cfg, plan, t, d, env);
      RepairStaysBounded(cfg, plan, called, i, capped);
      if n > 0 { SavedStaysBounded(cfg, plan, RepairBegun(called, i), i, NORMAL, Some(REASONING), env, n - 1, at, capped); }
    }
  }

  lemma {:induction false} EndStaysBounded(cfg: Config, plan: Plan, s: Snapshot, i: nat, complexity: Complexity, failure: Option<Failure>, env: Env, n: nat, capped: bool)
    requires i < |s.queue| && Configured(cfg, s.queue)
    requires Bounded(plan, s, capped) && (capped ==> HonoursCap(env))
    ensures var end := EndInAttempt(cfg, plan, s, i, complexity, failure, env, n);
            end.Some? ==> Bounded(plan, end.value.0, capped) && end.value.0.tasksProcessed == s.tasksProcessed
    decreases n
  {
    hide RunOf, Charging, Called, RepairBegun, HonoursCap, Bounded, DecisionFor;
    RunStaysBounded(cfg, plan, s, i, complexity, failure, env, capped);
    var run := RunOf(cfg, plan, s, i, complexity, failure, env);
    ChargingStaysBounded(plan, run, capped);
    var t := Charging(run);
    var d := DecisionFor(cfg, plan, t.roles, EVALUATOR, plan.evaluator, NORMAL, None);
    if CallsEvaluator(cfg, plan, t, run.result.guardFailed) {
      CallStaysBounded(cfg, plan, t, d, env, capped);
      var called := Judgement(cfg, plan, t, env);
      if t.queue[i].repairLoops < plan.maxRepairLoops && n > 0 {
        RepairStaysBounded(cfg, plan, called, i, capped);
        EndStaysBounded(cfg, plan, RepairBegun(called, i), i, NORMAL, Some(REASONING), env, n - 1, capped);
      }
    }
  }

  lemma ChoiceStaysBounded(cfg: Config, plan: Plan, s: Snapshot, env: Env, capped: bool)
    requires Bounded(plan, s, capped)
    ensures var chosen := ChosenInTurn(cfg, plan, s, env);
            chosen.Some? ==> Bounded(plan, chosen.value.0, capped) && chosen.value.0.tasksProcessed == s.tasksProcessed
  {
    hide DecisionFor, ChargedTo, Used, EligibleFrom, Bounded;
    if ChosenInTurn(cfg, plan, s, env).Some? {
      var called := s.(architectCalls := s.architectCalls + 1);
      ArchitectCallStaysBounded(plan, s, capped);
      AnswerStaysBounded(plan, called, DecisionFor(cfg, plan, s.roles, ARCHITECT, plan.architect, NORMAL, None),
                         env.architect(s.architectCalls).usage, capped);
    }
  }

  lemma RoutingStaysBounded(cfg: Config, plan: Plan, s: Snapshot, i: nat, complexity: Complexity, failure: Option<Failure>, env: Env, n: nat, capped: bool)
    requires i < |s.queue| && Bounded(plan, s, capped)
    ensures Bounded(plan, RoutedSoFar(cfg, plan, s, i, complexity, failure, env, n), capped)
  {
    hide CodexRouted, DecisionFor;
  }

  lemma DeathStaysBounded(cfg: Config, plan: Plan, s: Snapshot, env: Env, cut: Cut, capped: bool)
    requires Configured(cfg, s.queue)
    requires Bounded(plan, s, capped) && s.tasksProcessed < plan.maxTasks && (capped ==> HonoursCap(env))
    ensures Bounded(plan, SavedInTurn(cfg, plan, s, env, cut), capped)
  {
    hide SavedInAttempt, EndInAttempt, ChosenInTurn, HonoursCap, Bounded, Counted;
    var chosen := ChosenInTurn(cfg, plan, s, env);
    ChoiceStaysBounded(cfg, plan, s, env, capped);
    if chosen.Some? {
      var (t, i, choice) := chosen.value;
      match cut
      case BetweenTurns =>
      case InAttempt(n, at) =>
        if choice.RunTask? { SavedStaysBounded(cfg, plan, t, i, choice.complexity, None, env, n, at, capped); }
      case AtEnd(n) =>
        if choice.RunTask? { EndStaysBounded(cfg, plan, t, i, choice.complexity, None, env, n, capped); }
        var end := EndInTurn(cfg, plan, s, env, cut);
        if end.Some? { PiecesStayBounded(plan, end.value.0, SYSTEM, Interrupted, end.value.1, end.value.2, capped); }
    }
  }

  lemma {:induction false} DiedStaysBounded(cfg: Config, plan: Plan, s: Snapshot, env: Env, turns: nat, cut: Cut, capped: bool)
    requires Configured(cfg, s.queue)
    requires Bounded(plan, s, capped) && (capped ==> HonoursCap(env))
    ensures Bounded(plan, DiedAfter(cfg, plan, s, env, turns, cut), capped)
    decreases turns
  {
    hide Processed, SavedInTurn, HonoursCap, LoopsBounded;
    if s.state == RUNNING && s.tasksProcessed < plan.maxTasks {
      if turns == 0 {
        DeathStaysBounded(cfg, plan, s, env, cut, capped);
      } else {
        ProcessedStaysBounded(cfg, plan, s, env, capped);
        if s.mode == Continuous { DiedStaysBounded(cfg, plan, Processed(cfg, plan, s, env), env, turns - 1, cut, capped); }
      }
    }
  }
}
