/** The scheduler over every sequence of starts, resumes, stops and restarts, whatever its providers answer. */
module ScheduleHistory {
  import opened Prelude
  import opened TokenUsage
  import opened ModelRouter
  import opened DaySchedule
  import opened ScheduleLimits
  import opened ScheduleQueue
  import opened ScheduleTokens

  /** A run that a start or a resume begins may end with the death of its process; the next one reads what was saved. */
  datatype Op =
    | Start(planId: string, startMode: Mode, answers: Env, death: Option<Death>)
    | Resume(resumeMode: Option<Mode>, answers: Env, death: Option<Death>)
    | Stop
    | Restart

  /** The run from this state on, to its end or to its death. */
  function Ran(cfg: Config, plan: Plan, s: Snapshot, env: Env, death: Option<Death>): (r: Snapshot)
    requires Configured(cfg, s.queue)
    ensures Configured(cfg, r.queue) && r.planId == s.planId && r.state != RUNNING
  {
    if death == None then Advanced(cfg, plan, s, env)
    else Reloaded(DiedAfter(cfg, plan, s, env, death.value.turns, death.value.cut))
  }

  function After(cfg: Config, s: Snapshot, op: Op): (r: Snapshot)
    requires Configured(cfg, s.queue)
    ensures Configured(cfg, r.queue) && (s.state != RUNNING ==> r.state != RUNNING)
  {
    match op
    case Start(planId, mode, env, death) =>
      if StartRefusal(cfg, s, planId, mode).Some? then s
      else Ran(cfg, cfg.plans[planId], Launched(planId, cfg.plans[planId], mode), env, death)
    case Resume(mode, env, death) =>
      if ResumeRefusal(cfg, s, mode).Some? then s else Ran(cfg, cfg.plans[s.planId.value], Reopened(s, mode), env, death)
    case Stop => StopAsked(s)
    case Restart => Reloaded(s)
  }

  /** Without a death these are the scheduler's operations. */
  lemma OpsAreTheScheduler(cfg: Config, s: Snapshot, op: Op)
    requires Configured(cfg, s.queue)
    ensures op.Start? && op.death == None ==> After(cfg, s, op) == Started(cfg, s, op.planId, op.startMode, op.answers)
    ensures op.Resume? && op.death == None ==> After(cfg, s, op) == Resumed(cfg, s, op.resumeMode, op.answers)
  {
    hide Advanced, DiedAfter;
  }

  function AfterAll(cfg: Config, ops: seq<Op>): (r: Snapshot)
    ensures Configured(cfg, r.queue) && r.state != RUNNING
  {
    if ops == [] then FRESH else After(cfg, AfterAll(cfg, ops[..|ops| - 1]), ops[|ops| - 1])
  }

  // ----- limits -----

  /** The snapshot of a started Day keeps to the limits of the plan it was started with. */
  predicate KeepsToPlan(cfg: Config, s: Snapshot, capped: bool) {
    s.planId.Some? ==> s.planId.value in cfg.plans && Bounded(cfg.plans[s.planId.value], s, capped)
  }

  ghost predicate Capped(ops: seq<Op>) {
    forall i :: 0 <= i < |ops| && (ops[i].Start? || ops[i].Resume?) ==> HonoursCap(ops[i].answers)
  }

  lemma LaunchedIsTallied(cfg: Config, planId: string, plan: Plan, mode: Mode)
    requires TasksKnown(cfg, plan.taskIds)
    ensures var s := Launched(planId, plan, mode);
            && Configured(cfg, s.queue) && Tallied(s) && Honest(s) && Sound(s) && (DistinctTasks(plan) ==> Clean(s.queue))
  {
    hide Successes, Failures;
    NothingCounted(QueueOf(plan.taskIds));
    NoneDone(|plan.taskIds|);
    if plan.taskIds != [] { assert QueueOf(plan.taskIds)[0].state == Pending; }
  }

  lemma NoneDone(total: nat)
    ensures Percent(0, total) == 0
  {
    if total > 0 { DivideExactly(0, 0, total); }
  }

  lemma LaunchedIsBounded(planId: string, plan: Plan, mode: Mode, capped: bool)
    ensures Bounded(plan, Launched(planId, plan, mode), capped)
  {
    hide NoRoleUsage, NoProfileUsage;
  }

  lemma LaunchedIsConserved(planId: string, plan: Plan, mode: Mode, split: bool)
    ensures Conserved(Launched(planId, plan, mode), split)
  {
    hide Balanced, NoRoleUsage, NoProfileUsage;
    NothingBalances(split);
  }

  lemma LaunchedNamesItsPlan(planId: string, plan: Plan, mode: Mode)
    ensures Launched(planId, plan, mode).planId == Some(planId)
  {
  }

  lemma RunStaysInLimits(cfg: Config, plan: Plan, s: Snapshot, env: Env, death: Option<Death>, capped: bool)
    requires Configured(cfg, s.queue) && Bounded(plan, s, capped) && (capped ==> HonoursCap(env))
    ensures Bounded(plan, Ran(cfg, plan, s, env, death), capped)
  {
    hide Advanced, DiedAfter, HonoursCap, LoopsBounded;
    if death == None {
      AdvancedStaysBounded(cfg, plan, s, env, capped);
    } else {
      DiedStaysBounded(cfg, plan, s, env, death.value.turns, death.value.cut, capped);
    }
  }

  lemma OpKeepsToPlan(cfg: Config, s: Snapshot, op: Op, capped: bool)
    requires Configured(cfg, s.queue) && KeepsToPlan(cfg, s, capped)
    requires capped && (op.Start? || op.Resume?) ==> HonoursCap(op.answers)
    ensures KeepsToPlan(cfg, After(cfg, s, op), capped)
  {
    hide Ran, Launched, HonoursCap, Configured, LoopsBounded, Tallied, Clean, TasksKnown;
    match op
    case Start(planId, mode, env, death) =>
      if StartRefusal(cfg, s, planId, mode) == None {
        var plan := cfg.plans[planId];
        LaunchedIsBounded(planId, plan, mode, capped);
        LaunchedIsTallied(cfg, planId, plan, mode);
        assert Launched(planId, plan, mode).planId == Some(planId) by { LaunchedNamesItsPlan(planId, plan, mode); }
        RunStaysInLimits(cfg, plan, Launched(planId, plan, mode), env, death, capped);
      }
    case Resume(mode, env, death) =>
      if ResumeRefusal(cfg, s, mode) == None {
        RunStaysInLimits(cfg, cfg.plans[s.planId.value], Reopened(s, mode), env, death, capped);
      }
    case Stop =>
    case Restart =>
  }

  /**
   * Over any history the architect, evaluator, task, retry and replan counters and every item's repair loops
   * stay within the limits of the Day's plan, and so do Codex calls when every executor honours its cap.
   */
  lemma {:induction false} RunsKeepToPlan(cfg: Config, ops: seq<Op>, capped: bool)
    requires capped ==> Capped(ops)
    ensures KeepsToPlan(cfg, AfterAll(cfg, ops), capped)
  {
    hide Bounded, After, HonoursCap, Configured;
    if ops != [] {
      var before := ops[..|ops| - 1];
      RunsKeepToPlan(cfg, before, capped);
      OpKeepsToPlan(cfg, AfterAll(cfg, before), ops[|ops| - 1], capped);
    }
  }

  // ----- the queue -----

  predicate DistinctTasks(plan: Plan) {
    && (forall i :: 0 <= i < |plan.taskIds| ==> plan.taskIds[i] != SYSTEM)
    && forall i, j :: 0 <= i < j < |plan.taskIds| ==> plan.taskIds[i] != plan.taskIds[j]
  }

  predicate DistinctPlans(cfg: Config) {
    forall id :: id in cfg.plans ==> DistinctTasks(cfg.plans[id])
  }

  /** An operation that starts no new Day. */
  predicate SameDay(cfg: Config, s: Snapshot, op: Op) {
    op.Start? ==> StartRefusal(cfg, s, op.planId, op.startMode).Some?
  }

  lemma OpKeepsTallies(cfg: Config, s: Snapshot, op: Op)
    requires Configured(cfg, s.queue) && DistinctPlans(cfg) && Clean(s.queue) && Tallied(s) && Sound(s)
    ensures var t := After(cfg, s, op);
            && Clean(t.queue) && Tallied(t) && Sound(t)
            && (SameDay(cfg, s, op) ==> KeepsSettled(s.queue, t.queue) && s.progress <= t.progress)
  {
    hide Ran, Launched, Configured, Clean, TasksKnown, Successes, Failures, Percent, SameTasks, DistinctTasks, Tallied, Sound;
    match op
    case Start(planId, mode, env, death) =>
      if StartRefusal(cfg, s, planId, mode) == None {
        LaunchedIsTallied(cfg, planId, cfg.plans[planId], mode);
        RunKeepsTallies(cfg, cfg.plans[planId], Launched(planId, cfg.plans[planId], mode), env, death);
      }
    case Resume(mode, env, death) =>
      if ResumeRefusal(cfg, s, mode) == None {
        SameTallies(s, Reopened(s, mode));
        RunKeepsTallies(cfg, cfg.plans[s.planId.value], Reopened(s, mode), env, death);
      }
    case Stop => SameTallies(s, StopAsked(s));
    case Restart => SameTallies(s, Reloaded(s));
  }

  lemma SameTallies(s: Snapshot, t: Snapshot)
    requires Tallied(s) && t.queue == s.queue && t.progress == s.progress && t.failedTasks == s.failedTasks
    requires Sound(s) && (t.state == COMPLETE ==> s.state == COMPLETE)
    ensures Tallied(t) && Sound(t) && KeepsSettled(s.queue, t.queue)
  {
  }

  lemma RunKeepsTallies(cfg: Config, plan: Plan, s: Snapshot, env: Env, death: Option<Death>)
    requires Configured(cfg, s.queue) && Clean(s.queue) && Tallied(s) && Sound(s)
    ensures var t := Ran(cfg, plan, s, env, death);
            Clean(t.queue) && Tallied(t) && Sound(t) && KeepsSettled(s.queue, t.queue) && s.progress <= t.progress
  {
    hide Advanced, DiedAfter, Configured, Clean, Tallied, Sound, SameTasks, KeepsSettled;
    if death == None {
      AdvancedKeepsSettled(cfg, plan, s, env);
      CleanStaysClean(s.queue, Advanced(cfg, plan, s, env).queue);
      ProgressGrows(s, Advanced(cfg, plan, s, env));
    } else {
      var saved := DiedAfter(cfg, plan, s, env, death.value.turns, death.value.cut);
      DiedKeepsSettled(cfg, plan, s, env, death.value.turns, death.value.cut);
      CleanStaysClean(s.queue, saved.queue);
      ProgressGrows(s, saved);
      SameTallies(saved, Reloaded(saved));
    }
  }

  lemma ProgressGrows(s: Snapshot, t: Snapshot)
    requires Tallied(s) && Tallied(t) && KeepsSettled(s.queue, t.queue)
    ensures s.progress <= t.progress
  {
    hide Successes, Failures, RoundHalfEven;
    SettledCountsGrow(s.queue, t.queue);
    if |s.queue| > 0 {
      RoundingIsMonotone(Successes(s.queue) * 10000, Successes(t.queue) * 10000, |s.queue|);
    }
  }

  lemma NothingTallied()
    ensures Clean(FRESH.queue) && Tallied(FRESH) && Sound(FRESH)
  {
    NothingCounted([]);
  }

  /**
   * Over any history the failure count is the number of failed items, progress is the share of successes, and
   * every item of a COMPLETE Day succeeded.
   */
  lemma {:induction false} RunsKeepTallies(cfg: Config, ops: seq<Op>)
    requires DistinctPlans(cfg)
    ensures var s := AfterAll(cfg, ops); Clean(s.queue) && Tallied(s) && Sound(s)
  {
    hide After, Clean, Configured, Successes, Failures, AllSuccessful, DistinctPlans;
    if ops == [] {
      NothingTallied();
    } else {
      var before := ops[..|ops| - 1];
      RunsKeepTallies(cfg, before);
      OpKeepsTallies(cfg, AfterAll(cfg, before), ops[|ops| - 1]);
    }
  }

  /** The operations from `k` on start no new Day. */
  predicate OneDayFrom(cfg: Config, ops: seq<Op>, k: nat)
    requires k <= |ops|
  {
    forall i :: k <= i < |ops| ==> SameDay(cfg, AfterAll(cfg, ops[..i]), ops[i])
  }

  /** However a Day goes on, an item that succeeded or failed stays exactly as it was, and progress never falls. */
  lemma {:induction false} SettledForTheDay(cfg: Config, ops: seq<Op>, k: nat)
    requires DistinctPlans(cfg) && k <= |ops| && OneDayFrom(cfg, ops, k)
    ensures var s, t := AfterAll(cfg, ops[..k]), AfterAll(cfg, ops);
            KeepsSettled(s.queue, t.queue) && s.progress <= t.progress
    decreases |ops|
  {
    hide After, Clean, Tallied, Sound, Configured, SameDay, DistinctPlans;
    if k == |ops| {
      assert ops[..k] == ops;
    } else {
      var n := |ops| - 1;
      var before := ops[..n];
      assert before[..k] == ops[..k];
      assert forall i :: k <= i < n ==> before[..i] == ops[..i];
      SettledForTheDay(cfg, before, k);
      RunsKeepTallies(cfg, before);
      OpKeepsTallies(cfg, AfterAll(cfg, before), ops[n]);
    }
  }

  /** In every reachable state of a queue under 20,000 tasks, progress reads 100.00 exactly when every item succeeded. */
  lemma FullProgressMeansSuccess(cfg: Config, ops: seq<Op>)
    requires DistinctPlans(cfg)
    ensures var s := AfterAll(cfg, ops);
            0 < |s.queue| < 20000 ==> (s.progress == 10000 <==> AllSuccessful(s.queue))
  {
    hide AfterAll, Percent;
    var s := AfterAll(cfg, ops);
    RunsKeepTallies(cfg, ops);
    AllCounted(s.queue);
    if 0 < |s.queue| < 20000 { FullProgressIsExact(|s.queue|); }
  }

  // ----- tokens -----

  ghost predicate Reporting(ops: seq<Op>, split: bool) {
    forall i :: 0 <= i < |ops| && (ops[i].Start? || ops[i].Resume?) ==>
                  RoutesFirst(ops[i].answers) && (split ==> SplitReports(ops[i].answers))
  }

  lemma RunKeepsTokens(cfg: Config, plan: Plan, s: Snapshot, env: Env, death: Option<Death>, split: bool)
    requires Configured(cfg, s.queue)
    requires cfg.router.Some? && Conserved(s, split) && RoutesFirst(env) && (split ==> SplitReports(env))
    ensures Conserved(Ran(cfg, plan, s, env, death), split)
  {
    hide Advanced, DiedAfter, RoutesFirst, SplitReports, Balanced;
    if death == None {
      AdvancedKeepsBalance(cfg, plan, s, env, split);
    } else {
      DiedKeepsBalance(cfg, plan, s, env, death.value.turns, death.value.cut, split);
    }
  }

  lemma OpKeepsBalance(cfg: Config, s: Snapshot, op: Op, split: bool)
    requires Configured(cfg, s.queue) && cfg.router.Some? && Conserved(s, split)
    requires op.Start? || op.Resume? ==> RoutesFirst(op.answers) && (split ==> SplitReports(op.answers))
    ensures Conserved(After(cfg, s, op), split)
  {
    hide Ran, Launched, Configured, RoutesFirst, SplitReports, TasksKnown, Tallied, Clean, Bounded, Balanced;
    match op
    case Start(planId, mode, env, death) =>
      if StartRefusal(cfg, s, planId, mode) == None {
        var plan := cfg.plans[planId];
        LaunchedIsConserved(planId, plan, mode, split);
        LaunchedIsTallied(cfg, planId, plan, mode);
        RunKeepsTokens(cfg, plan, Launched(planId, plan, mode), env, death, split);
      }
    case Resume(mode, env, death) =>
      if ResumeRefusal(cfg, s, mode) == None {
        RunKeepsTokens(cfg, cfg.plans[s.planId.value], Reopened(s, mode), env, death, split);
      }
    case Stop =>
    case Restart =>
  }

  lemma NothingConserved(split: bool)
    ensures Conserved(FRESH, split)
  {
    hide Balanced, NoRoleUsage, NoProfileUsage;
    NothingBalances(split);
  }

  /**
   * With a router and executors that report tokens only after routing Codex, the tokens charged to profiles
   * and those charged to roles have the same totals in every reachable state.
   */
  lemma {:induction false} TokensAreConserved(cfg: Config, ops: seq<Op>, split: bool)
    requires cfg.router.Some? && Reporting(ops, split)
    ensures Conserved(AfterAll(cfg, ops), split)
  {
    hide After, Configured, RoutesFirst, SplitReports, Conserved;
    if ops == [] {
      NothingConserved(split);
    } else {
      var before := ops[..|ops| - 1];
      TokensAreConserved(cfg, before, split);
      OpKeepsBalance(cfg, AfterAll(cfg, before), ops[|ops| - 1], split);
    }
  }

  // ----- a task named like the scheduler -----

  const ANY_BUDGET := Budget(100, 100, 10)
  const ANY_PROFILE := Profile(Mock, 0, 0, 0, map[])
  const OPEN_PLAN := Plan(["SYSTEM", "b"], Mock, Mock, true, 10, 10, 10, 10, 1, 1, Policy({STANDARD}, false, 2), 0, 0)
  const NAMED_LIKE_SYSTEM := Config(
    map["plan" := OPEN_PLAN], map["SYSTEM" := Task(false, false), "b" := Task(false, false)],
    Some(Registry(ANY_PROFILE, ANY_PROFILE, ANY_PROFILE)), {Mock}, {Mock}, ANY_BUDGET, ANY_BUDGET, None)

  /** The router always gives the architect the standard profile. */
  lemma ArchitectIsRouted(roles: RoleUsage)
    ensures DecisionFor(NAMED_LIKE_SYSTEM, OPEN_PLAN, roles, ARCHITECT, Mock, NORMAL, None) == Selected(ARCHITECT, Some(STANDARD), Mock, None, 1)
  {
    hide RemainingFor;
    var r := RemainingFor(NAMED_LIKE_SYSTEM, roles, ARCHITECT);
    assert WithinBudget(ANY_PROFILE, r);
  }

  function Skips(): Env {
    Env(n => if n == 0 then Chose(SkipTask, Some("SYSTEM"), Usage(1, 0, 1)) else ArchitectError(false),
        _ => EvaluatorError, (_, _) => 0, (_, _, _, _) => TaskResult(FinalOther, false, 0, NoUsage, false))
  }

  const OTHER_TASK := Item("b", Pending, 0, 0)
  const HALF_DONE := [Item("SYSTEM", Skipped, 0, 0), OTHER_TASK]

  lemma HalfIsDone()
    ensures Percent(Successes(HALF_DONE), 2) == 5000 && !AllSuccessful(HALF_DONE)
  {
    assert HALF_DONE[..1] == [HALF_DONE[0]] && HALF_DONE[..1][..0] == [];
    assert Successes(HALF_DONE[..1]) == 1;
    assert HALF_DONE[1] == OTHER_TASK;
    DivideExactly(5000, 0, 2);
  }

  lemma SkippingEndsTheItem(s: Snapshot)
    requires s.queue == [Item("SYSTEM", Pending, 0, 0), OTHER_TASK] && s.failedTasks == 0
    ensures var t := Ended(OPEN_PLAN, s, 0, Skipped);
            t == s.(queue := HALF_DONE, tasksProcessed := s.tasksProcessed + 1, progress := 5000)
  {
    hide Percent, Successes, AllSuccessful;
    HalfIsDone();
    assert WithItem(s.queue, 0, Skipped) == HALF_DONE;
  }

  lemma FirstTurnSkips(s: Snapshot)
    requires s.queue == [Item("SYSTEM", Pending, 0, 0), OTHER_TASK] && s.failedTasks == 0 && s.architectCalls == 0
    requires s.roles.architect.input < 10 && s.roles.architect.output < 10
    ensures Configured(NAMED_LIKE_SYSTEM, s.queue)
    ensures var t := Processed(NAMED_LIKE_SYSTEM, OPEN_PLAN, s, Skips());
            && t.queue == HALF_DONE && t.state == s.state && t.progress == 5000 && t.planId == s.planId
            && t.architectCalls == 1 && t.roles.architect.input < 11 && t.roles.architect.output < 11
  {
    hide DecisionFor, Executed, Evaluated, Ended, AllSuccessful, Percent, Successes, Charged;
    ArchitectIsRouted(s.roles);
    var d := Selected(ARCHITECT, Some(STANDARD), Mock, None, 1);
    var used := ChargedTo(Used(s.(architectCalls := 1), ARCHITECT, Usage(1, 0, 1)), d, Usage(1, 0, 1));
    SkippingEndsTheItem(used);
    assert EligibleFrom(used.queue, Some("SYSTEM"), 0) == Some(0);
  }

  lemma SystemTaskIsSkipped()
    ensures var s := Started(NAMED_LIKE_SYSTEM, FRESH, "plan", SingleStep, Skips());
            s.queue == HALF_DONE && s.state == PAUSED && s.progress == 5000 && s.planId == Some("plan")
            && s.architectCalls == 1 && s.roles.architect.input < 11 && s.roles.architect.output < 11
  {
    hide Processed, AllSuccessful, Percent, Successes, Skips;
    var s := Launched("plan", OPEN_PLAN, SingleStep);
    assert s.queue == [Item("SYSTEM", Pending, 0, 0), OTHER_TASK];
    FirstTurnSkips(s);
    HalfIsDone();
  }

  /** A plan with a task called SYSTEM: the scheduler's own review takes the skipped task back. */
  lemma SystemTaskIsRewritten()
    ensures var first := Started(NAMED_LIKE_SYSTEM, FRESH, "plan", SingleStep, Skips());
            && Configured(NAMED_LIKE_SYSTEM, first.queue) && |first.queue| == 2 && first.queue[0].state == Skipped
            && var second := Resumed(NAMED_LIKE_SYSTEM, first, None, Skips());
               |second.queue| == 2 && second.queue[0].state == HumanReview && second.progress == 5000
  {
    hide DecisionFor, Executed, Evaluated, Started, Followed, Percent, Successes, Charged;
    SystemTaskIsSkipped();
    var s := Started(NAMED_LIKE_SYSTEM, FRESH, "plan", SingleStep, Skips());
    ArchitectIsRouted(s.roles);
    assert Configured(NAMED_LIKE_SYSTEM, s.queue);
    var t := Reviewed(Reopened(s, None).(architectCalls := 2), SYSTEM, ProviderError(ARCHITECT));
    assert Processed(NAMED_LIKE_SYSTEM, OPEN_PLAN, Reopened(s, None), Skips()) == t;
  }
}
