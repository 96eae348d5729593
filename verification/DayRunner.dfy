/** The scheduler as it runs: its snapshot changes in place, as `DaySchedule` says. */
module DayRunner {
  import opened Prelude
  import opened TokenUsage
  import opened ModelRouter
  import opened DaySchedule

  class DayRunner {
    const cfg: Config
    var snapshot: Snapshot

    predicate Valid() reads this { Configured(cfg, snapshot.queue) }

    /** A new process: a snapshot saved while running is paused. */
    constructor (cfg: Config, saved: Snapshot)
      requires Configured(cfg, saved.queue)
      ensures Valid() && this.cfg == cfg && snapshot == Reloaded(saved)
    {
      this.cfg := cfg;
      snapshot := if saved.state == RUNNING then saved.(state := PAUSED, stopReason := Some(Interrupted)) else saved;
    }

    method Start(planId: string, mode: Mode, env: Env) returns (refusal: Option<Refusal>)
      requires Valid()
      modifies this
      ensures Valid() && refusal == StartRefusal(cfg, old(snapshot), planId, mode)
      ensures snapshot == Started(cfg, old(snapshot), planId, mode, env)
    {
      hide Advanced;
      if planId !in cfg.plans { return Some(PlanNotConfigured); }
      var plan := cfg.plans[planId];
      if mode == Continuous && !plan.continuousSupported { return Some(ContinuousNotSupported); }
      if snapshot.state == RUNNING || snapshot.state == PAUSED || snapshot.state == HUMAN_REVIEW { return Some(ActiveDay); }
      var queue: seq<Item> := [];
      for k := 0 to |plan.taskIds|
        invariant |queue| == k && TasksKnown(cfg, plan.taskIds[..k]) && queue == QueueOf(plan.taskIds[..k])
        invariant snapshot == old(snapshot)
      {
        if plan.taskIds[k] !in cfg.tasks { return Some(TaskNotConfigured); }
        queue := queue + [Item(plan.taskIds[k], Pending, 0, 0)];
      }
      assert plan.taskIds[..|plan.taskIds|] == plan.taskIds;
      snapshot := FRESH.(planId := Some(planId), state := RUNNING, mode := mode, queue := queue);
      Advance(plan, env);
      return None;
    }

    method Resume(mode: Option<Mode>, env: Env) returns (refusal: Option<Refusal>)
      requires Valid()
      modifies this
      ensures Valid() && refusal == ResumeRefusal(cfg, old(snapshot), mode)
      ensures snapshot == Resumed(cfg, old(snapshot), mode, env)
    {
      hide Advanced;
      if snapshot.planId == None || snapshot.planId.value !in cfg.plans { return Some(NoDayPlan); }
      var plan := cfg.plans[snapshot.planId.value];
      var selected := if mode.Some? then mode.value else snapshot.mode;
      if selected == Continuous && !plan.continuousSupported { return Some(ContinuousNotSupported); }
      if snapshot.state != PAUSED && snapshot.state != STOPPED { return Some(NotResumable); }
      snapshot := snapshot.(state := RUNNING, stopReason := None, mode := selected, tasksProcessed := 0);
      Advance(plan, env);
      return None;
    }

    method Stop()
      modifies this
      ensures snapshot == StopAsked(old(snapshot))
    {
      if snapshot.state == RUNNING || snapshot.state == PAUSED { Halt(StopRequested); }
    }

    method Advance(plan: Plan, env: Env)
      requires Valid()
      modifies this
      ensures Valid() && snapshot == Advanced(cfg, plan, old(snapshot), env)
    {
      hide Processed;
      while snapshot.state == RUNNING
        invariant Valid() && Advanced(cfg, plan, snapshot, env) == Advanced(cfg, plan, old(snapshot), env)
        decreases snapshot.state == RUNNING, Minus(plan.maxArchitect, snapshot.architectCalls)
      {
        if snapshot.tasksProcessed >= plan.maxTasks {
          Halt(MaxTasksPerRun);
          break;
        }
        ProcessOne(plan, env);
        if snapshot.mode == SingleStep && snapshot.state == RUNNING {
          var done := AllItemsSuccessful();
          if done {
            Complete();
          } else {
            snapshot := snapshot.(state := PAUSED, stopReason := Some(SingleStepComplete));
          }
          break;
        }
      }
    }

    method ProcessOne(plan: Plan, env: Env)
      requires Valid()
      modifies this
      ensures Valid() && snapshot == Processed(cfg, plan, old(snapshot), env)
    {
      hide DecisionFor, Executed, EligibleFrom, Ended, Reviewed, Charged, AllSuccessful;
      if snapshot.architectCalls >= plan.maxArchitect {
        Halt(MaxArchitectCalls);
        return;
      }
      if !WithinProviderBudget(cfg.architectBudget, snapshot.roles.architect, snapshot.architectCalls) {
        Halt(BudgetGuard(ARCHITECT));
        return;
      }
      var d := SelectProfile(plan, ARCHITECT, plan.architect, NORMAL, None);
      if d.Review? { return; }
      if plan.architect !in cfg.architects {
        AskForReview(SYSTEM, ProviderNotConfigured(ARCHITECT));
        return;
      }
      var answer := env.architect(snapshot.architectCalls);
      snapshot := snapshot.(architectCalls := snapshot.architectCalls + 1);
      if answer.ArchitectError? {
        if answer.retryable && snapshot.retries < plan.maxRetries {
          snapshot := snapshot.(retries := snapshot.retries + 1);
        } else {
          AskForReview(SYSTEM, ProviderError(ARCHITECT));
        }
        return;
      }
      AddUsage(ARCHITECT, answer.usage, d);
      Follow(plan, answer.choice, answer.taskId, env);
    }

    method Follow(plan: Plan, choice: Choice, id: Option<TaskId>, env: Env)
      requires Valid()
      modifies this
      ensures Valid() && snapshot == Followed(cfg, plan, old(snapshot), choice, id, env)
    {
      hide Executed, EligibleFrom, Ended, Reviewed, AllSuccessful;
      if choice.StopDay? {
        Halt(ArchitectStops);
        return;
      }
      if choice.DayComplete? {
        var done := AllItemsSuccessful();
        if done { Complete(); } else { RequestReplan(plan, PrematureComplete); }
        return;
      }
      var item := EligibleItem(id);
      if item == None {
        RequestReplan(plan, InvalidTask);
        return;
      }
      match choice
      case AskHuman => AskForReview(id.value, ArchitectAsks);
      case SkipTask => EndItem(plan, item.value, Skipped);
      case RunTask(complexity) => ExecuteOne(plan, item.value, complexity, None, env);
    }

    method ExecuteOne(plan: Plan, i: nat, complexity: Complexity, failure: Option<Failure>, env: Env)
      requires Valid() && i < |snapshot.queue|
      modifies this
      ensures Valid() && snapshot == Executed(cfg, plan, old(snapshot), i, complexity, failure, env)
      decreases RepairsLeft(plan, snapshot.queue, i), 1
    {
      hide RunOf, Charging, Ended, Reviewed, Evaluated;
      var id := snapshot.queue[i].taskId;
      var task := cfg.tasks[id];
      if task.requiresCodex && plan.maxCodex - snapshot.codexCalls <= 0 {
        Halt(MaxCodexCalls);
        return;
      }
      var result, routes := RunExecutor(plan, i, complexity, failure, env);
      if result.invoked && routes == [] {
        AskForReview(id, RoutingMissing);
        return;
      }
      ChargeLast(result, routes);
      match result.final
      case FinalNoChange => EndItem(plan, i, CompleteNoChange);
      case FinalComplete =>
        if task.independentEvaluator {
          EvaluateSemantic(plan, i, result.guardFailed, env);
        } else {
          EndItem(plan, i, Pass);
        }
      case FinalReview => AskForReview(id, TaskAsks);
      case FinalOther => EndItem(plan, i, Failed);
    }
 
    /** Starts an attempt, lets the executor ask for profiles, and counts the calls and tokens it reports. */
    method RunExecutor(plan: Plan, i: nat, complexity: Complexity, failure: Option<Failure>, env: Env)
      returns (result: TaskResult, routes: seq<Decision>)
      requires Valid() && i < |snapshot.queue|
      modifies this
      ensures Valid() && Run(snapshot, result, routes) == RunOf(cfg, plan, old(snapshot), i, complexity, failure, env)
    {
      hide DecisionFor, Routed, RoutesKeepLoops, RepairsLeft;
      ghost var d := DecisionFor(cfg, plan, snapshot.roles, CODEX, Codex, complexity, failure);
      var item := snapshot.queue[i];
      var cap := plan.maxCodex - snapshot.codexCalls;
      snapshot := snapshot.(queue := snapshot.queue[i := item.(state := Executing, attempts := item.attempts + 1)]);
      routes := [];
      for k := 0 to env.routes(i, item.attempts)
        invariant snapshot == CodexRouted(Begun(old(snapshot), i), d, k) && routes == RoutesOf(d, k)
      {
        var answer := SelectProfile(plan, CODEX, Codex, complexity, failure);
        if answer.Selected? { routes := routes + [answer]; }
      }
      result := env.result(i, item.attempts, cap, routes);
      snapshot := snapshot.(codexCalls := snapshot.codexCalls + result.attempts);
      snapshot := snapshot.(roles := snapshot.roles.Plus(CODEX, result.usage));
    }

    method ChargeLast(result: TaskResult, routes: seq<Decision>)
      modifies this
      ensures snapshot == Charging(Run(old(snapshot), result, routes))
    {
      if result.invoked && routes != [] {
        var d := routes[|routes| - 1];
        if d.Selected? && d.profile.Some? {
          snapshot := snapshot.(profiles := Charged(snapshot.profiles, d.profile.value, result.usage));
        }
      }
    }

    method EvaluateSemantic(plan: Plan, i: nat, guardFailed: bool, env: Env)
      requires Valid() && i < |snapshot.queue|
      modifies this
      ensures Valid() && snapshot == Evaluated(cfg, plan, old(snapshot), i, guardFailed, env)
      decreases RepairsLeft(plan, snapshot.queue, i), 0
    {
      hide DecisionFor, Ended, Reviewed, Executed, Charged;
      var id := snapshot.queue[i].taskId;
      if guardFailed {
        AskForReview(id, SafetyFailure);
        return;
      }
      if snapshot.evaluatorCalls >= plan.maxEvaluator {
        Halt(MaxEvaluatorCalls);
        return;
      }
      if !WithinProviderBudget(cfg.evaluatorBudget, snapshot.roles.evaluator, snapshot.evaluatorCalls) {
        Halt(BudgetGuard(EVALUATOR));
        return;
      }
      var d := SelectProfile(plan, EVALUATOR, plan.evaluator, NORMAL, None);
      if d.Review? { return; }
      if plan.evaluator !in cfg.evaluators {
        AskForReview(id, ProviderNotConfigured(EVALUATOR));
        return;
      }
      var answer := env.evaluator(snapshot.evaluatorCalls);
      snapshot := snapshot.(evaluatorCalls := snapshot.evaluatorCalls + 1);
      if answer.EvaluatorError? {
        AskForReview(id, ProviderError(EVALUATOR));
        return;
      }
      AddUsage(EVALUATOR, answer.usage, d);
      if answer.verdict == Accept {
        EndItem(plan, i, Pass);
      } else if answer.verdict == Repair && snapshot.queue[i].repairLoops < plan.maxRepairLoops {
        var item := snapshot.queue[i];
        snapshot := snapshot.(queue := snapshot.queue[i := item.(state := RepairPending, repairLoops := item.repairLoops + 1)]);
        ExecuteOne(plan, i, NORMAL, Some(REASONING), env);
      } else {
        AskForReview(id, EvaluationAsks);
      }
    }

    // ----- what the steps are made of -----

    /** A profile for one call; when there is none the Day goes to review. */
    method SelectProfile(plan: Plan, role: Role, provider: Provider, complexity: Complexity, failure: Option<Failure>)
      returns (d: Decision)
      modifies this
      ensures d == DecisionFor(cfg, plan, old(snapshot).roles, role, provider, complexity, failure)
      ensures snapshot == Routed(old(snapshot), d)
    {
      hide Select;
      if cfg.router == None { return Selected(role, None, provider, None, 0); }
      var remaining := RemainingFor(cfg, snapshot.roles, role);
      d := Select(cfg.router.value, Request(role, provider, complexity, failure, remaining, plan.policy));
      if d.Review? { AskForReview(SYSTEM, NotRouted(d.reason)); }
    }

    method AddUsage(role: Role, u: Usage, d: Decision)
      modifies this
      ensures snapshot == ChargedTo(Used(old(snapshot), role, u), d, u)
    {
      snapshot := snapshot.(roles := snapshot.roles.Plus(role, u));
      if d.Selected? && d.profile.Some? {
        snapshot := snapshot.(profiles := Charged(snapshot.profiles, d.profile.value, u));
      }
    }

    method EligibleItem(id: Option<TaskId>) returns (found: Option<nat>)
      ensures found == EligibleFrom(snapshot.queue, id, 0)
    {
      for k := 0 to |snapshot.queue|
        invariant EligibleFrom(snapshot.queue, id, 0) == EligibleFrom(snapshot.queue, id, k)
      {
        if Some(snapshot.queue[k].taskId) == id && snapshot.queue[k].state.Eligible() { return Some(k); }
      }
      return None;
    }

    method AllItemsSuccessful() returns (all: bool)
      ensures all == AllSuccessful(snapshot.queue)
    {
      for k := 0 to |snapshot.queue|
        invariant forall j :: 0 <= j < k ==> snapshot.queue[j].state.Successful()
      {
        if !snapshot.queue[k].state.Successful() { return false; }
      }
      return snapshot.queue != [];
    }

    method UpdateProgress()
      modifies this
      ensures snapshot == Progressed(old(snapshot))
    {
      hide RoundHalfEven;
      var queue, complete := snapshot.queue, 0;
      for k := 0 to |queue|
        invariant complete == Successes(queue[..k]) && snapshot == old(snapshot)
      {
        assert queue[..k + 1][..k] == queue[..k];
        if queue[k].state.Successful() { complete := complete + 1; }
      }
      assert queue[..|queue|] == queue;
      var progress: nat := if |queue| == 0 then 0 else RoundHalfEven(complete * 10000, |queue|);
      snapshot := snapshot.(progress := progress);
    }

    /** Settles an item, brings progress up to date, and ends the Day if it is over. */
    method EndItem(plan: Plan, i: nat, state: ItemState)
      requires Valid() && i < |snapshot.queue|
      modifies this
      ensures Valid() && snapshot == Ended(plan, old(snapshot), i, state)
    {
      hide Successes, Percent, AllSuccessful;
      snapshot := snapshot.(queue := snapshot.queue[i := snapshot.queue[i].(state := state)]);
      if state == Failed { snapshot := snapshot.(failedTasks := snapshot.failedTasks + 1); }
      snapshot := snapshot.(tasksProcessed := snapshot.tasksProcessed + 1);
      UpdateProgress();
      if snapshot.failedTasks > plan.maxFailed {
        Halt(MaxFailedTasks);
        return;
      }
      var done := AllItemsSuccessful();
      if done { Complete(); }
    }

    method Complete()
      modifies this
      ensures snapshot == Completed(old(snapshot))
    {
      snapshot := snapshot.(state := COMPLETE, stopReason := Some(AllTasksTerminal));
      UpdateProgress();
    }

    method Halt(why: Reason)
      modifies this
      ensures snapshot == Stopped(old(snapshot), why)
    {
      snapshot := snapshot.(state := STOPPED, stopReason := Some(why));
    }

    method AskForReview(id: TaskId, why: Reason)
      modifies this
      ensures snapshot == Reviewed(old(snapshot), id, why)
    {
      var k := 0;
      while k < |snapshot.queue| && snapshot.queue[k].taskId != id
        invariant k <= |snapshot.queue| && IndexFrom(snapshot.queue, id, 0) == IndexFrom(snapshot.queue, id, k)
      {
        k := k + 1;
      }
      snapshot := snapshot.(queue := WithItem(snapshot.queue, k, HumanReview), reviews := snapshot.reviews + [(id, why)],
                            state := HUMAN_REVIEW, stopReason := Some(why));
    }

    method RequestReplan(plan: Plan, why: Reason)
      modifies this
      ensures snapshot == Replanned(plan, old(snapshot), why)
    {
      if snapshot.replans < plan.maxReplans {
        snapshot := snapshot.(replans := snapshot.replans + 1);
      } else {
        AskForReview(SYSTEM, why);
      }
    }
  }
}
