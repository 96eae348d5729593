/** What an attempt, a run and an operation of the scheduler end with, and that a Day in review stays in review. */
module ScheduleOutcome {
  import opened Prelude
  import opened TokenUsage
  import opened ModelRouter
  import opened DaySchedule
  import opened ScheduleQueue
  import opened ScheduleHistory

  // ----- attempts that do not end their item -----

  /** The item and the Day are in review for this reason; nothing else changed. */
  predicate ItemInReview(s: Snapshot, r: Snapshot, i: nat, why: Reason) {
    && i < |s.queue|
    && r == s.(queue := s.queue[i := s.queue[i].(state := HumanReview)], reviews := s.reviews + [(s.queue[i].taskId, why)],
               state := HUMAN_REVIEW, stopReason := Some(why))
  }

  predicate StoppedFor(s: Snapshot, r: Snapshot, why: Reason) { r == s.(state := STOPPED, stopReason := Some(why)) }

  /** The Day is in review under the scheduler's own name. */
  predicate DayInReview(s: Snapshot, r: Snapshot, why: Reason) {
    r == s.(reviews := s.reviews + [(SYSTEM, why)], state := HUMAN_REVIEW, stopReason := Some(why))
  }

  lemma ReviewIs(s: Snapshot, i: nat, why: Reason)
    requires Clean(s.queue) && i < |s.queue|
    ensures ItemInReview(s, Reviewed(s, s.queue[i].taskId, why), i, why) && DayInReview(s, Reviewed(s, SYSTEM, why), why)
  {
    hide Clean, IndexFrom, WithItem;
    ReviewTouchesItsItem(s, i, why);
    OwnReviewsTouchNoItem(s, why);
  }

  /**
   * An attempt without Codex calls left stops the Day before it begins; one whose calls were not routed, or whose
   * result asks for review, sends the item and the Day to review.
   */
  lemma AttemptOutcome(cfg: Config, plan: Plan, s: Snapshot, i: nat, complexity: Complexity, failure: Option<Failure>, env: Env)
    requires i < |s.queue| && Configured(cfg, s.queue) && Clean(s.queue) && Tallied(s) && OpenAt(s, i)
    ensures var r := Executed(cfg, plan, s, i, complexity, failure, env);
            var run := RunOf(cfg, plan, s, i, complexity, failure, env);
            if cfg.tasks[s.queue[i].taskId].requiresCodex && s.codexCalls >= plan.maxCodex then StoppedFor(s, r, MaxCodexCalls)
            else if run.result.invoked && run.routes == [] then ItemInReview(run.snapshot, r, i, RoutingMissing)
            else run.result.final == FinalReview ==> ItemInReview(Charging(run), r, i, TaskAsks)
  {
    hide RunOf, Charging, Reviewed, Ended, Evaluated, Clean, SameTasks, Configured, Tallied, Honest;
    RunIsSteady(cfg, plan, s, i, complexity, failure, env);
    assert s.queue[i].taskId in cfg.tasks by { ItemConfigured(cfg, s.queue, i); }
    var run := RunOf(cfg, plan, s, i, complexity, failure, env);
    var t := Charging(run);
    CleanStaysClean(s.queue, t.queue);
    CleanStaysClean(s.queue, run.snapshot.queue);
    SameTask(s.queue, t.queue, i);
    ReviewIs(run.snapshot, i, RoutingMissing);
    ReviewIs(t, i, TaskAsks);
  }

  /** What an evaluation that accepts nothing and starts no repair ends with. */
  lemma EvaluationOutcome(cfg: Config, plan: Plan, s: Snapshot, i: nat, guardFailed: bool, env: Env)
    requires i < |s.queue| && Configured(cfg, s.queue) && Clean(s.queue) && Tallied(s) && OpenAt(s, i)
    ensures var r := Evaluated(cfg, plan, s, i, guardFailed, env);
            var d := DecisionFor(cfg, plan, s.roles, EVALUATOR, plan.evaluator, NORMAL, None);
            var answer := env.evaluator(s.evaluatorCalls);
            if guardFailed then ItemInReview(s, r, i, SafetyFailure)
            else if s.evaluatorCalls >= plan.maxEvaluator then StoppedFor(s, r, MaxEvaluatorCalls)
            else if s.evaluatorCalls >= cfg.evaluatorBudget.calls || s.roles.evaluator.input >= cfg.evaluatorBudget.input
                    || s.roles.evaluator.output >= cfg.evaluatorBudget.output then StoppedFor(s, r, BudgetGuard(EVALUATOR))
            else if d.Review? then DayInReview(s, r, NotRouted(d.reason))
            else if plan.evaluator !in cfg.evaluators then ItemInReview(s, r, i, ProviderNotConfigured(EVALUATOR))
            else if answer.EvaluatorError? then ItemInReview(s.(evaluatorCalls := s.evaluatorCalls + 1), r, i, ProviderError(EVALUATOR))
            else answer.verdict == Refer || (answer.verdict == Repair && s.queue[i].repairLoops >= plan.maxRepairLoops) ==>
              ItemInReview(Called(cfg, plan, s, d, env), r, i, EvaluationAsks)
  {
    hide Reviewed, Ended, Executed, Clean, SameTasks, Configured, DecisionFor, Charged, RepairBegun, Tallied, Honest;
    var d := DecisionFor(cfg, plan, s.roles, EVALUATOR, plan.evaluator, NORMAL, None);
    ReviewIs(s, i, SafetyFailure);
    ReviewIs(s, i, ProviderNotConfigured(EVALUATOR));
    if d.Review? { ReviewIs(s, i, NotRouted(d.reason)); }
    ReviewIs(s.(evaluatorCalls := s.evaluatorCalls + 1), i, ProviderError(EVALUATOR));
    CallKeepsItem(cfg, plan, s, i, d, env);
    ReviewIs(Called(cfg, plan, s, d, env), i, EvaluationAsks);
  }

  /** The begun attempt and the calls and tokens it reported; the executor was given what is left of the Codex calls. */
  lemma RunCounts(cfg: Config, plan: Plan, s: Snapshot, i: nat, complexity: Complexity, failure: Option<Failure>, env: Env)
    requires i < |s.queue| && Clean(s.queue) && s.state == RUNNING
    ensures var run := RunOf(cfg, plan, s, i, complexity, failure, env);
            var d := DecisionFor(cfg, plan, s.roles, CODEX, Codex, complexity, failure);
            && run.result == env.result(i, s.queue[i].attempts, plan.maxCodex - s.codexCalls, run.routes)
            && |run.routes| == (if d.Selected? then env.routes(i, s.queue[i].attempts) else 0) && (forall x :: x in run.routes ==> x == d)
            && run.snapshot.queue == s.queue[i := s.queue[i].(state := Executing, attempts := s.queue[i].attempts + 1)]
            && run.snapshot.codexCalls == s.codexCalls + run.result.attempts
            && run.snapshot.roles == s.roles.(codex := s.roles.codex.Plus(run.result.usage))
            && (run.snapshot.state == RUNNING <==> d.Selected? || env.routes(i, s.queue[i].attempts) == 0)
  {
    hide DecisionFor, Clean, SameTasks, RoutesKeepLoops, RepairsLeft;
    var d := DecisionFor(cfg, plan, s.roles, CODEX, Codex, complexity, failure);
    var begun := Begun(s, i);
    UpdateKeepsTasks(s.queue, i, begun.queue[i]);
    CleanStaysClean(s.queue, begun.queue);
    RoutingTouchesNoItem(begun, d, env.routes(i, s.queue[i].attempts));
    RoutingGoesOn(begun, d, env.routes(i, s.queue[i].attempts));
  }

  lemma {:induction false} RoutingGoesOn(s: Snapshot, d: Decision, n: nat)
    requires s.state == RUNNING
    ensures CodexRouted(s, d, n).state == RUNNING <==> d.Selected? || n == 0
  {
    hide RoutesKeepLoops, SameTasks, IndexFrom;
    if n > 0 { RoutingGoesOn(s, d, n - 1); }
  }

  // ----- budgets -----

  /** `n` more fit next to what is used, or nothing is asked for. */
  predicate Fits(n: nat, used: nat, budget: nat) { n == 0 || used + n <= budget }

  /** With a router a call is placed exactly on a profile whose estimate still fits the role's budget and the Day's. */
  lemma RoutedWithinBudgets(cfg: Config, roles: RoleUsage, role: Role, p: Profile)
    ensures var codex := if cfg.codexBudget.Some? then cfg.codexBudget.value else Budget(0, 0, 0);
            var own := match role case ARCHITECT => cfg.architectBudget case EVALUATOR => cfg.evaluatorBudget case CODEX => codex;
            var used := match role case ARCHITECT => roles.architect case EVALUATOR => roles.evaluator case CODEX => roles.codex;
            WithinBudget(p, RemainingFor(cfg, roles, role)) <==>
              && Fits(p.input, used.input, own.input) && Fits(p.output, used.output, own.output)
              && Fits(p.input, roles.architect.input + roles.codex.input + roles.evaluator.input,
                      cfg.architectBudget.input + cfg.evaluatorBudget.input + codex.input)
              && Fits(p.output, roles.architect.output + roles.codex.output + roles.evaluator.output,
                      cfg.architectBudget.output + cfg.evaluatorBudget.output + codex.output)
  {
  }

  // ----- runs -----

  /** In single-step mode a run is one turn: a Day that would go on is COMPLETE if all succeeded, and PAUSED otherwise. */
  lemma SingleStepRun(cfg: Config, plan: Plan, s: Snapshot, env: Env)
    requires Configured(cfg, s.queue) && s.state == RUNNING && s.mode == SingleStep && s.tasksProcessed < plan.maxTasks
    ensures var t, r := Processed(cfg, plan, s, env), Advanced(cfg, plan, s, env);
            if t.state != RUNNING then r == t
            else if AllSuccessful(t.queue) then r.state == COMPLETE && r.stopReason == Some(AllTasksTerminal) && r.queue == t.queue
            else r == t.(state := PAUSED, stopReason := Some(SingleStepComplete))
  {
    hide Processed, AllSuccessful, Percent, Successes, Configured;
  }

  /** A run in continuous mode never pauses: it goes on until its tasks are spent, or a turn ends the Day. */
  lemma {:induction false} ContinuousRun(cfg: Config, plan: Plan, s: Snapshot, env: Env) returns (last: Snapshot)
    requires Configured(cfg, s.queue) && s.state == RUNNING && s.mode == Continuous
    ensures last.state == RUNNING && Configured(cfg, last.queue) && last.mode == Continuous
    ensures var r := Advanced(cfg, plan, s, env);
            if last.tasksProcessed >= plan.maxTasks then StoppedFor(last, r, MaxTasksPerRun)
            else r == Processed(cfg, plan, last, env) && r.state != RUNNING
    decreases Minus(plan.maxArchitect, s.architectCalls)
  {
    hide Processed, AllSuccessful, Percent, Successes, Configured;
    var t := Processed(cfg, plan, s, env);
    if s.tasksProcessed >= plan.maxTasks || t.state != RUNNING {
      last := s;
    } else {
      assert Configured(cfg, t.queue) by { ConfiguredStays(cfg, s.queue, t.queue); }
      last := ContinuousRun(cfg, plan, t, env);
    }
  }

  // ----- operations -----

  /** A Day begins with every task pending and nothing counted, used or charged. */
  lemma DayBeginsFresh(planId: string, plan: Plan, mode: Mode)
    ensures var l := Launched(planId, plan, mode);
            && l.planId == Some(planId) && l.state == RUNNING && l.mode == mode && |l.queue| == |plan.taskIds|
            && (forall i :: 0 <= i < |l.queue| ==> l.queue[i] == Item(plan.taskIds[i], Pending, 0, 0))
            && l.architectCalls == 0 && l.codexCalls == 0 && l.evaluatorCalls == 0 && l.tasksProcessed == 0 && l.failedTasks == 0
            && l.retries == 0 && l.replans == 0 && l.reviews == [] && l.stopReason == None && l.progress == 0
            && l.roles == NoRoleUsage && l.profiles == NoProfileUsage
  {
    hide NoRoleUsage, NoProfileUsage;
  }

  /** When a start is accepted, both ways; a refused one changes nothing. */
  lemma StartAccepted(cfg: Config, s: Snapshot, planId: string, mode: Mode, env: Env, death: Option<Death>)
    requires Configured(cfg, s.queue)
    ensures var accepted := && planId in cfg.plans && (mode == Continuous ==> cfg.plans[planId].continuousSupported)
                            && s.state in {IDLE, STOPPED, COMPLETE, FAILED}
                            && forall i :: 0 <= i < |cfg.plans[planId].taskIds| ==> cfg.plans[planId].taskIds[i] in cfg.tasks;
            && (StartRefusal(cfg, s, planId, mode) == None <==> accepted)
            && (accepted ==>
                  && Configured(cfg, Launched(planId, cfg.plans[planId], mode).queue)
                  && After(cfg, s, Start(planId, mode, env, death)) == Ran(cfg, cfg.plans[planId], Launched(planId, cfg.plans[planId], mode), env, death))
            && (!accepted ==> After(cfg, s, Start(planId, mode, env, death)) == s)
  {
    hide Ran, FRESH;
  }

  /** When a resume is accepted, both ways; it goes on with the Day as it was, but for the mode asked for and the run's task count. */
  lemma ResumeAccepted(cfg: Config, s: Snapshot, mode: Option<Mode>, env: Env, death: Option<Death>)
    requires Configured(cfg, s.queue)
    ensures var selected := match mode case Some(m) => m case None => s.mode;
            var accepted := && s.planId.Some? && s.planId.value in cfg.plans && (s.state == PAUSED || s.state == STOPPED)
                            && (selected == Continuous ==> cfg.plans[s.planId.value].continuousSupported);
            && (ResumeRefusal(cfg, s, mode) == None <==> accepted)
            && (accepted ==>
                  After(cfg, s, Resume(mode, env, death))
                    == Ran(cfg, cfg.plans[s.planId.value],
                           s.(state := RUNNING, stopReason := None, mode := selected, tasksProcessed := 0), env, death))
            && (!accepted ==> After(cfg, s, Resume(mode, env, death)) == s)
  {
    hide Ran, Configured;
  }

  /** A stop reaches a paused Day, and nothing else between two operations. */
  lemma StopStops(cfg: Config, s: Snapshot)
    requires Configured(cfg, s.queue) && s.state != RUNNING
    ensures After(cfg, s, Stop) == if s.state == PAUSED then s.(state := STOPPED, stopReason := Some(StopRequested)) else s
  {
  }

  /** No operation replaces a Day that is paused or in review. */
  lemma OpenDayIsKept(cfg: Config, s: Snapshot, op: Op)
    ensures s.state == PAUSED || s.state == HUMAN_REVIEW ==> SameDay(cfg, s, op)
  {
  }

  /**
   * A Day in review is left by no operation of the scheduler: whatever follows, it stays exactly as it is, and no
   * other Day can be started.
   */
  lemma {:induction false} ReviewIsNeverLeft(cfg: Config, ops: seq<Op>, k: nat)
    requires k <= |ops| && AfterAll(cfg, ops[..k]).state == HUMAN_REVIEW
    ensures AfterAll(cfg, ops) == AfterAll(cfg, ops[..k])
    decreases |ops|
  {
    hide After;
    if k == |ops| {
      assert ops[..k] == ops;
    } else {
      var n := |ops| - 1;
      assert ops[..n][..k] == ops[..k];
      ReviewIsNeverLeft(cfg, ops[..n], k);
      ReviewStays(cfg, AfterAll(cfg, ops[..n]), ops[n]);
    }
  }

  lemma ReviewStays(cfg: Config, s: Snapshot, op: Op)
    requires Configured(cfg, s.queue) && s.state == HUMAN_REVIEW
    ensures After(cfg, s, op) == s
  {
    hide Ran, Configured;
  }

  // ----- too many failures -----

  /** An item ends: too many failures stop the Day, even if this item succeeded; otherwise the last success completes it. */
  lemma EndOutcome(plan: Plan, s: Snapshot, i: nat, state: ItemState)
    requires i < |s.queue|
    ensures var r := Ended(plan, s, i, state);
            var queue, failed := s.queue[i := s.queue[i].(state := state)], s.failedTasks + if state == Failed then 1 else 0;
            && r.queue == queue && r.failedTasks == failed && r.tasksProcessed == s.tasksProcessed + 1
            && (failed > plan.maxFailed ==> r.state == STOPPED && r.stopReason == Some(MaxFailedTasks))
            && (failed <= plan.maxFailed && AllSuccessful(queue) ==> r.state == COMPLETE && r.stopReason == Some(AllTasksTerminal))
            && (failed <= plan.maxFailed && !AllSuccessful(queue) ==> r.state == s.state && r.stopReason == s.stopReason)
  {
    hide Percent, Successes, AllSuccessful;
  }

  /** A Day never goes on with more failures than its plan allows, unless it already had them when it was resumed. */
  predicate WithinFailures(plan: Plan, s: Snapshot, r: Snapshot) {
    r.state == RUNNING && s.failedTasks <= plan.maxFailed ==> r.failedTasks <= plan.maxFailed
  }

  lemma {:induction false} AttemptKeepsFailures(cfg: Config, plan: Plan, s: Snapshot, i: nat, complexity: Complexity, failure: Option<Failure>, env: Env)
    requires i < |s.queue| && Configured(cfg, s.queue)
    ensures WithinFailures(plan, s, Executed(cfg, plan, s, i, complexity, failure, env))
    decreases RepairsLeft(plan, s.queue, i), 1
  {
    hide RunOf, Charging, Ended, Evaluated, Reviewed, AllSuccessful;
    var run := RunOf(cfg, plan, s, i, complexity, failure, env);
    var t := Charging(run);
    RunKeepsFailures(cfg, plan, s, i, complexity, failure, env);
    EndOutcome(plan, t, i, CompleteNoChange);
    EndOutcome(plan, t, i, Pass);
    EndOutcome(plan, t, i, Failed);
    ReviewEnds(run.snapshot, s.queue[i].taskId, RoutingMissing);
    ReviewEnds(t, s.queue[i].taskId, TaskAsks);
    VerdictKeepsFailures(cfg, plan, t, i, run.result.guardFailed, env);
  }

  lemma RunKeepsFailures(cfg: Config, plan: Plan, s: Snapshot, i: nat, complexity: Complexity, failure: Option<Failure>, env: Env)
    requires i < |s.queue|
    ensures var run := RunOf(cfg, plan, s, i, complexity, failure, env); run.snapshot.failedTasks == s.failedTasks && Charging(run).failedTasks == s.failedTasks
  {
    hide DecisionFor, SameTasks, RoutesKeepLoops, RepairsLeft, Charged;
  }

  lemma ReviewEnds(s: Snapshot, id: TaskId, why: Reason)
    ensures Reviewed(s, id, why).state == HUMAN_REVIEW
  {
    hide IndexFrom, WithItem;
  }

  lemma {:induction false} VerdictKeepsFailures(cfg: Config, plan: Plan, s: Snapshot, i: nat, guardFailed: bool, env: Env)
    requires i < |s.queue| && Configured(cfg, s.queue)
    ensures WithinFailures(plan, s, Evaluated(cfg, plan, s, i, guardFailed, env))
    decreases RepairsLeft(plan, s.queue, i), 0
  {
    hide Ended, Executed, Reviewed, DecisionFor, AllSuccessful, Charged;
    var id, d := s.queue[i].taskId, DecisionFor(cfg, plan, s.roles, EVALUATOR, plan.evaluator, NORMAL, None);
    var t := Called(cfg, plan, s, d, env);
    ReviewEnds(s, id, SafetyFailure);
    ReviewEnds(s, id, ProviderNotConfigured(EVALUATOR));
    if d.Review? { ReviewEnds(s, SYSTEM, NotRouted(d.reason)); }
    ReviewEnds(t, id, ProviderError(EVALUATOR));
    ReviewEnds(t, id, EvaluationAsks);
    EndOutcome(plan, t, i, Pass);
    if s.queue[i].repairLoops < plan.maxRepairLoops { AttemptKeepsFailures(cfg, plan, RepairBegun(t, i), i, NORMAL, Some(REASONING), env); }
  }

  lemma TurnKeepsFailures(cfg: Config, plan: Plan, s: Snapshot, env: Env)
    requires Configured(cfg, s.queue)
    ensures WithinFailures(plan, s, Processed(cfg, plan, s, env))
  {
    hide DecisionFor, Executed, Ended, Reviewed, Charged, EligibleFrom, AllSuccessful;
    forall t, id, why ensures Reviewed(t, id, why).state == HUMAN_REVIEW { ReviewEnds(t, id, why); }
    if env.architect(s.architectCalls).Chose? {
      var a, d := env.architect(s.architectCalls), DecisionFor(cfg, plan, s.roles, ARCHITECT, plan.architect, NORMAL, None);
      var t := ChargedTo(Used(s.(architectCalls := s.architectCalls + 1), ARCHITECT, a.usage), d, a.usage);
      var i := EligibleFrom(t.queue, a.taskId, 0);
      if i.Some? && a.choice.RunTask? { AttemptKeepsFailures(cfg, plan, t, i.value, a.choice.complexity, None, env); }
      if i.Some? { EndOutcome(plan, t, i.value, Skipped); }
    }
  }

  // ----- routing and success -----

  /** Every task has been done, found unnecessary, or skipped. */
  lemma SuccessExactly(queue: seq<Item>)
    ensures AllSuccessful(queue) <==> queue != [] && forall i :: 0 <= i < |queue| ==> queue[i].state in {Pass, CompleteNoChange, Skipped}
  {
  }

  /** Without a router every call is placed, on no profile. */
  lemma UnroutedIsPlaced(cfg: Config, plan: Plan, roles: RoleUsage, role: Role, provider: Provider, complexity: Complexity, failure: Option<Failure>)
    requires cfg.router == None
    ensures DecisionFor(cfg, plan, roles, role, provider, complexity, failure) == Selected(role, None, provider, None, 0)
  {
  }

  /**
   * With a router a call is placed for its role and provider, on the profile its complexity and failure call for, or
   * on a weaker one if that does not fit and the plan allows it; always on one the plan allows and the budgets fit.
   */
  lemma RoutedExactly(cfg: Config, plan: Plan, roles: RoleUsage, role: Role, provider: Provider, complexity: Complexity, failure: Option<Failure>, want: ProfileId)
    requires cfg.router.Some?
    requires want == (match complexity
                      case SIMPLE => (if Escalates(failure) then STANDARD else ECONOMICAL)
                      case NORMAL => (if Escalates(failure) then DEEP else STANDARD)
                      case COMPLEX => DEEP)
    ensures var d, registry := DecisionFor(cfg, plan, roles, role, provider, complexity, failure), cfg.router.value;
            && (d.Selected? ==>
                  && d.role == role && d.provider == provider && d.profile.Some? && d.profile.value in plan.policy.allowed && want in plan.policy.allowed
                  && WithinBudget(registry.Get(d.profile.value), RemainingFor(cfg, roles, role))
                  && (d.profile.value == want || (plan.policy.downgrade && Rank(d.profile.value) < Rank(want)
                                                  && !WithinBudget(registry.Get(want), RemainingFor(cfg, roles, role)))))
            && (want !in plan.policy.allowed ==> d.Review? && d.reason == ProfileNotAllowed)
  {
    hide RemainingFor, WithinBudget, Preferred, Lower, Chosen, Select;
    var req := Request(role, provider, complexity, failure, RemainingFor(cfg, roles, role), plan.policy);
    SelectedByRequest(cfg.router.value, req, want);
    var d := Select(cfg.router.value, req);
    if d.Selected? { SelectedIsAdmitted(cfg.router.value, req, want); }
  }

  lemma SelectedIsAdmitted(registry: Registry, req: Request, want: ProfileId)
    requires Select(registry, req).Selected? && Select(registry, req).profile.Some? && CallsFor(req, want)
    ensures Admitted(registry, req, Select(registry, req).profile.value) && want in req.policy.allowed
  {
    SelectedIsStrongest(registry, req, Select(registry, req).profile.value);
    SelectedByRequest(registry, req, want);
  }
}
