/** What a turn of the scheduler comes to, by what the architect answered, and what the retry counter counts. */
module ScheduleTurns {
  import opened Prelude
  import opened TokenUsage
  import opened ModelRouter
  import opened DaySchedule
  import opened ScheduleQueue
  import opened ScheduleHistory

  /** The architect may choose it: nothing has been done about it yet, or a repair of it is due. */
  predicate MayBeChosen(state: ItemState) { state == Pending || state == Ready || state == RepairPending }

  /** The first item of that id that may be chosen. */
  predicate FirstEligible(queue: seq<Item>, id: TaskId, i: nat) {
    && i < |queue| && queue[i].taskId == id && MayBeChosen(queue[i].state)
    && forall k :: 0 <= k < i && queue[k].taskId == id ==> !MayBeChosen(queue[k].state)
  }

  predicate NoneEligible(queue: seq<Item>, id: Option<TaskId>) {
    forall k :: 0 <= k < |queue| && Some(queue[k].taskId) == id ==> !MayBeChosen(queue[k].state)
  }

  lemma {:induction false} EligibleIsFirst(queue: seq<Item>, id: Option<TaskId>, from: nat)
    ensures var r := EligibleFrom(queue, id, from);
            && (r == None <==> forall k :: from <= k < |queue| && Some(queue[k].taskId) == id ==> !MayBeChosen(queue[k].state))
            && (r.Some? ==>
                  from <= r.value && forall k :: from <= k < r.value && Some(queue[k].taskId) == id ==> !MayBeChosen(queue[k].state))
    decreases |queue| - from
  {
    if from < |queue| && !(Some(queue[from].taskId) == id && queue[from].state.Eligible()) { EligibleIsFirst(queue, id, from + 1); }
  }

  // ----- one turn -----

  /** The Day goes to review under the scheduler's own name; no item, counter or token changes but those of `s`. */
  predicate InOwnReview(s: Snapshot, t: Snapshot, why: Reason) {
    t == s.(state := HUMAN_REVIEW, stopReason := Some(why), reviews := s.reviews + [(SYSTEM, why)])
  }

  /** One call was made, and its tokens charged if it answered. */
  predicate Spent(s: Snapshot, t: Snapshot) {
    t == s.(architectCalls := s.architectCalls + 1, roles := t.roles, profiles := t.profiles)
  }

  /** A turn that makes no call stops the Day at its limit or its budget, or asks for review. */
  lemma TurnWithoutCall(cfg: Config, plan: Plan, s: Snapshot, env: Env)
    requires Configured(cfg, s.queue) && Clean(s.queue) && !CallsArchitect(cfg, plan, s)
    ensures var t := Processed(cfg, plan, s, env);
            var d := DecisionFor(cfg, plan, s.roles, ARCHITECT, plan.architect, NORMAL, None);
            if s.architectCalls >= plan.maxArchitect then t == s.(state := STOPPED, stopReason := Some(MaxArchitectCalls))
            else if s.architectCalls >= cfg.architectBudget.calls || s.roles.architect.input >= cfg.architectBudget.input
                    || s.roles.architect.output >= cfg.architectBudget.output then
              t == s.(state := STOPPED, stopReason := Some(BudgetGuard(ARCHITECT)))
            else if d.Review? then InOwnReview(s, t, NotRouted(d.reason))
            else plan.architect !in cfg.architects && InOwnReview(s, t, ProviderNotConfigured(ARCHITECT))
  {
    hide DecisionFor, Followed, Clean, Configured, IndexFrom, WithItem;
    var d := DecisionFor(cfg, plan, s.roles, ARCHITECT, plan.architect, NORMAL, None);
    if d.Review? { OwnReviewsTouchNoItem(s, NotRouted(d.reason)); }
    OwnReviewsTouchNoItem(s, ProviderNotConfigured(ARCHITECT));
  }

  /**
   * A failed call: the Day goes on, with one retry counted and nothing else changed, exactly when the error is
   * retryable and a retry is left; otherwise it is in review for a provider error.
   */
  lemma FailedCall(cfg: Config, plan: Plan, s: Snapshot, env: Env)
    requires Configured(cfg, s.queue) && Clean(s.queue) && CallsArchitect(cfg, plan, s) && s.state == RUNNING
    requires env.architect(s.architectCalls).ArchitectError?
    ensures var t := Processed(cfg, plan, s, env);
            var retried := env.architect(s.architectCalls).retryable && s.retries < plan.maxRetries;
            && (t.state == RUNNING <==> retried)
            && (retried ==> t == s.(architectCalls := s.architectCalls + 1, retries := s.retries + 1))
            && (!retried ==> InOwnReview(s.(architectCalls := s.architectCalls + 1), t, ProviderError(ARCHITECT)))
  {
    hide DecisionFor, Followed, Clean, Configured, IndexFrom, WithItem;
    OwnReviewsTouchNoItem(s.(architectCalls := s.architectCalls + 1), ProviderError(ARCHITECT));
  }

  /** A choice that cannot be followed: a replan while one is left, a review after that. */
  predicate Refused(plan: Plan, s: Snapshot, t: Snapshot, why: Reason) {
    if s.replans < plan.maxReplans then Spent(s, t.(replans := s.replans)) && t.replans == s.replans + 1
    else t.state == HUMAN_REVIEW && Spent(s, t.(state := s.state, stopReason := s.stopReason, reviews := s.reviews))
         && t.stopReason == Some(why) && t.reviews == s.reviews + [(SYSTEM, why)]
  }

  lemma AnswerIsSpent(s: Snapshot, d: Decision, u: Usage)
    ensures Spent(s, ChargedTo(Used(s.(architectCalls := s.architectCalls + 1), ARCHITECT, u), d, u))
  {
    hide Charged;
  }

  lemma SpentAndRefused(plan: Plan, s: Snapshot, t: Snapshot, why: Reason)
    requires Spent(s, t) && Clean(s.queue)
    ensures Refused(plan, s, Replanned(plan, t, why), why)
  {
    hide Clean, IndexFrom, WithItem;
    OwnReviewsTouchNoItem(t, why);
  }

  /** The architect's choice, and what the turn made of it. */
  ghost predicate Obeyed(plan: Plan, s: Snapshot, choice: Choice, id: Option<TaskId>, t: Snapshot) {
    match choice
    case StopDay => Spent(s, t.(state := s.state, stopReason := s.stopReason)) && t.state == STOPPED && t.stopReason == Some(ArchitectStops)
    case DayComplete =>
      if AllSuccessful(s.queue) then t.state == COMPLETE && t.queue == s.queue && t.stopReason == Some(AllTasksTerminal)
      else Refused(plan, s, t, PrematureComplete)
    case AskHuman =>
      if NoneEligible(s.queue, id) then Refused(plan, s, t, InvalidTask)
      else exists i: nat :: id.Some? && FirstEligible(s.queue, id.value, i) && SentToReview(s, t, i, ArchitectAsks)
    case SkipTask =>
      if NoneEligible(s.queue, id) then Refused(plan, s, t, InvalidTask)
      else exists i: nat :: id.Some? && FirstEligible(s.queue, id.value, i) && t.queue == s.queue[i := s.queue[i].(state := Skipped)]
                            && t.tasksProcessed == s.tasksProcessed + 1 && t.failedTasks == s.failedTasks
    case RunTask(_) =>
      if NoneEligible(s.queue, id) then Refused(plan, s, t, InvalidTask)
      else exists i: nat :: id.Some? && FirstEligible(s.queue, id.value, i) && OnlyItem(s.queue, t.queue, i)
  }

  /** The item and the Day are in review. */
  predicate SentToReview(s: Snapshot, t: Snapshot, i: nat, why: Reason)
    requires i < |s.queue|
  {
    && Spent(s, t.(state := s.state, stopReason := s.stopReason, reviews := s.reviews, queue := s.queue))
    && t.state == HUMAN_REVIEW && t.stopReason == Some(why) && t.reviews == s.reviews + [(s.queue[i].taskId, why)]
    && t.queue == s.queue[i := s.queue[i].(state := HumanReview)]
  }

  lemma FollowedObeys(cfg: Config, plan: Plan, s: Snapshot, spent: Snapshot, choice: Choice, id: Option<TaskId>, env: Env)
    requires Configured(cfg, s.queue) && Clean(s.queue) && Tallied(s) && s.state != COMPLETE && Spent(s, spent)
    ensures Obeyed(plan, s, choice, id, Followed(cfg, plan, spent, choice, id, env))
  {
    hide Executed, Ended, Reviewed, Clean, Configured, IndexFrom, AllSuccessful, EligibleFrom, Replanned, Refused, Percent, Successes, Failures;
    EligibleIsFirst(s.queue, id, 0);
    var i := EligibleFrom(s.queue, id, 0);
    SpentAndRefused(plan, s, spent, InvalidTask);
    SpentAndRefused(plan, s, spent, PrematureComplete);
    if i.Some? {
      assert FirstEligible(s.queue, id.value, i.value);
      ReviewedIsSent(s, spent, i.value, ArchitectAsks);
      EndedEnds(plan, spent, i.value, Skipped);
      if choice.RunTask? { ExecutedIsSteady(cfg, plan, spent, i.value, choice.complexity, None, env); }
    }
  }

  lemma ReviewedIsSent(s: Snapshot, spent: Snapshot, i: nat, why: Reason)
    requires Clean(s.queue) && i < |s.queue| && Spent(s, spent)
    ensures SentToReview(s, Reviewed(spent, s.queue[i].taskId, why), i, why)
  {
    hide Clean, IndexFrom, WithItem;
    ReviewTouchesItsItem(spent, i, why);
  }

  lemma EndedEnds(plan: Plan, s: Snapshot, i: nat, state: ItemState)
    requires i < |s.queue|
    ensures var t := Ended(plan, s, i, state);
            && t.queue == s.queue[i := s.queue[i].(state := state)] && t.tasksProcessed == s.tasksProcessed + 1
            && t.failedTasks == s.failedTasks + if state == Failed then 1 else 0
  {
    hide Percent, Successes, AllSuccessful;
  }

  /** An answered call: one call and its tokens are spent, and the choice is obeyed or refused. */
  lemma AnsweredCall(cfg: Config, plan: Plan, s: Snapshot, env: Env)
    requires Configured(cfg, s.queue) && Clean(s.queue) && Tallied(s) && CallsArchitect(cfg, plan, s) && s.state == RUNNING
    requires env.architect(s.architectCalls).Chose?
    ensures var a := env.architect(s.architectCalls);
            Obeyed(plan, s, a.choice, a.taskId, Processed(cfg, plan, s, env))
  {
    hide DecisionFor, Followed, Clean, Configured, Obeyed, ChargedTo, Used, Reviewed, Percent, Successes, Failures;
    var a, d := env.architect(s.architectCalls), DecisionFor(cfg, plan, s.roles, ARCHITECT, plan.architect, NORMAL, None);
    AnswerIsSpent(s, d, a.usage);
    FollowedObeys(cfg, plan, s, ChargedTo(Used(s.(architectCalls := s.architectCalls + 1), ARCHITECT, a.usage), d, a.usage), a.choice, a.taskId, env);
  }

  // ----- retries -----

  /** The failed calls with a retryable error, of the calls from `a` up to `b`. */
  function RetryableErrors(env: Env, a: nat, b: nat): nat
    decreases b
  {
    if a >= b then 0 else RetryableErrors(env, a, b - 1) + if env.architect(b - 1) == ArchitectError(true) then 1 else 0
  }

  lemma {:induction false} ErrorsAdd(env: Env, a: nat, b: nat, c: nat)
    requires a <= b <= c
    ensures RetryableErrors(env, a, c) == RetryableErrors(env, a, b) + RetryableErrors(env, b, c)
    decreases c
  {
    if b < c { ErrorsAdd(env, a, b, c - 1); }
  }

  function AtMost(limit: nat, n: nat): nat { if n < limit then n else limit }

  /** The retries of `t` are those of `s` and the retryable errors in between, up to the limit. */
  predicate Retried(plan: Plan, env: Env, s: Snapshot, t: Snapshot) {
    s.architectCalls <= t.architectCalls
    && t.retries == AtMost(plan.maxRetries, s.retries + RetryableErrors(env, s.architectCalls, t.architectCalls))
  }

  lemma RetriedChains(plan: Plan, env: Env, s: Snapshot, t: Snapshot, u: Snapshot)
    requires Retried(plan, env, s, t) && Retried(plan, env, t, u)
    ensures Retried(plan, env, s, u)
  {
    ErrorsAdd(env, s.architectCalls, t.architectCalls, u.architectCalls);
  }

  lemma TurnRetries(cfg: Config, plan: Plan, s: Snapshot, env: Env)
    requires Configured(cfg, s.queue) && s.retries <= plan.maxRetries
    ensures Retried(plan, env, s, Processed(cfg, plan, s, env))
  {
    hide DecisionFor, Followed, IndexFrom, WithItem, Charged, Configured;
    assert RetryableErrors(env, s.architectCalls, s.architectCalls + 1) == if env.architect(s.architectCalls) == ArchitectError(true) then 1 else 0;
  }

  lemma SavedRetries(cfg: Config, plan: Plan, s: Snapshot, env: Env, cut: Cut)
    requires Configured(cfg, s.queue) && s.retries <= plan.maxRetries
    ensures Retried(plan, env, s, SavedInTurn(cfg, plan, s, env, cut))
  {
    hide DecisionFor, EndInAttempt, SavedInAttempt, EligibleFrom, CallsArchitect, Charged, Configured;
    assert RetryableErrors(env, s.architectCalls, s.architectCalls + 1) == if env.architect(s.architectCalls) == ArchitectError(true) then 1 else 0;
    EndRetries(cfg, plan, s, env, cut);
  }

  lemma EndRetries(cfg: Config, plan: Plan, s: Snapshot, env: Env, cut: Cut)
    requires Configured(cfg, s.queue)
    ensures var end := EndInTurn(cfg, plan, s, env, cut);
            end.Some? ==>
              && end.value.0.retries == s.retries && end.value.0.architectCalls == s.architectCalls + 1
              && env.architect(s.architectCalls).Chose?
  {
    hide DecisionFor, EndInAttempt, EligibleFrom, CallsArchitect, Charged, Configured;
  }

  lemma {:induction false} AdvancedRetries(cfg: Config, plan: Plan, s: Snapshot, env: Env)
    requires Configured(cfg, s.queue) && s.retries <= plan.maxRetries
    ensures Retried(plan, env, s, Advanced(cfg, plan, s, env))
    decreases Minus(plan.maxArchitect, s.architectCalls), s.state == RUNNING
  {
    hide Processed, AllSuccessful, Successes, Percent, Configured, SameTasks;
    assert RetryableErrors(env, s.architectCalls, s.architectCalls) == 0;
    if s.state == RUNNING && s.tasksProcessed < plan.maxTasks {
      var t := Processed(cfg, plan, s, env);
      TurnRetries(cfg, plan, s, env);
      if t.state == RUNNING && s.mode == Continuous {
        ConfiguredStays(cfg, s.queue, t.queue);
        AdvancedRetries(cfg, plan, t, env);
        RetriedChains(plan, env, s, t, Advanced(cfg, plan, t, env));
      }
    }
  }

  lemma {:induction false} DiedRetries(cfg: Config, plan: Plan, s: Snapshot, env: Env, turns: nat, cut: Cut)
    requires Configured(cfg, s.queue) && s.retries <= plan.maxRetries
    ensures Retried(plan, env, s, DiedAfter(cfg, plan, s, env, turns, cut))
    decreases turns
  {
    hide Processed, SavedInTurn, Configured, SameTasks;
    assert RetryableErrors(env, s.architectCalls, s.architectCalls) == 0;
    if s.state == RUNNING && s.tasksProcessed < plan.maxTasks {
      if turns == 0 {
        SavedRetries(cfg, plan, s, env, cut);
      } else {
        var t := Processed(cfg, plan, s, env);
        TurnRetries(cfg, plan, s, env);
        if s.mode == Continuous {
          ConfiguredStays(cfg, s.queue, t.queue);
          DiedRetries(cfg, plan, t, env, turns - 1, cut);
          RetriedChains(plan, env, s, t, DiedAfter(cfg, plan, t, env, turns - 1, cut));
        }
      }
    }
  }

  lemma RunRetries(cfg: Config, plan: Plan, s: Snapshot, env: Env, death: Option<Death>)
    requires Configured(cfg, s.queue) && s.retries <= plan.maxRetries
    ensures Retried(plan, env, s, Ran(cfg, plan, s, env, death))
  {
    hide Advanced, DiedAfter, Configured;
    if death == None { AdvancedRetries(cfg, plan, s, env); } else { DiedRetries(cfg, plan, s, env, death.value.turns, death.value.cut); }
  }

  /** The retryable errors that the present Day has met, over all its runs, as far as their calls were saved. */
  function DayErrors(cfg: Config, ops: seq<Op>): nat {
    if ops == [] then 0
    else
      var before, op := ops[..|ops| - 1], ops[|ops| - 1];
      var s, t := AfterAll(cfg, before), AfterAll(cfg, ops);
      match op
      case Start(planId, mode, env, _) =>
        if StartRefusal(cfg, s, planId, mode).Some? then DayErrors(cfg, before) else RetryableErrors(env, 0, t.architectCalls)
      case Resume(mode, env, _) =>
        DayErrors(cfg, before)
        + if ResumeRefusal(cfg, s, mode).Some? then 0 else RetryableErrors(env, s.architectCalls, t.architectCalls)
      case Stop => DayErrors(cfg, before)
      case Restart => DayErrors(cfg, before)
  }

  /** Over any history the retries of a Day are its retryable errors, up to the plan's limit: nothing else is ever retried. */
  lemma {:induction false} RetriesAreRetryableErrors(cfg: Config, ops: seq<Op>)
    ensures var s := AfterAll(cfg, ops);
            if s.planId == None then s.retries == 0
            else s.planId.value in cfg.plans && s.retries == AtMost(cfg.plans[s.planId.value].maxRetries, DayErrors(cfg, ops))
  {
    hide Ran, Configured, RetryableErrors, TasksKnown, Tallied, Clean;
    if ops != [] {
      var before, op := ops[..|ops| - 1], ops[|ops| - 1];
      var s := AfterAll(cfg, before);
      RetriesAreRetryableErrors(cfg, before);
      match op
      case Start(planId, mode, env, death) =>
        if StartRefusal(cfg, s, planId, mode) == None {
          LaunchedIsTallied(cfg, planId, cfg.plans[planId], mode);
          LaunchedIsFresh(planId, cfg.plans[planId], mode);
          RunRetries(cfg, cfg.plans[planId], Launched(planId, cfg.plans[planId], mode), env, death);
        }
      case Resume(mode, env, death) =>
        if ResumeRefusal(cfg, s, mode) == None { RunRetries(cfg, cfg.plans[s.planId.value], Reopened(s, mode), env, death); }
      case Stop =>
      case Restart =>
    }
  }

  lemma LaunchedIsFresh(planId: string, plan: Plan, mode: Mode)
    ensures Launched(planId, plan, mode).retries == 0 && Launched(planId, plan, mode).architectCalls == 0
    ensures Launched(planId, plan, mode).planId == Some(planId)
  {
  }
}
