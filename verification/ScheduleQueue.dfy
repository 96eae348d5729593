/** What the scheduler keeps about its queue: settled items, the failure count and the progress it reports. */
module ScheduleQueue {
  import opened Prelude
  import opened TokenUsage
  import opened ModelRouter
  import opened DaySchedule

  /** Distinct task ids, none of them the name the scheduler files its own reviews under. */
  predicate Clean(queue: seq<Item>) {
    && (forall i :: 0 <= i < |queue| ==> queue[i].taskId != SYSTEM)
    && forall i, j :: 0 <= i < j < |queue| ==> queue[i].taskId != queue[j].taskId
  }

  predicate KeepsSettled(a: seq<Item>, b: seq<Item>) {
    |a| == |b| && forall i :: 0 <= i < |a| && a[i].state.Settled() ==> b[i] == a[i]
  }

  predicate OnlyItem(a: seq<Item>, b: seq<Item>, i: nat) {
    |a| == |b| && forall k :: 0 <= k < |a| && k != i ==> b[k] == a[k]
  }

  function Failures(queue: seq<Item>): nat {
    if queue == [] then 0
    else Failures(queue[..|queue| - 1]) + if queue[|queue| - 1].state == Failed then 1 else 0
  }

  /** The failure count and the reported progress say what the queue says. */
  predicate Tallied(s: Snapshot) {
    s.failedTasks == Failures(s.queue) && s.progress == Percent(Successes(s.queue), |s.queue|)
  }

  /** A COMPLETE Day has only successful items. */
  predicate Sound(s: Snapshot) {
    s.state == COMPLETE ==> AllSuccessful(s.queue)
  }

  /** And a Day with only successful items is COMPLETE. */
  predicate Honest(s: Snapshot) {
    s.state == COMPLETE <==> AllSuccessful(s.queue)
  }

  // ----- rounding -----

  lemma RoundingIsMonotone(a: nat, b: nat, d: nat)
    requires a <= b && d > 0
    ensures RoundHalfEven(a, d) <= RoundHalfEven(b, d)
  {
    QuotientsGrow(a, b, d, a / d, a % d, b / d, b % d);
  }

  lemma QuotientsGrow(a: nat, b: nat, d: nat, q: nat, r: nat, p: nat, t: nat)
    requires a <= b && a == q * d + r && b == p * d + t && r < d && t < d
    ensures q < p || (q == p && r <= t)
  {
    ProductsGrow(p + 1, q, d);
  }

  lemma ProductsGrow(a: nat, b: nat, d: nat)
    ensures a <= b ==> a * d <= b * d
  {
  }

  /** Progress reads 100.00 exactly when every task succeeded, for every queue shorter than 20,000 and for no longer one. */
  lemma FullProgressIsExact(total: nat)
    requires total > 0
    ensures total < 20000 <==> forall done: nat :: done <= total ==> (Percent(done, total) == 10000 <==> done == total)
  {
    AllDone(total);
    if total < 20000 {
      forall done: nat | done < total ensures Percent(done, total) != 10000 { NotDone(done, total); }
    } else {
      var done: nat := total - 1;
      NearlyDone(total);
      assert Percent(done, total) == 10000 && done != total;
    }
  }

  lemma AllDone(total: nat)
    requires total > 0
    ensures Percent(total, total) == 10000
  {
    DivideExactly(10000, 0, total);
  }

  lemma NotDone(done: nat, total: nat)
    requires done < total < 20000
    ensures Percent(done, total) < 10000
  {
    RoundingIsMonotone(done * 10000, (total - 1) * 10000, total);
    NearMiss(total);
  }

  lemma NearMiss(total: nat)
    requires 0 < total < 20000
    ensures Percent(total - 1, total) < 10000
  {
    if total > 10000 {
      DivideExactly(9999, total - 10000, total);
    } else {
      var n := (total - 1) * 10000;
      assert n == n / total * total + n % total;
      ProductsGrow(9999, n / total, total);
    }
  }

  lemma NearlyDone(total: nat)
    requires total >= 20000
    ensures Percent(total - 1, total) == 10000
  {
    DivideExactly(9999, total - 10000, total);
  }

  lemma DivideExactly(q: nat, r: nat, d: nat)
    requires r < d
    ensures (q * d + r) / d == q && (q * d + r) % d == r
  {
    var n := q * d + r;
    assert n == n / d * d + n % d;
    ProductsGrow(q + 1, n / d, d);
    ProductsGrow(n / d + 1, q, d);
  }

  // ----- counting -----

  lemma {:induction false} CountsAfterUpdate(queue: seq<Item>, i: nat, x: Item)
    requires i < |queue|
    ensures Successes(queue[i := x]) + (if queue[i].state.Successful() then 1 else 0)
         == Successes(queue) + (if x.state.Successful() then 1 else 0)
    ensures Failures(queue[i := x]) + (if queue[i].state == Failed then 1 else 0)
         == Failures(queue) + (if x.state == Failed then 1 else 0)
  {
    var n := |queue| - 1;
    if i == n {
      assert queue[i := x][..n] == queue[..n];
    } else {
      assert queue[i := x][..n] == queue[..n][i := x];
      CountsAfterUpdate(queue[..n], i, x);
    }
  }

  lemma {:induction false} SettledCountsGrow(a: seq<Item>, b: seq<Item>)
    requires KeepsSettled(a, b)
    ensures Successes(a) <= Successes(b) <= |a| && Failures(a) <= Failures(b)
  {
    if a != [] {
      SettledCountsGrow(a[..|a| - 1], b[..|b| - 1]);
    }
  }

  lemma {:induction false} AllCounted(queue: seq<Item>)
    ensures Successes(queue) <= |queue|
    ensures Successes(queue) == |queue| <==> forall i :: 0 <= i < |queue| ==> queue[i].state.Successful()
  {
    if queue != [] {
      AllCounted(queue[..|queue| - 1]);
    }
  }

  lemma {:induction false} NothingCounted(queue: seq<Item>)
    requires forall i :: 0 <= i < |queue| ==> queue[i].state == Pending
    ensures Successes(queue) == 0 && Failures(queue) == 0
  {
    if queue != [] { NothingCounted(queue[..|queue| - 1]); }
  }

  // ----- reviews -----

  lemma {:induction false} IndexIsFirst(queue: seq<Item>, id: TaskId, from: nat)
    ensures var r := IndexFrom(queue, id, from);
            && (r.Some? ==> from <= r.value < |queue| && queue[r.value].taskId == id)
            && (forall k :: from <= k < (if r.Some? then r.value else |queue|) ==> queue[k].taskId != id)
    decreases |queue| - from
  {
    if from < |queue| && queue[from].taskId != id { IndexIsFirst(queue, id, from + 1); }
  }

  predicate FirstOf(queue: seq<Item>, id: TaskId, i: nat) {
    i < |queue| && queue[i].taskId == id && forall k :: 0 <= k < i ==> queue[k].taskId != id
  }

  /** A review rewrites a settled item exactly when the first item of its id is settled, so it may even be the scheduler's own. */
  lemma ReviewKeepsSettled(s: Snapshot, id: TaskId, why: Reason)
    ensures KeepsSettled(s.queue, Reviewed(s, id, why).queue) <==>
              forall i: nat :: FirstOf(s.queue, id, i) ==> !s.queue[i].state.Settled()
  {
    IndexIsFirst(s.queue, id, 0);
    var i := IndexFrom(s.queue, id, 0);
    if i.Some? {
      assert FirstOf(s.queue, id, i.value);
      var r := Reviewed(s, id, why).queue;
      assert r[i.value].state == HumanReview;
      assert forall k :: 0 <= k < |r| && k != i.value ==> r[k] == s.queue[k];
    }
  }

  lemma OwnReviewsTouchNoItem(s: Snapshot, why: Reason)
    requires Clean(s.queue)
    ensures Reviewed(s, SYSTEM, why).queue == s.queue
  {
    IndexIsFirst(s.queue, SYSTEM, 0);
  }

  lemma ReviewTouchesItsItem(s: Snapshot, i: nat, why: Reason)
    requires Clean(s.queue) && i < |s.queue|
    ensures Reviewed(s, s.queue[i].taskId, why).queue == s.queue[i := s.queue[i].(state := HumanReview)]
  {
    IndexIsFirst(s.queue, s.queue[i].taskId, 0);
  }

  // ----- steps -----

  /** What every piece of a step does to a queue whose item `i` is open: it changes that item at most. */
  predicate Steady(s: Snapshot, t: Snapshot, i: nat) {
    Tallied(t) && Honest(t) && OnlyItem(s.queue, t.queue, i)
  }

  /** The Day is going on, and item `i` is open. */
  predicate OpenAt(s: Snapshot, i: nat) {
    s.state != COMPLETE && i < |s.queue| && !s.queue[i].state.Settled()
  }

  lemma {:induction false} SuccessMeansNoFailure(queue: seq<Item>)
    requires forall k :: 0 <= k < |queue| ==> queue[k].state.Successful()
    ensures Failures(queue) == 0
  {
    if queue != [] { SuccessMeansNoFailure(queue[..|queue| - 1]); }
  }

  lemma CleanStaysClean(a: seq<Item>, b: seq<Item>)
    requires Clean(a) && SameTasks(a, b)
    ensures Clean(b)
  {
  }

  lemma ReviewIsSteady(s: Snapshot, i: nat, why: Reason)
    requires Clean(s.queue) && Tallied(s) && OpenAt(s, i)
    ensures Steady(s, Reviewed(s, s.queue[i].taskId, why), i)
    ensures Steady(s, Reviewed(s, SYSTEM, why), i)
  {
    hide Clean, Percent, IndexFrom;
    ReviewTouchesItsItem(s, i, why);
    OwnReviewsTouchNoItem(s, why);
    CountsAfterUpdate(s.queue, i, s.queue[i].(state := HumanReview));
    assert !Reviewed(s, s.queue[i].taskId, why).queue[i].state.Successful();
    assert !Reviewed(s, SYSTEM, why).queue[i].state.Successful();
  }

  lemma EndedIsSteady(plan: Plan, s: Snapshot, i: nat, state: ItemState)
    requires Tallied(s) && OpenAt(s, i) && state.Settled()
    ensures Steady(s, Ended(plan, s, i, state), i)
  {
    hide Percent, Successes;
    var queue := WithItem(s.queue, i, state);
    CountsAfterUpdate(s.queue, i, s.queue[i].(state := state));
    if AllSuccessful(queue) { SuccessMeansNoFailure(queue); }
  }

  lemma CountedIsTallied(s: Snapshot, i: nat, state: ItemState)
    requires Tallied(s) && OpenAt(s, i) && state.Settled()
    ensures var t := Counted(s, i, state); Tallied(t) && OnlyItem(s.queue, t.queue, i) && t.state != COMPLETE
  {
    hide Percent, Successes;
    CountsAfterUpdate(s.queue, i, s.queue[i].(state := state));
  }

  lemma ItemIsSteady(s: Snapshot, i: nat, x: Item)
    requires Tallied(s) && OpenAt(s, i) && !x.state.Settled()
    ensures Steady(s, s.(queue := s.queue[i := x]), i)
  {
    hide Percent;
    CountsAfterUpdate(s.queue, i, x);
    assert !s.queue[i := x][i].state.Successful();
  }

  lemma {:induction false} RoutingTouchesNoItem(s: Snapshot, d: Decision, n: nat)
    requires Clean(s.queue) && s.state != COMPLETE
    ensures CodexRouted(s, d, n).queue == s.queue && CodexRouted(s, d, n).state != COMPLETE
  {
    if n > 0 {
      RoutingTouchesNoItem(s, d, n - 1);
      if d.Review? { OwnReviewsTouchNoItem(CodexRouted(s, d, n - 1), NotRouted(d.reason)); }
    }
  }

  lemma RunIsSteady(cfg: Config, plan: Plan, s: Snapshot, i: nat, complexity: Complexity, failure: Option<Failure>, env: Env)
    requires Clean(s.queue) && Tallied(s) && OpenAt(s, i)
    ensures var run := RunOf(cfg, plan, s, i, complexity, failure, env);
            && Steady(s, run.snapshot, i) && Steady(s, Charging(run), i)
            && OpenAt(run.snapshot, i) && OpenAt(Charging(run), i)
  {
    hide Percent, DecisionFor, Clean, Charged;
    var d := DecisionFor(cfg, plan, s.roles, CODEX, Codex, complexity, failure);
    assert SameTasks(s.queue, Begun(s, i).queue);
    CleanStaysClean(s.queue, Begun(s, i).queue);
    RoutingTouchesNoItem(Begun(s, i), d, env.routes(i, s.queue[i].attempts));
    ItemIsSteady(s, i, Begun(s, i).queue[i]);
  }

  lemma SteadyChains(s: Snapshot, t: Snapshot, u: Snapshot, i: nat)
    requires Steady(s, t, i) && Steady(t, u, i)
    ensures Steady(s, u, i)
  {
  }

  lemma {:induction false} ExecutedIsSteady(cfg: Config, plan: Plan, s: Snapshot, i: nat, complexity: Complexity, failure: Option<Failure>, env: Env)
    requires i < |s.queue| && Configured(cfg, s.queue)
    requires Clean(s.queue) && Tallied(s) && OpenAt(s, i)
    ensures Steady(s, Executed(cfg, plan, s, i, complexity, failure, env), i)
    decreases RepairsLeft(plan, s.queue, i), 1
  {
    hide RunOf, Charging, Reviewed, Ended, Evaluated, Percent, Clean, Successes, Failures, SameTasks, Configured;
    var id := s.queue[i].taskId;
    assert id in cfg.tasks by { ItemConfigured(cfg, s.queue, i); }
    if !(cfg.tasks[id].requiresCodex && s.codexCalls >= plan.maxCodex) {
      var run := RunOf(cfg, plan, s, i, complexity, failure, env);
      var t := Charging(run);
      RunIsSteady(cfg, plan, s, i, complexity, failure, env);
      CleanStaysClean(s.queue, t.queue);
      assert t.queue[i].taskId == id by { assert SameTasks(s.queue, t.queue); SameTask(s.queue, t.queue, i); }
      if run.result.invoked && run.routes == [] {
        ReviewIsSteady(run.snapshot, i, RoutingMissing);
        SteadyChains(s, run.snapshot, Reviewed(run.snapshot, id, RoutingMissing), i);
      } else {
        ConfiguredStays(cfg, s.queue, t.queue);
        match run.result.final
        case FinalNoChange => EndedIsSteady(plan, t, i, CompleteNoChange);
        case FinalComplete =>
          EndedIsSteady(plan, t, i, Pass);
          EvaluatedIsSteady(cfg, plan, t, i, run.result.guardFailed, env);
        case FinalReview => ReviewIsSteady(t, i, TaskAsks);
        case FinalOther => EndedIsSteady(plan, t, i, Failed);
        SteadyChains(s, t, Executed(cfg, plan, s, i, complexity, failure, env), i);
      }
    }
  }

  lemma ItemConfigured(cfg: Config, queue: seq<Item>, i: nat)
    requires Configured(cfg, queue) && i < |queue|
    ensures queue[i].taskId in cfg.tasks
  {
  }

  lemma SameTask(a: seq<Item>, b: seq<Item>, i: nat)
    requires SameTasks(a, b) && i < |a|
    ensures a[i].taskId == b[i].taskId
  {
  }

  lemma ConfiguredStays(cfg: Config, a: seq<Item>, b: seq<Item>)
    requires SameTasks(a, b) && Configured(cfg, a)
    ensures Configured(cfg, b)
  {
  }

  lemma StopIsSteady(s: Snapshot, i: nat, why: Reason)
    requires Tallied(s) && OpenAt(s, i)
    ensures Steady(s, Stopped(s, why), i)
  {
    hide Percent, Successes;
    assert !s.queue[i].state.Successful();
  }

  lemma CallKeepsItem(cfg: Config, plan: Plan, s: Snapshot, i: nat, d: Decision, env: Env)
    requires Tallied(s) && OpenAt(s, i)
    ensures var t := Called(cfg, plan, s, d, env); t.queue == s.queue && Tallied(t) && OpenAt(t, i) && Honest(t)
  {
    hide Percent, Charged, Successes, Failures;
  }

  lemma RepairIsSteady(cfg: Config, plan: Plan, s: Snapshot, i: nat)
    requires Tallied(s) && OpenAt(s, i) && Clean(s.queue) && Configured(cfg, s.queue)
    requires s.queue[i].repairLoops < plan.maxRepairLoops
    ensures var t := RepairBegun(s, i);
            && Steady(s, t, i) && OpenAt(t, i) && Clean(t.queue) && Configured(cfg, t.queue)
            && RepairsLeft(plan, t.queue, i) < RepairsLeft(plan, s.queue, i)
  {
    hide Percent, Clean, Successes, Failures, SameTasks, Configured;
    var t := RepairBegun(s, i);
    ItemIsSteady(s, i, t.queue[i]);
    UpdateKeepsTasks(s.queue, i, t.queue[i]);
    CleanStaysClean(s.queue, t.queue);
    ConfiguredStays(cfg, s.queue, t.queue);
  }

  lemma {:induction false} EvaluatedIsSteady(cfg: Config, plan: Plan, s: Snapshot, i: nat, guardFailed: bool, env: Env)
    requires i < |s.queue| && Configured(cfg, s.queue)
    requires Clean(s.queue) && Tallied(s) && OpenAt(s, i)
    ensures Steady(s, Evaluated(cfg, plan, s, i, guardFailed, env), i)
    decreases RepairsLeft(plan, s.queue, i), 0
  {
    hide Reviewed, Ended, Executed, Clean, Tallied, Honest, Stopped, SameTasks, Configured, DecisionFor, Called, RepairBegun, RepairsLeft;
    var d := DecisionFor(cfg, plan, s.roles, EVALUATOR, plan.evaluator, NORMAL, None);
    ReviewIsSteady(s, i, SafetyFailure);
    ReviewIsSteady(s, i, ProviderNotConfigured(EVALUATOR));
    StopIsSteady(s, i, MaxEvaluatorCalls);
    StopIsSteady(s, i, BudgetGuard(EVALUATOR));
    if d.Review? {
      ReviewIsSteady(s, i, NotRouted(d.reason));
    } else {
      var t := Called(cfg, plan, s, d, env);
      CallKeepsItem(cfg, plan, s, i, d, env);
      ReviewIsSteady(t, i, ProviderError(EVALUATOR));
      ReviewIsSteady(t, i, EvaluationAsks);
      EndedIsSteady(plan, t, i, Pass);
      if s.queue[i].repairLoops < plan.maxRepairLoops {
        RepairIsSteady(cfg, plan, t, i);
        ExecutedIsSteady(cfg, plan, RepairBegun(t, i), i, NORMAL, Some(REASONING), env);
        SteadyChains(t, RepairBegun(t, i), Executed(cfg, plan, RepairBegun(t, i), i, NORMAL, Some(REASONING), env), i);
      }
    }
  }

  lemma UpdateKeepsTasks(queue: seq<Item>, i: nat, x: Item)
    requires i < |queue| && x.taskId == queue[i].taskId
    ensures SameTasks(queue, queue[i := x])
  {
  }

  /** One turn leaves every settled item as it was, and the tallies right. */
  lemma ProcessedKeepsSettled(cfg: Config, plan: Plan, s: Snapshot, env: Env)
    requires Configured(cfg, s.queue) && Clean(s.queue) && Tallied(s) && s.state != COMPLETE
    ensures var t := Processed(cfg, plan, s, env);
            Tallied(t) && Sound(t) && KeepsSettled(s.queue, t.queue) && (Honest(s) ==> Honest(t))
  {
    hide Reviewed, Followed, Percent, Clean, Successes, Failures, SameTasks, Configured, DecisionFor, Charged;
    var d := DecisionFor(cfg, plan, s.roles, ARCHITECT, plan.architect, NORMAL, None);
    var called := s.(architectCalls := s.architectCalls + 1);
    if d.Review? { OwnReviewIsTallied(s, NotRouted(d.reason)); }
    OwnReviewIsTallied(s, ProviderNotConfigured(ARCHITECT));
    OwnReviewIsTallied(called, ProviderError(ARCHITECT));
    match env.architect(s.architectCalls)
    case ArchitectError(_) =>
    case Chose(choice, id, u) =>
      FollowedKeepsSettled(cfg, plan, ChargedTo(Used(called, ARCHITECT, u), d, u), choice, id, env);
  }

  lemma OwnReviewIsTallied(s: Snapshot, why: Reason)
    requires Clean(s.queue) && Tallied(s)
    ensures var t := Reviewed(s, SYSTEM, why); Tallied(t) && t.queue == s.queue && t.state != COMPLETE
  {
    hide Percent, Clean, IndexFrom;
    OwnReviewsTouchNoItem(s, why);
  }

  lemma FollowedKeepsSettled(cfg: Config, plan: Plan, s: Snapshot, choice: Choice, id: Option<TaskId>, env: Env)
    requires Configured(cfg, s.queue) && Clean(s.queue) && Tallied(s) && s.state != COMPLETE
    ensures var t := Followed(cfg, plan, s, choice, id, env);
            Tallied(t) && Sound(t) && KeepsSettled(s.queue, t.queue) && (Honest(s) ==> Honest(t))
  {
    hide Reviewed, Ended, Executed, Percent, Clean, Successes, Failures, SameTasks, Configured, EligibleFrom, AllSuccessful;
    var i := EligibleFrom(s.queue, id, 0);
    OwnReviewIsTallied(s, InvalidTask);
    OwnReviewIsTallied(s, PrematureComplete);
    if i.Some? {
      ReviewIsSteady(s, i.value, ArchitectAsks);
      EndedIsSteady(plan, s, i.value, Skipped);
      if choice.RunTask? {
        ExecutedIsSteady(cfg, plan, s, i.value, choice.complexity, None, env);
      }
    }
  }

  lemma {:induction false} AdvancedKeepsSettled(cfg: Config, plan: Plan, s: Snapshot, env: Env)
    requires Configured(cfg, s.queue) && Clean(s.queue) && Tallied(s) && Sound(s)
    ensures var t := Advanced(cfg, plan, s, env);
            Tallied(t) && Sound(t) && KeepsSettled(s.queue, t.queue) && (Honest(s) ==> Honest(t))
    decreases Minus(plan.maxArchitect, s.architectCalls), s.state == RUNNING
  {
    hide Processed, Percent, Clean, Successes, Failures, SameTasks, Configured, AllSuccessful;
    if s.state == RUNNING && s.tasksProcessed < plan.maxTasks {
      var t := Processed(cfg, plan, s, env);
      ProcessedKeepsSettled(cfg, plan, s, env);
      if t.state == RUNNING && s.mode == Continuous {
        CleanStaysClean(s.queue, t.queue);
        ConfiguredStays(cfg, s.queue, t.queue);
        AdvancedKeepsSettled(cfg, plan, t, env);
      }
    }
  }

  // ----- a process that dies -----

  lemma RoutingIsSteady(cfg: Config, plan: Plan, s: Snapshot, i: nat, complexity: Complexity, failure: Option<Failure>, env: Env, n: nat)
    requires Clean(s.queue) && Tallied(s) && OpenAt(s, i)
    ensures Steady(s, RoutedSoFar(cfg, plan, s, i, complexity, failure, env, n), i)
  {
    hide Percent, DecisionFor, Clean, Successes, Failures;
    var d := DecisionFor(cfg, plan, s.roles, CODEX, Codex, complexity, failure);
    var asked := env.routes(i, s.queue[i].attempts);
    var begun := Begun(s, i);
    UpdateKeepsTasks(s.queue, i, begun.queue[i]);
    CleanStaysClean(s.queue, begun.queue);
    RoutingTouchesNoItem(begun, d, if n < asked then n else asked);
    ItemIsSteady(s, i, begun.queue[i]);
    assert !begun.queue[i].state.Successful();
  }

  lemma {:induction false} SavedIsSteady(cfg: Config, plan: Plan, s: Snapshot, i: nat, complexity: Complexity, failure: Option<Failure>, env: Env, n: nat, at: Point)
    requires i < |s.queue| && Configured(cfg, s.queue)
    requires Clean(s.queue) && Tallied(s) && OpenAt(s, i)
    ensures Steady(s, SavedInAttempt(cfg, plan, s, i, complexity, failure, env, n, at), i)
    decreases n
  {
    hide RunOf, Charging, Executed, Called, RepairBegun, RoutedSoFar, Clean, Tallied, Honest, Stopped, SameTasks, Configured,
         DecisionFor, CallsEvaluator;
    assert s.queue[i].taskId in cfg.tasks by { ItemConfigured(cfg, s.queue, i); }
    StopIsSteady(s, i, MaxCodexCalls);
    if at.AtExecutor? { RoutingIsSteady(cfg, plan, s, i, complexity, failure, env, at.routed); }
    ExecutedIsSteady(cfg, plan, s, i, complexity, failure, env);
    RunIsSteady(cfg, plan, s, i, complexity, failure, env);
    var run := RunOf(cfg, plan, s, i, complexity, failure, env);
    var t := Charging(run);
    var d := DecisionFor(cfg, plan, t.roles, EVALUATOR, plan.evaluator, NORMAL, None);
    if StartsRepair(cfg, plan, t, i, env) {
      CallKeepsItem(cfg, plan, t, i, d, env);
      var called := Called(cfg, plan, t, d, env);
      CleanStaysClean(s.queue, t.queue);
      ConfiguredStays(cfg, s.queue, t.queue);
      RepairIsSteady(cfg, plan, called, i);
      var u := RepairBegun(called, i);
      SteadyFrom(s, t, u, called, i);
      if n > 0 {
        SavedIsSteady(cfg, plan, u, i, NORMAL, Some(REASONING), env, n - 1, at);
        SteadyChains(s, u, SavedInAttempt(cfg, plan, u, i, NORMAL, Some(REASONING), env, n - 1, at), i);
      }
    }
  }

  lemma SteadyFrom(s: Snapshot, t: Snapshot, u: Snapshot, called: Snapshot, i: nat)
    requires Steady(s, t, i) && called.queue == t.queue && Steady(called, u, i)
    ensures Steady(s, u, i)
  {
    hide Tallied, Honest;
  }

  lemma {:induction false} EndIsSteady(cfg: Config, plan: Plan, s: Snapshot, i: nat, complexity: Complexity, failure: Option<Failure>, env: Env, n: nat)
    requires i < |s.queue| && Configured(cfg, s.queue)
    requires Clean(s.queue) && Tallied(s) && OpenAt(s, i)
    ensures var end := EndInAttempt(cfg, plan, s, i, complexity, failure, env, n);
            end.Some? ==> Steady(s, end.value.0, i) && OpenAt(end.value.0, i)
    decreases n
  {
    hide RunOf, Charging, Called, RepairBegun, Clean, Tallied, Honest, SameTasks, Configured, DecisionFor, CallsEvaluator;
    assert s.queue[i].taskId in cfg.tasks by { ItemConfigured(cfg, s.queue, i); }
    RunIsSteady(cfg, plan, s, i, complexity, failure, env);
    var run := RunOf(cfg, plan, s, i, complexity, failure, env);
    var t := Charging(run);
    CallKeepsItem(cfg, plan, t, i, DecisionFor(cfg, plan, t.roles, EVALUATOR, plan.evaluator, NORMAL, None), env);
    var called := Judgement(cfg, plan, t, env);
    SteadyChains(s, t, called, i);
    if t.queue[i].repairLoops < plan.maxRepairLoops && n > 0 {
      CleanStaysClean(s.queue, t.queue);
      ConfiguredStays(cfg, s.queue, t.queue);
      RepairIsSteady(cfg, plan, called, i);
      var u := RepairBegun(called, i);
      SteadyFrom(s, t, u, called, i);
      EndIsSteady(cfg, plan, u, i, NORMAL, Some(REASONING), env, n - 1);
      var end := EndInAttempt(cfg, plan, u, i, NORMAL, Some(REASONING), env, n - 1);
      if end.Some? { SteadyChains(s, u, end.value.0, i); }
    }
  }

  /** The choice of a turn keeps the queue, and what it chose is open. */
  lemma ChoiceIsOpen(cfg: Config, plan: Plan, s: Snapshot, env: Env)
    requires Tallied(s) && s.state != COMPLETE
    ensures var chosen := ChosenInTurn(cfg, plan, s, env);
            chosen.Some? ==> chosen.value.0.queue == s.queue && Tallied(chosen.value.0) && OpenAt(chosen.value.0, chosen.value.1)
  {
    hide DecisionFor, Charged, CallsArchitect, Successes, Failures, Percent;
  }

  /** The end of an item leaves the other items alone, and the Day is going on when it is saved. */
  lemma EndKeepsSettled(cfg: Config, plan: Plan, s: Snapshot, env: Env, cut: Cut)
    requires Configured(cfg, s.queue) && Clean(s.queue) && Tallied(s) && s.state != COMPLETE
    ensures var end := EndInTurn(cfg, plan, s, env, cut);
            end.Some? ==>
              var t := Counted(end.value.0, end.value.1, end.value.2);
              && OpenAt(s, end.value.1) && OnlyItem(s.queue, t.queue, end.value.1) && Tallied(t) && t.state != COMPLETE
              && t.queue[end.value.1].state == end.value.2
  {
    hide ChosenInTurn, EndInAttempt, Clean, Configured, SameTasks, Successes, Failures, Percent;
    ChoiceIsOpen(cfg, plan, s, env);
    var chosen := ChosenInTurn(cfg, plan, s, env);
    if chosen.Some? && cut.AtEnd? {
      var (t, i, choice) := chosen.value;
      if choice.RunTask? { EndIsSteady(cfg, plan, t, i, choice.complexity, None, env, cut.attempt); }
      var end := EndInTurn(cfg, plan, s, env, cut);
      if end.Some? { CountedIsTallied(end.value.0, i, end.value.2); }
    }
  }

  lemma DeathKeepsSettled(cfg: Config, plan: Plan, s: Snapshot, env: Env, cut: Cut)
    requires Configured(cfg, s.queue) && Clean(s.queue) && Tallied(s) && s.state != COMPLETE
    ensures var t := SavedInTurn(cfg, plan, s, env, cut);
            && Tallied(t) && Sound(t) && KeepsSettled(s.queue, t.queue)
            && (Honest(s) && EndInTurn(cfg, plan, s, env, cut) == None ==> Honest(t))
  {
    hide SavedInAttempt, EndInTurn, ChosenInTurn, Counted, Percent, Clean, Successes, Failures, SameTasks, Configured, AllSuccessful;
    ChoiceIsOpen(cfg, plan, s, env);
    EndKeepsSettled(cfg, plan, s, env, cut);
    var chosen := ChosenInTurn(cfg, plan, s, env);
    if cut.InAttempt? && chosen.Some? && chosen.value.2.RunTask? {
      SavedIsSteady(cfg, plan, chosen.value.0, chosen.value.1, chosen.value.2.complexity, None, env, cut.attempt, cut.at);
    }
  }

  lemma {:induction false} DiedKeepsSettled(cfg: Config, plan: Plan, s: Snapshot, env: Env, turns: nat, cut: Cut)
    requires Configured(cfg, s.queue) && Clean(s.queue) && Tallied(s) && Sound(s)
    ensures var t := DiedAfter(cfg, plan, s, env, turns, cut); Tallied(t) && Sound(t) && KeepsSettled(s.queue, t.queue)
    decreases turns
  {
    hide Processed, SavedInTurn, Percent, Clean, Successes, Failures, SameTasks, Configured, AllSuccessful, Sound, Tallied;
    if s.state == RUNNING && s.tasksProcessed < plan.maxTasks {
      if turns == 0 {
        DeathKeepsSettled(cfg, plan, s, env, cut);
      } else {
        var t := Processed(cfg, plan, s, env);
        ProcessedKeepsSettled(cfg, plan, s, env);
        if s.mode == Continuous {
          CleanStaysClean(s.queue, t.queue);
          ConfiguredStays(cfg, s.queue, t.queue);
          DiedKeepsSettled(cfg, plan, t, env, turns - 1, cut);
        }
      }
    }
  }
}
