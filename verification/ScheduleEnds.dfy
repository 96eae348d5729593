/** A process that dies after the last item ended and before its Day did: when that happens, and whether the Day can still end. */
module ScheduleEnds {
  import opened Prelude
  import opened TokenUsage
  import opened ModelRouter
  import opened DaySchedule
  import opened ScheduleQueue
  import opened ScheduleHistory

  // ----- the end of an item -----

  /** After the save of an item's end the attempts go on as if nothing had been saved. */
  lemma {:induction false} EndedAfterEnd(cfg: Config, plan: Plan, s: Snapshot, i: nat, complexity: Complexity, failure: Option<Failure>, env: Env, n: nat)
    requires i < |s.queue| && Configured(cfg, s.queue)
    ensures var end := EndInAttempt(cfg, plan, s, i, complexity, failure, env, n);
            end.Some? ==> Executed(cfg, plan, s, i, complexity, failure, env) == Ended(plan, end.value.0, i, end.value.1)
    decreases n
  {
    hide RunOf, Charging, Called, Ended, Reviewed, DecisionFor;
    var run := RunOf(cfg, plan, s, i, complexity, failure, env);
    var t := Charging(run);
    if t.queue[i].repairLoops < plan.maxRepairLoops && n > 0 {
      EndedAfterEnd(cfg, plan, RepairBegun(Judgement(cfg, plan, t, env), i), i, NORMAL, Some(REASONING), env, n - 1);
    }
  }

  lemma ReviewLeavesOpen(s: Snapshot, i: nat, id: TaskId, why: Reason)
    requires Clean(s.queue) && OpenAt(s, i) && (id == SYSTEM || id == s.queue[i].taskId)
    ensures !Reviewed(s, id, why).queue[i].state.Settled()
  {
    hide Clean, IndexFrom;
    ReviewTouchesItsItem(s, i, why);
    OwnReviewsTouchNoItem(s, why);
  }

  /** Attempts that settle an item saved its end in one of them. */
  lemma {:induction false} EndBeforeSettled(cfg: Config, plan: Plan, s: Snapshot, i: nat, complexity: Complexity, failure: Option<Failure>, env: Env)
    returns (n: nat)
    requires i < |s.queue| && Configured(cfg, s.queue) && Clean(s.queue) && Tallied(s) && OpenAt(s, i)
    requires Executed(cfg, plan, s, i, complexity, failure, env).queue[i].state.Settled()
    ensures EndInAttempt(cfg, plan, s, i, complexity, failure, env, n).Some?
    decreases RepairsLeft(plan, s.queue, i), 1
  {
    hide RunOf, Charging, Called, Ended, Evaluated, Reviewed, DecisionFor, Clean, Tallied, Configured, SameTasks, RepairBegun;
    n := 0;
    assert s.queue[i].taskId in cfg.tasks by { ItemConfigured(cfg, s.queue, i); }
    RunIsSteady(cfg, plan, s, i, complexity, failure, env);
    var run := RunOf(cfg, plan, s, i, complexity, failure, env);
    var t := Charging(run);
    var id := s.queue[i].taskId;
    CleanStaysClean(s.queue, run.snapshot.queue);
    CleanStaysClean(s.queue, t.queue);
    ConfiguredStays(cfg, s.queue, t.queue);
    SameTask(s.queue, t.queue, i);
    ReviewLeavesOpen(run.snapshot, i, id, RoutingMissing);
    ReviewLeavesOpen(t, i, id, TaskAsks);
    if run.result.final == FinalComplete && cfg.tasks[id].independentEvaluator && (run.result.invoked ==> run.routes != []) {
      n := VerdictBeforeSettled(cfg, plan, t, i, run.result.guardFailed, env);
    }
  }

  /** Where an evaluation settles the item, either at once or in a repair that saved its end. */
  lemma {:induction false} VerdictBeforeSettled(cfg: Config, plan: Plan, s: Snapshot, i: nat, guardFailed: bool, env: Env)
    returns (n: nat)
    requires i < |s.queue| && Configured(cfg, s.queue) && Clean(s.queue) && Tallied(s) && OpenAt(s, i)
    requires Evaluated(cfg, plan, s, i, guardFailed, env).queue[i].state.Settled()
    ensures CallsEvaluator(cfg, plan, s, guardFailed) && plan.evaluator in cfg.evaluators && env.evaluator(s.evaluatorCalls).Judged?
    ensures env.evaluator(s.evaluatorCalls).verdict == Accept ==> n == 0
    ensures env.evaluator(s.evaluatorCalls).verdict != Accept ==>
              && n > 0 && env.evaluator(s.evaluatorCalls).verdict == Repair && s.queue[i].repairLoops < plan.maxRepairLoops
              && EndInAttempt(cfg, plan, RepairBegun(Judgement(cfg, plan, s, env), i), i, NORMAL, Some(REASONING), env, n - 1).Some?
    decreases RepairsLeft(plan, s.queue, i), 0
  {
    hide Reviewed, Ended, Executed, Clean, Tallied, Honest, SameTasks, Configured, DecisionFor, Called, RepairBegun, EndInAttempt;
    n := 0;
    var id := s.queue[i].taskId;
    var d := DecisionFor(cfg, plan, s.roles, EVALUATOR, plan.evaluator, NORMAL, None);
    ReviewLeavesOpen(s, i, id, SafetyFailure);
    ReviewLeavesOpen(s, i, id, ProviderNotConfigured(EVALUATOR));
    if d.Review? { ReviewLeavesOpen(s, i, SYSTEM, NotRouted(d.reason)); }
    var t := Judgement(cfg, plan, s, env);
    CallKeepsItem(cfg, plan, s, i, d, env);
    ReviewLeavesOpen(t, i, id, ProviderError(EVALUATOR));
    ReviewLeavesOpen(t, i, id, EvaluationAsks);
    if s.queue[i].repairLoops < plan.maxRepairLoops && env.evaluator(s.evaluatorCalls).Judged? && env.evaluator(s.evaluatorCalls).verdict == Repair {
      var u := RepairBegun(t, i);
      RepairIsSteady(cfg, plan, t, i);
      var m := EndBeforeSettled(cfg, plan, u, i, NORMAL, Some(REASONING), env);
      n := m + 1;
    }
  }

  /** The attempts at an item settle it exactly when one of them saved its end. */
  lemma SettledExactlyWhenEnded(cfg: Config, plan: Plan, s: Snapshot, i: nat, complexity: Complexity, failure: Option<Failure>, env: Env)
    requires i < |s.queue| && Configured(cfg, s.queue) && Clean(s.queue) && Tallied(s) && OpenAt(s, i)
    ensures Executed(cfg, plan, s, i, complexity, failure, env).queue[i].state.Settled() <==>
              exists n: nat :: EndInAttempt(cfg, plan, s, i, complexity, failure, env, n).Some?
  {
    hide Executed, EndInAttempt, Clean, Tallied, Configured, AllSuccessful, Successes, Percent;
    if Executed(cfg, plan, s, i, complexity, failure, env).queue[i].state.Settled() {
      var n := EndBeforeSettled(cfg, plan, s, i, complexity, failure, env);
    }
    forall n: nat | EndInAttempt(cfg, plan, s, i, complexity, failure, env, n).Some?
      ensures Executed(cfg, plan, s, i, complexity, failure, env).queue[i].state.Settled()
    {
      EndedAfterEnd(cfg, plan, s, i, complexity, failure, env, n);
    }
  }

  /** A turn goes on from the saved end of its item: the failure limit is checked, and the Day completes if all succeeded. */
  lemma TurnAfterEnd(cfg: Config, plan: Plan, s: Snapshot, env: Env, cut: Cut)
    requires Configured(cfg, s.queue)
    ensures var end := EndInTurn(cfg, plan, s, env, cut);
            end.Some? ==>
              && SavedInTurn(cfg, plan, s, env, cut) == Counted(end.value.0, end.value.1, end.value.2)
              && Processed(cfg, plan, s, env) == AfterTask(plan, SavedInTurn(cfg, plan, s, env, cut))
  {
    hide DecisionFor, Executed, EndInAttempt, Counted, AfterTask, Charged, Reviewed, Configured, EligibleFrom, RoleUsage.Plus;
    var end := EndInTurn(cfg, plan, s, env, cut);
    if end.Some? {
      var (t, i, choice) := ChosenInTurn(cfg, plan, s, env).value;
      if choice.RunTask? { EndedAfterEnd(cfg, plan, t, i, choice.complexity, None, env, cut.attempt); }
    }
  }

  // ----- dying at the last end -----

  /** The snapshot at the start of that turn of a run, if the run has so many turns. */
  function DeathTurn(cfg: Config, plan: Plan, s: Snapshot, env: Env, turns: nat): (r: Option<Snapshot>)
    requires Configured(cfg, s.queue)
    ensures r.Some? ==> SameTasks(s.queue, r.value.queue)
    decreases turns
  {
    if s.state != RUNNING || s.tasksProcessed >= plan.maxTasks then None
    else if turns == 0 then Some(s)
    else if s.mode == SingleStep then None
    else DeathTurn(cfg, plan, Processed(cfg, plan, s, env), env, turns - 1)
  }

  /** At that cut of the turn an item ends with success, and all others have succeeded before. */
  predicate LastEnds(cfg: Config, plan: Plan, s: Snapshot, env: Env, cut: Cut)
    requires Configured(cfg, s.queue)
  {
    var end := EndInTurn(cfg, plan, s, env, cut);
    && end.Some? && end.value.2.Successful()
    && forall k :: 0 <= k < |s.queue| && k != end.value.1 ==> s.queue[k].state.Successful()
  }

  predicate DiesAtLastEnd(cfg: Config, plan: Plan, s: Snapshot, env: Env, death: Death)
    requires Configured(cfg, s.queue)
  {
    var turn := DeathTurn(cfg, plan, s, env, death.turns);
    turn.Some? && LastEnds(cfg, plan, turn.value, env, death.cut)
  }

  /** What a death inside a turn leaves has all items successful, and the Day going on, exactly when the last item ended there. */
  lemma SavedTurnIsHonest(cfg: Config, plan: Plan, s: Snapshot, env: Env, cut: Cut)
    requires Configured(cfg, s.queue) && Clean(s.queue) && Tallied(s) && s.state != COMPLETE
    ensures LastEnds(cfg, plan, s, env, cut) ==> !Honest(SavedInTurn(cfg, plan, s, env, cut))
    ensures Honest(s) && !LastEnds(cfg, plan, s, env, cut) ==> Honest(SavedInTurn(cfg, plan, s, env, cut))
  {
    hide EndInTurn, ChosenInTurn, SavedInAttempt, Counted, Clean, Tallied, Configured, SameTasks;
    DeathKeepsSettled(cfg, plan, s, env, cut);
    EndKeepsSettled(cfg, plan, s, env, cut);
  }

  lemma {:induction false} DiedIsHonest(cfg: Config, plan: Plan, s: Snapshot, env: Env, death: Death)
    requires Configured(cfg, s.queue) && Clean(s.queue) && Tallied(s) && Sound(s)
    ensures var t := DiedAfter(cfg, plan, s, env, death.turns, death.cut);
            && (DiesAtLastEnd(cfg, plan, s, env, death) ==> !Honest(t))
            && (Honest(s) && !DiesAtLastEnd(cfg, plan, s, env, death) ==> Honest(t))
    decreases death.turns
  {
    hide Processed, SavedInTurn, LastEnds, Clean, Tallied, Configured, SameTasks, AllSuccessful;
    if s.state == RUNNING && s.tasksProcessed < plan.maxTasks {
      if death.turns == 0 {
        SavedTurnIsHonest(cfg, plan, s, env, death.cut);
      } else {
        var t := Processed(cfg, plan, s, env);
        ProcessedKeepsSettled(cfg, plan, s, env);
        if s.mode == Continuous {
          CleanStaysClean(s.queue, t.queue);
          ConfiguredStays(cfg, s.queue, t.queue);
          DiedIsHonest(cfg, plan, t, env, Death(death.turns - 1, death.cut));
        }
      }
    }
  }

  lemma RunIsHonest(cfg: Config, plan: Plan, s: Snapshot, env: Env, death: Option<Death>)
    requires Configured(cfg, s.queue) && Clean(s.queue) && Tallied(s) && Sound(s)
    ensures var t := Ran(cfg, plan, s, env, death);
            && (death.Some? && DiesAtLastEnd(cfg, plan, s, env, death.value) ==> !Honest(t))
            && (Honest(s) && !Honest(t) ==> death.Some? && DiesAtLastEnd(cfg, plan, s, env, death.value))
  {
    hide Advanced, DiedAfter, DiesAtLastEnd, Clean, Tallied, Configured, SameTasks, AllSuccessful;
    if death == None {
      AdvancedKeepsSettled(cfg, plan, s, env);
    } else {
      DiedIsHonest(cfg, plan, s, env, death.value);
    }
  }

  /** The operation starts or resumes a run whose process dies at the save of the last item's end. */
  predicate Strands(cfg: Config, s: Snapshot, op: Op)
    requires Configured(cfg, s.queue)
  {
    match op
    case Start(planId, mode, env, death) =>
      && death.Some? && StartRefusal(cfg, s, planId, mode) == None
      && DiesAtLastEnd(cfg, cfg.plans[planId], Launched(planId, cfg.plans[planId], mode), env, death.value)
    case Resume(mode, env, death) =>
      && death.Some? && ResumeRefusal(cfg, s, mode) == None
      && DiesAtLastEnd(cfg, cfg.plans[s.planId.value], Reopened(s, mode), env, death.value)
    case Stop => false
    case Restart => false
  }

  lemma OpIsHonest(cfg: Config, s: Snapshot, op: Op)
    requires Configured(cfg, s.queue) && DistinctPlans(cfg) && Clean(s.queue) && Tallied(s) && Sound(s) && s.state != RUNNING
    ensures Strands(cfg, s, op) ==> !Honest(After(cfg, s, op))
    ensures !Strands(cfg, s, op) && (Honest(s) || !SameDay(cfg, s, op)) ==> Honest(After(cfg, s, op))
  {
    hide Ran, Launched, DiesAtLastEnd, Configured, Clean, TasksKnown, Successes, Failures, Percent, SameTasks, DistinctTasks, Tallied,
         AllSuccessful;
    match op
    case Start(planId, mode, env, death) =>
      if StartRefusal(cfg, s, planId, mode) == None {
        LaunchedIsTallied(cfg, planId, cfg.plans[planId], mode);
        RunIsHonest(cfg, cfg.plans[planId], Launched(planId, cfg.plans[planId], mode), env, death);
      }
    case Resume(mode, env, death) =>
      if ResumeRefusal(cfg, s, mode) == None {
        SameTallies(s, Reopened(s, mode));
        RunIsHonest(cfg, cfg.plans[s.planId.value], Reopened(s, mode), env, death);
      }
    case Stop =>
    case Restart =>
  }

  // ----- over a history -----

  /** The `k`-th operation left its Day with all items successful and not COMPLETE, and no new Day was started since. */
  predicate StrandedBy(cfg: Config, ops: seq<Op>, k: nat)
    requires k < |ops|
  {
    Strands(cfg, AfterAll(cfg, ops[..k]), ops[k]) && OneDayFrom(cfg, ops, k + 1)
  }

  lemma StrandedStays(cfg: Config, ops: seq<Op>, n: nat, k: nat)
    requires k < n < |ops| && StrandedBy(cfg, ops[..n], k) && OneDayFrom(cfg, ops, n)
    ensures StrandedBy(cfg, ops, k)
  {
    hide AfterAll, Strands, SameDay;
    assert ops[..n][..k] == ops[..k];
    forall i | k + 1 <= i < |ops| ensures SameDay(cfg, AfterAll(cfg, ops[..i]), ops[i]) {
      if i < n { assert ops[..n][..i] == ops[..i]; }
    }
  }

  lemma StrandedNow(cfg: Config, ops: seq<Op>, n: nat)
    requires |ops| == n + 1 && Strands(cfg, AfterAll(cfg, ops[..n]), ops[n])
    ensures StrandedBy(cfg, ops, n)
  {
  }

  lemma NothingSucceeded()
    ensures Honest(FRESH)
  {
  }

  lemma StrandedIsSuccessful(cfg: Config, ops: seq<Op>, k: nat)
    requires DistinctPlans(cfg) && k < |ops| && StrandedBy(cfg, ops, k)
    ensures AllSuccessful(AfterAll(cfg, ops).queue)
  {
    hide After, Strands, SameDay, Clean, Tallied, DistinctPlans;
    var s := AfterAll(cfg, ops[..k]);
    RunsKeepTallies(cfg, ops[..k]);
    OpIsHonest(cfg, s, ops[k]);
    OpKeepsTallies(cfg, s, ops[k]);
    assert ops[..k + 1][..k] == ops[..k];
    SettledForTheDay(cfg, ops, k + 1);
  }

  /**
   * Over any history every item succeeded exactly when the Day is COMPLETE, or a run of this Day died between
   * the save of its last item's end and the save that completes it.
   */
  lemma {:induction false} SuccessfulExactly(cfg: Config, ops: seq<Op>)
    requires DistinctPlans(cfg)
    ensures var s := AfterAll(cfg, ops);
            AllSuccessful(s.queue) <==> s.state == COMPLETE || exists k: nat :: k < |ops| && StrandedBy(cfg, ops, k)
  {
    hide After, Strands, SameDay, AllSuccessful, Clean, Tallied, DistinctPlans, StrandedBy;
    RunsKeepTallies(cfg, ops);
    forall k: nat | k < |ops| && StrandedBy(cfg, ops, k) ensures AllSuccessful(AfterAll(cfg, ops).queue) {
      StrandedIsSuccessful(cfg, ops, k);
    }
    if ops != [] && !Honest(AfterAll(cfg, ops)) {
      var n := |ops| - 1;
      var s := AfterAll(cfg, ops[..n]);
      RunsKeepTallies(cfg, ops[..n]);
      OpIsHonest(cfg, s, ops[n]);
      if Strands(cfg, s, ops[n]) {
        StrandedNow(cfg, ops, n);
      } else {
        SuccessfulExactly(cfg, ops[..n]);
        var k: nat :| k < n && StrandedBy(cfg, ops[..n], k);
        StrandedStays(cfg, ops, n, k);
      }
    }
    NothingSucceeded();
  }

  // ----- whether such a Day can still end -----

  /** A resume would reach the architect. */
  predicate Completable(cfg: Config, s: Snapshot) {
    && (s.state == PAUSED || s.state == STOPPED) && s.planId.Some? && s.planId.value in cfg.plans
    && 0 < cfg.plans[s.planId.value].maxTasks && CallsArchitect(cfg, cfg.plans[s.planId.value], s)
  }

  /** Every item succeeded, but the Day is not COMPLETE. */
  predicate Stranded(s: Snapshot) {
    Clean(s.queue) && AllSuccessful(s.queue) && s.state != COMPLETE && s.state != RUNNING
  }

  lemma SameSpendingSameCall(cfg: Config, plan: Plan, s: Snapshot, t: Snapshot)
    requires t.architectCalls == s.architectCalls && t.roles == s.roles
    ensures CallsArchitect(cfg, plan, s) == CallsArchitect(cfg, plan, t)
  {
    hide DecisionFor;
  }

  /** Without an architect call a turn spends nothing and takes no item, and the Day does not go on. */
  lemma NoCallNoTurn(cfg: Config, plan: Plan, s: Snapshot, env: Env)
    requires Configured(cfg, s.queue) && Clean(s.queue) && !CallsArchitect(cfg, plan, s)
    ensures var t := Processed(cfg, plan, s, env);
            && t == s.(state := t.state, stopReason := t.stopReason, reviews := t.reviews)
            && (t.state == STOPPED || t.state == HUMAN_REVIEW)
  {
    hide DecisionFor, Followed, Clean, Configured, IndexFrom, WithItem;
    var d := DecisionFor(cfg, plan, s.roles, ARCHITECT, plan.architect, NORMAL, None);
    if d.Review? { OwnReviewsTouchNoItem(s, NotRouted(d.reason)); }
    OwnReviewsTouchNoItem(s, ProviderNotConfigured(ARCHITECT));
  }

  lemma NoCallNoRun(cfg: Config, plan: Plan, s: Snapshot, env: Env, death: Option<Death>)
    requires Configured(cfg, s.queue) && Clean(s.queue) && s.state == RUNNING && s.tasksProcessed == 0
    requires plan.maxTasks == 0 || !CallsArchitect(cfg, plan, s)
    ensures var t := Ran(cfg, plan, s, env, death);
            && t == s.(state := t.state, stopReason := t.stopReason, reviews := t.reviews)
            && (t.state == STOPPED || t.state == HUMAN_REVIEW || t.state == PAUSED)
  {
    hide Processed, CallsArchitect, Clean, Configured, AllSuccessful, EndInAttempt, SavedInAttempt;
    if plan.maxTasks > 0 {
      NoCallNoTurn(cfg, plan, s, env);
      if death.Some? { NoCallNoEnd(cfg, plan, s, env, death.value); }
    }
  }

  lemma NoCallNoEnd(cfg: Config, plan: Plan, s: Snapshot, env: Env, death: Death)
    requires Configured(cfg, s.queue) && s.state == RUNNING && s.tasksProcessed < plan.maxTasks
    requires !CallsArchitect(cfg, plan, s) && Processed(cfg, plan, s, env).state != RUNNING
    ensures DiedAfter(cfg, plan, s, env, death.turns, death.cut) == if death.turns == 0 then s else Processed(cfg, plan, s, env)
  {
    hide Processed, CallsArchitect, Configured, EndInAttempt, SavedInAttempt;
    assert ChosenInTurn(cfg, plan, s, env) == None;
  }

  lemma StuckStaysStuck(cfg: Config, s: Snapshot, op: Op)
    requires Configured(cfg, s.queue) && Stranded(s) && !Completable(cfg, s) && SameDay(cfg, s, op)
    ensures Stranded(After(cfg, s, op)) && !Completable(cfg, After(cfg, s, op))
  {
    hide Ran, CallsArchitect, Clean, Configured, AllSuccessful, Launched, TasksKnown;
    if op.Resume? && ResumeRefusal(cfg, s, op.resumeMode) == None {
      var plan := cfg.plans[s.planId.value];
      var r := Reopened(s, op.resumeMode);
      SameSpendingSameCall(cfg, plan, s, r);
      NoCallNoRun(cfg, plan, r, op.answers, op.death);
      SameSpendingSameCall(cfg, plan, s, After(cfg, s, op));
    } else {
      var t := After(cfg, s, op);
      if s.planId.Some? && s.planId.value in cfg.plans { SameSpendingSameCall(cfg, cfg.plans[s.planId.value], s, t); }
    }
  }

  /** However such a Day goes on, it is never COMPLETE. */
  lemma {:induction false} StuckForTheDay(cfg: Config, ops: seq<Op>, k: nat)
    requires k <= |ops| && OneDayFrom(cfg, ops, k)
    requires Stranded(AfterAll(cfg, ops[..k])) && !Completable(cfg, AfterAll(cfg, ops[..k]))
    ensures Stranded(AfterAll(cfg, ops)) && !Completable(cfg, AfterAll(cfg, ops))
    decreases |ops|
  {
    hide After, Stranded, Completable, SameDay;
    if k == |ops| {
      assert ops[..k] == ops;
    } else {
      var n := |ops| - 1;
      assert ops[..n][..k] == ops[..k];
      assert forall i :: k <= i < n ==> ops[..n][..i] == ops[..i];
      StuckForTheDay(cfg, ops[..n], k);
      StuckStaysStuck(cfg, AfterAll(cfg, ops[..n]), ops[n]);
    }
  }

  function SaysComplete(): Env {
    Env(_ => Chose(DayComplete, None, NoUsage), _ => EvaluatorError, (_, _) => 0, (_, _, _, _) => TaskResult(FinalOther, false, 0, NoUsage, false))
  }

  /** An architect that says the Day is complete completes it. */
  lemma ResumeCompletes(cfg: Config, s: Snapshot)
    requires Configured(cfg, s.queue) && Stranded(s) && Completable(cfg, s)
    ensures After(cfg, s, Resume(Some(SingleStep), SaysComplete(), None)).state == COMPLETE
  {
    hide DecisionFor, AllSuccessful, Percent, Successes, Configured, Clean, Charged, RoleUsage.Plus;
    var plan := cfg.plans[s.planId.value];
    var r := Reopened(s, Some(SingleStep));
    SameSpendingSameCall(cfg, plan, s, r);
    assert SaysComplete().architect(r.architectCalls) == Chose(DayComplete, None, NoUsage);
    assert Processed(cfg, plan, r, SaysComplete()).state == COMPLETE;
  }

  /** A Day left with all items successful can still become COMPLETE exactly when a resume would reach the architect. */
  lemma StrandedDayCanEnd(cfg: Config, ops: seq<Op>)
    requires Stranded(AfterAll(cfg, ops))
    ensures Completable(cfg, AfterAll(cfg, ops)) <==>
              exists more: seq<Op> :: OneDayFrom(cfg, ops + more, |ops|) && AfterAll(cfg, ops + more).state == COMPLETE
  {
    hide After, AfterAll, Completable, SameDay, Clean, AllSuccessful, OneDayFrom;
    var s := AfterAll(cfg, ops);
    if Completable(cfg, s) {
      var op := Resume(Some(SingleStep), SaysComplete(), None);
      ResumeCompletes(cfg, s);
      OneMoreOp(cfg, ops, op);
      assert AfterAll(cfg, ops + [op]).state == COMPLETE;
    } else {
      forall more: seq<Op> | OneDayFrom(cfg, ops + more, |ops|) ensures AfterAll(cfg, ops + more).state != COMPLETE {
        assert (ops + more)[..|ops|] == ops;
        StuckForTheDay(cfg, ops + more, |ops|);
      }
    }
  }

  lemma OneMoreOp(cfg: Config, ops: seq<Op>, op: Op)
    requires !op.Start?
    ensures OneDayFrom(cfg, ops + [op], |ops|) && AfterAll(cfg, ops + [op]) == After(cfg, AfterAll(cfg, ops), op)
  {
    hide After;
    assert (ops + [op])[..|ops|] == ops;
  }

  // ----- a Day whose only architect call ends its only task -----

  const ONE_CALL := OPEN_PLAN.(taskIds := ["b"], maxArchitect := 1)
  const ONE_TASK := NAMED_LIKE_SYSTEM.(plans := map["plan" := ONE_CALL], tasks := map["b" := Task(false, false)])

  function SkipsOnly(): Env {
    Env(_ => Chose(SkipTask, Some("b"), NoUsage), _ => EvaluatorError, (_, _) => 0, (_, _, _, _) => TaskResult(FinalOther, false, 0, NoUsage, false))
  }

  lemma OnlyCallIsRouted()
    ensures DecisionFor(ONE_TASK, ONE_CALL, NoRoleUsage, ARCHITECT, Mock, NORMAL, None) == Selected(ARCHITECT, Some(STANDARD), Mock, None, 1)
  {
    hide Select, NoRoleUsage;
    ArchitectIsRouted(NoRoleUsage);
    assert RemainingFor(ONE_TASK, NoRoleUsage, ARCHITECT) == RemainingFor(NAMED_LIKE_SYSTEM, NoRoleUsage, ARCHITECT);
  }

  const DONE := [Item("b", Skipped, 0, 0)]

  lemma DoneIsDone()
    ensures Percent(Successes(DONE), 1) == 10000 && AllSuccessful(DONE) && Clean(DONE)
  {
    assert DONE[..0] == [];
    AllDone(1);
  }

  /** What that call chooses, and what ending the task leaves. */
  lemma OnlyCallSkips()
    ensures var s := Launched("plan", ONE_CALL, SingleStep);
            && CallsArchitect(ONE_TASK, ONE_CALL, s) && s.queue == [OTHER_TASK]
            && var chosen := ChosenInTurn(ONE_TASK, ONE_CALL, s, SkipsOnly());
               && chosen.Some? && chosen.value.1 == 0 && chosen.value.2 == SkipTask
               && var t := Counted(chosen.value.0, 0, Skipped);
                  && t.queue == DONE && t.progress == 10000 && t.state == RUNNING && t.architectCalls == 1
                  && t.failedTasks == 0 && t.planId == Some("plan")
  {
    hide DecisionFor, Charged, Percent, Successes, RoleUsage.Plus;
    OnlyCallIsRouted();
    DoneIsDone();
    var s := Launched("plan", ONE_CALL, SingleStep);
    assert s.queue == [OTHER_TASK];
    var chosen := ChosenInTurn(ONE_TASK, ONE_CALL, s, SkipsOnly());
    assert EligibleFrom(s.queue, Some("b"), 0) == Some(0);
    assert WithItem(s.queue, 0, Skipped) == DONE;
  }

  const LAST_CALL := Start("plan", SingleStep, SkipsOnly(), Some(Death(0, AtEnd(0))))

  lemma OnlyCallCompletes()
    ensures Started(ONE_TASK, FRESH, "plan", SingleStep, SkipsOnly()).state == COMPLETE
  {
    hide ChosenInTurn, CallsArchitect, Counted, AllSuccessful, Clean, Processed, Successes, Percent;
    var s := Launched("plan", ONE_CALL, SingleStep);
    OnlyCallSkips();
    DoneIsDone();
    TurnAfterEnd(ONE_TASK, ONE_CALL, s, SkipsOnly(), AtEnd(0));
    assert Processed(ONE_TASK, ONE_CALL, s, SkipsOnly()).state == COMPLETE;
  }

  lemma LastCallSaves()
    ensures var s := After(ONE_TASK, FRESH, LAST_CALL);
            s.queue == DONE && s.progress == 10000 && s.state == PAUSED && s.stopReason == Some(Interrupted)
            && Stranded(s) && !Completable(ONE_TASK, s)
  {
    hide ChosenInTurn, Counted, AllSuccessful, Clean, Processed, Successes, Percent, DecisionFor;
    OnlyCallSkips();
    DoneIsDone();
    assert StartRefusal(ONE_TASK, FRESH, "plan", SingleStep) == None;
  }

  /**
   * The task is skipped with the only architect call, and the process dies at that save: progress reads 100,
   * and the Day can never become COMPLETE.  Without the death it is COMPLETE at once.
   */
  lemma LastCallStrands()
    ensures Started(ONE_TASK, FRESH, "plan", SingleStep, SkipsOnly()).state == COMPLETE
    ensures var s := AfterAll(ONE_TASK, [LAST_CALL]);
            && AllSuccessful(s.queue) && s.progress == 10000 && s.state == PAUSED && s.stopReason == Some(Interrupted)
            && forall more: seq<Op> :: OneDayFrom(ONE_TASK, [LAST_CALL] + more, 1) ==> AfterAll(ONE_TASK, [LAST_CALL] + more).state != COMPLETE
  {
    hide After, AllSuccessful, Clean, Started, Completable, SameDay;
    OnlyCallCompletes();
    LastCallSaves();
    DoneIsDone();
    var ops := [LAST_CALL];
    assert AfterAll(ONE_TASK, ops) == After(ONE_TASK, FRESH, LAST_CALL) by { assert ops[..0] == []; }
    forall more: seq<Op> | OneDayFrom(ONE_TASK, ops + more, 1) ensures AfterAll(ONE_TASK, ops + more).state != COMPLETE {
      assert (ops + more)[..1] == ops;
      StuckForTheDay(ONE_TASK, ops + more, 1);
    }
  }
}
