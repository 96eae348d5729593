/** With a router, what is charged to profiles adds up to what is charged to roles. */
module ScheduleTokens {
  import opened Prelude
  import opened TokenUsage
  import opened ModelRouter
  import opened DaySchedule

  /** The executor reports Codex tokens only after it invoked Codex on a profile it was given. */
  ghost predicate RoutesFirst(env: Env) {
    forall i: nat, n: nat, cap: int, routes: seq<Decision> ::
      var r := env.result(i, n, cap, routes); r.usage == NoUsage || (r.invoked && routes != [])
  }

  /** No call reports more cached input than input. */
  ghost predicate SplitReports(env: Env) {
    && (forall i: nat, n: nat, cap: int, routes: seq<Decision> :: env.result(i, n, cap, routes).usage.Split())
    && (forall k: nat :: env.architect(k).Chose? ==> env.architect(k).usage.Split())
    && (forall k: nat :: env.evaluator(k).Judged? ==> env.evaluator(k).usage.Split())
  }

  predicate SplitRoles(r: RoleUsage) { r.architect.Split() && r.codex.Split() && r.evaluator.Split() }

  predicate Balanced(roles: RoleUsage, profiles: ProfileUsage, split: bool) {
    && roles.Total().gross == profiles.Total().gross && roles.Total().cached == profiles.Total().cached
    && roles.Total().output == profiles.Total().output
    && (split ==> SplitRoles(roles) && roles.Total().uncached == profiles.Total().uncached)
  }

  /** Gross, cached and output tokens agree; uncached ones too when every report is split. */
  predicate Conserved(s: Snapshot, split: bool) { Balanced(s.roles, s.profiles, split) }

  lemma EmptyTallies()
    ensures TallyOf(NoUsage) == EmptyTally && EmptyTally.Plus(EmptyTally) == EmptyTally
  {
    hide Tally.Plus, TallyOf;
    AddNothing(EmptyTally, 0);
    TallyNothing(NoUsage, 0);
  }

  lemma AddNothing(t: Tally, zero: nat)
    requires zero == 0
    ensures t.Plus(Tally(zero, zero, zero, zero)) == t
  {
  }

  lemma TallyNothing(u: Usage, zero: nat)
    requires zero == 0 && u == Usage(zero, zero, zero)
    ensures TallyOf(u) == Tally(zero, zero, zero, zero)
  {
  }

  lemma NothingBalances(split: bool)
    ensures Balanced(NoRoleUsage, NoProfileUsage, split)
  {
    hide Tally.Plus, TallyOf, NoUsage, EmptyTally;
    EmptyTallies();
    assert NoUsage.Split() by { NothingSplits(); }
  }

  lemma NothingSplits()
    ensures NoUsage.Split()
  {
  }

  lemma RoleTotals(roles: RoleUsage, role: Role, u: Usage)
    ensures var t := roles.Plus(role, u).Total();
            && t.gross == roles.Total().gross + u.input && t.cached == roles.Total().cached + u.cached
            && t.output == roles.Total().output + u.output
            && (SplitRoles(roles) && u.Split() ==> t.uncached == roles.Total().uncached + u.Uncached())
            && (SplitRoles(roles) && u.Split() ==> SplitRoles(roles.Plus(role, u)))
  {
  }

  lemma ProfileTotals(profiles: ProfileUsage, p: ProfileId, u: Usage)
    ensures Charged(profiles, p, u).Total() == profiles.Total().Plus(TallyOf(u))
  {
  }

  /** One report counted for a role and charged to a profile keeps the balance. */
  lemma ChargeKeepsBalance(roles: RoleUsage, profiles: ProfileUsage, role: Role, p: ProfileId, u: Usage, split: bool)
    requires Balanced(roles, profiles, split) && (split ==> u.Split())
    ensures Balanced(roles.Plus(role, u), Charged(profiles, p, u), split)
  {
    hide RoleUsage.Total, RoleUsage.Plus, ProfileUsage.Total, Charged, SplitRoles;
    RoleTotals(roles, role, u);
    ProfileTotals(profiles, p, u);
  }

  lemma PairKeepsBalance(s: Snapshot, role: Role, d: Decision, u: Usage, split: bool)
    requires Conserved(s, split) && d.Selected? && d.profile.Some? && (split ==> u.Split())
    ensures Conserved(ChargedTo(Used(s, role, u), d, u), split)
  {
    hide Balanced, Charged;
    ChargeKeepsBalance(s.roles, s.profiles, role, d.profile.value, u, split);
  }

  lemma NothingKeepsBalance(roles: RoleUsage, profiles: ProfileUsage, role: Role, split: bool)
    requires Balanced(roles, profiles, split)
    ensures Balanced(roles.Plus(role, NoUsage), profiles, split)
  {
    hide RoleUsage.Total, RoleUsage.Plus, ProfileUsage.Total, SplitRoles;
    RoleTotals(roles, role, NoUsage);
  }

  /** A router's decision is either a review or names the profile to charge. */
  lemma RouterNamesAProfile(cfg: Config, plan: Plan, roles: RoleUsage, role: Role, provider: Provider, complexity: Complexity, failure: Option<Failure>)
    requires cfg.router.Some?
    ensures var d := DecisionFor(cfg, plan, roles, role, provider, complexity, failure); d.Selected? ==> d.profile.Some?
  {
    hide Preferred, Lower, RemainingFor, Chosen, Resolved;
  }

  /**
   * One attempt keeps the balance exactly when the executor reported nothing, or charged it to a profile:
   * tokens of an invocation without a routing decision are counted for the role only.
   */
  lemma AttemptBalances(run: Run, before: RoleUsage)
    requires Balanced(before, run.snapshot.profiles, false) && run.snapshot.roles == before.Plus(CODEX, run.result.usage)
    requires forall k :: 0 <= k < |run.routes| ==> run.routes[k].Selected? && run.routes[k].profile.Some?
    ensures Conserved(Charging(run), false) <==> run.result.usage == NoUsage || (run.result.invoked && run.routes != [])
  {
    hide Charged;
    if run.result.invoked && run.routes != [] {
      ChargeKeepsBalance(before, run.snapshot.profiles, CODEX, run.routes[|run.routes| - 1].profile.value, run.result.usage, false);
    }
  }

  lemma RunKeepsBalance(cfg: Config, plan: Plan, s: Snapshot, i: nat, complexity: Complexity, failure: Option<Failure>, env: Env, split: bool)
    requires i < |s.queue| && cfg.router.Some? && Conserved(s, split) && RoutesFirst(env) && (split ==> SplitReports(env))
    ensures var run := RunOf(cfg, plan, s, i, complexity, failure, env);
            && Conserved(Charging(run), split) && (run.result.invoked && run.routes == [] ==> Conserved(run.snapshot, split))
  {
    hide CodexRouted, DecisionFor, Balanced, Charged, SameTasks, RepairsLeft;
    var d := DecisionFor(cfg, plan, s.roles, CODEX, Codex, complexity, failure);
    RouterNamesAProfile(cfg, plan, s.roles, CODEX, Codex, complexity, failure);
    var run := RunOf(cfg, plan, s, i, complexity, failure, env);
    assert run.snapshot.roles == s.roles.Plus(CODEX, run.result.usage) && run.snapshot.profiles == s.profiles;
    if run.result.invoked && run.routes != [] {
      assert run.routes[|run.routes| - 1] == d;
      ChargeKeepsBalance(s.roles, s.profiles, CODEX, d.profile.value, run.result.usage, split);
    } else {
      assert run.result.usage == NoUsage;
      NothingKeepsBalance(s.roles, s.profiles, CODEX, split);
    }
  }

  lemma PiecesKeepBalance(plan: Plan, s: Snapshot, id: TaskId, why: Reason, i: nat, state: ItemState, split: bool)
    requires Conserved(s, split)
    ensures Conserved(Reviewed(s, id, why), split)
    ensures Conserved(Counted(s, i, state), split) && Conserved(Ended(plan, s, i, state), split)
    ensures Conserved(Replanned(plan, s, why), split)
  {
    hide Percent, IndexFrom, AllSuccessful, Successes, Balanced;
  }

  lemma {:induction false} ExecutedKeepsBalance(cfg: Config, plan: Plan, s: Snapshot, i: nat, complexity: Complexity, failure: Option<Failure>, env: Env, split: bool)
    requires i < |s.queue| && Configured(cfg, s.queue)
    requires cfg.router.Some? && Conserved(s, split) && RoutesFirst(env) && (split ==> SplitReports(env))
    ensures Conserved(Executed(cfg, plan, s, i, complexity, failure, env), split)
    decreases RepairsLeft(plan, s.queue, i), 1
  {
    hide RunOf, Charging, Reviewed, Ended, Evaluated, RoutesFirst, SplitReports, Balanced;
    var id := s.queue[i].taskId;
    if !(cfg.tasks[id].requiresCodex && s.codexCalls >= plan.maxCodex) {
      RunKeepsBalance(cfg, plan, s, i, complexity, failure, env, split);
      var run := RunOf(cfg, plan, s, i, complexity, failure, env);
      if run.result.invoked && run.routes == [] {
        PiecesKeepBalance(plan, run.snapshot, id, RoutingMissing, i, Pass, split);
      } else {
        var t := Charging(run);
        match run.result.final
        case FinalNoChange => PiecesKeepBalance(plan, t, id, TaskAsks, i, CompleteNoChange, split);
        case FinalComplete =>
          PiecesKeepBalance(plan, t, id, TaskAsks, i, Pass, split);
          EvaluatedKeepsBalance(cfg, plan, t, i, run.result.guardFailed, env, split);
        case FinalReview => PiecesKeepBalance(plan, t, id, TaskAsks, i, Pass, split);
        case FinalOther => PiecesKeepBalance(plan, t, id, TaskAsks, i, Failed, split);
      }
    }
  }

  lemma {:induction false} EvaluatedKeepsBalance(cfg: Config, plan: Plan, s: Snapshot, i: nat, guardFailed: bool, env: Env, split: bool)
    requires i < |s.queue| && Configured(cfg, s.queue)
    requires cfg.router.Some? && Conserved(s, split) && RoutesFirst(env) && (split ==> SplitReports(env))
    ensures Conserved(Evaluated(cfg, plan, s, i, guardFailed, env), split)
    decreases RepairsLeft(plan, s.queue, i), 0
  {
    hide Reviewed, Ended, Executed, RoutesFirst, DecisionFor, Balanced, Charged;
    var id := s.queue[i].taskId;
    var d := DecisionFor(cfg, plan, s.roles, EVALUATOR, plan.evaluator, NORMAL, None);
    RouterNamesAProfile(cfg, plan, s.roles, EVALUATOR, plan.evaluator, NORMAL, None);
    PiecesKeepBalance(plan, s, id, SafetyFailure, i, Pass, split);
    PiecesKeepBalance(plan, s, id, ProviderNotConfigured(EVALUATOR), i, Pass, split);
    if d.Review? {
      PiecesKeepBalance(plan, s, SYSTEM, NotRouted(d.reason), i, Pass, split);
    } else {
      var called := s.(evaluatorCalls := s.evaluatorCalls + 1);
      match env.evaluator(s.evaluatorCalls)
      case EvaluatorError => PiecesKeepBalance(plan, called, id, ProviderError(EVALUATOR), i, Pass, split);
      case Judged(verdict, u) =>
        assert split ==> u.Split() by { assert env.evaluator(s.evaluatorCalls).Judged?; }
        PairKeepsBalance(called, EVALUATOR, d, u, split);
        var t := ChargedTo(Used(called, EVALUATOR, u), d, u);
        PiecesKeepBalance(plan, t, id, EvaluationAsks, i, Pass, split);
        if s.queue[i].repairLoops < plan.maxRepairLoops {
          ExecutedKeepsBalance(cfg, plan, RepairBegun(t, i), i, NORMAL, Some(REASONING), env, split);
        }
    }
  }

  lemma FollowedKeepsBalance(cfg: Config, plan: Plan, s: Snapshot, choice: Choice, id: Option<TaskId>, env: Env, split: bool)
    requires Configured(cfg, s.queue)
    requires cfg.router.Some? && Conserved(s, split) && RoutesFirst(env) && (split ==> SplitReports(env))
    ensures Conserved(Followed(cfg, plan, s, choice, id, env), split)
  {
    hide Reviewed, Ended, Executed, RoutesFirst, SplitReports, Balanced, EligibleFrom, Replanned, AllSuccessful, Successes, Percent;
    var i := EligibleFrom(s.queue, id, 0);
    PiecesKeepBalance(plan, s, if id.Some? then id.value else SYSTEM, ArchitectAsks, if i.Some? then i.value else 0, Skipped, split);
    PiecesKeepBalance(plan, s, SYSTEM, InvalidTask, 0, Skipped, split);
    PiecesKeepBalance(plan, s, SYSTEM, PrematureComplete, 0, Skipped, split);
    if i.Some? && choice.RunTask? {
      ExecutedKeepsBalance(cfg, plan, s, i.value, choice.complexity, None, env, split);
    }
  }

  lemma ProcessedKeepsBalance(cfg: Config, plan: Plan, s: Snapshot, env: Env, split: bool)
    requires Configured(cfg, s.queue)
    requires cfg.router.Some? && Conserved(s, split) && RoutesFirst(env) && (split ==> SplitReports(env))
    ensures Conserved(Processed(cfg, plan, s, env), split)
  {
    hide Reviewed, Followed, RoutesFirst, DecisionFor, Balanced, Charged;
    var d := DecisionFor(cfg, plan, s.roles, ARCHITECT, plan.architect, NORMAL, None);
    RouterNamesAProfile(cfg, plan, s.roles, ARCHITECT, plan.architect, NORMAL, None);
    if d.Review? {
      PiecesKeepBalance(plan, s, SYSTEM, NotRouted(d.reason), 0, Pass, split);
    } else {
      var called := s.(architectCalls := s.architectCalls + 1);
      PiecesKeepBalance(plan, s, SYSTEM, ProviderNotConfigured(ARCHITECT), 0, Pass, split);
      match env.architect(s.architectCalls)
      case ArchitectError(_) => PiecesKeepBalance(plan, called, SYSTEM, ProviderError(ARCHITECT), 0, Pass, split);
      case Chose(choice, id, u) =>
        assert split ==> u.Split() by { assert env.architect(s.architectCalls).Chose?; }
        PairKeepsBalance(called, ARCHITECT, d, u, split);
        FollowedKeepsBalance(cfg, plan, ChargedTo(Used(called, ARCHITECT, u), d, u), choice, id, env, split);
    }
  }

  lemma {:induction false} AdvancedKeepsBalance(cfg: Config, plan: Plan, s: Snapshot, env: Env, split: bool)
    requires Configured(cfg, s.queue)
    requires cfg.router.Some? && Conserved(s, split) && RoutesFirst(env) && (split ==> SplitReports(env))
    ensures Conserved(Advanced(cfg, plan, s, env), split)
    decreases Minus(plan.maxArchitect, s.architectCalls), s.state == RUNNING
  {
    hide Processed, RoutesFirst, SplitReports, Balanced, AllSuccessful, Successes, Percent;
    if s.state == RUNNING && s.tasksProcessed < plan.maxTasks {
      var t := Processed(cfg, plan, s, env);
      ProcessedKeepsBalance(cfg, plan, s, env, split);
      if t.state == RUNNING && s.mode == Continuous {
        AdvancedKeepsBalance(cfg, plan, t, env, split);
      }
    }
  }

  // ----- a process that dies -----

  lemma CallKeepsBalance(cfg: Config, plan: Plan, s: Snapshot, i: nat, env: Env, split: bool)
    requires i < |s.queue| && cfg.router.Some? && Conserved(s, split) && (split ==> SplitReports(env))
    requires env.evaluator(s.evaluatorCalls).Judged?
    ensures var d := DecisionFor(cfg, plan, s.roles, EVALUATOR, plan.evaluator, NORMAL, None);
            d.Selected? ==> Conserved(Called(cfg, plan, s, d, env), split) && Called(cfg, plan, s, d, env).queue == s.queue
  {
    hide DecisionFor, Balanced, Charged;
    RouterNamesAProfile(cfg, plan, s.roles, EVALUATOR, plan.evaluator, NORMAL, None);
    var d := DecisionFor(cfg, plan, s.roles, EVALUATOR, plan.evaluator, NORMAL, None);
    if d.Selected? {
      PairKeepsBalance(s.(evaluatorCalls := s.evaluatorCalls + 1), EVALUATOR, d, env.evaluator(s.evaluatorCalls).usage, split);
    }
  }

  lemma {:induction false} SavedKeepsBalance(cfg: Config, plan: Plan, s: Snapshot, i: nat, complexity: Complexity, failure: Option<Failure>, env: Env, n: nat, at: Point, split: bool)
    requires i < |s.queue| && Configured(cfg, s.queue)
    requires cfg.router.Some? && Conserved(s, split) && RoutesFirst(env) && (split ==> SplitReports(env))
    ensures Conserved(SavedInAttempt(cfg, plan, s, i, complexity, failure, env, n, at), split)
    decreases n
  {
    hide RunOf, Charging, Executed, Called, DecisionFor, RoutesFirst, SplitReports, Balanced;
    ExecutedKeepsBalance(cfg, plan, s, i, complexity, failure, env, split);
    RunKeepsBalance(cfg, plan, s, i, complexity, failure, env, split);
    var run := RunOf(cfg, plan, s, i, complexity, failure, env);
    var t := Charging(run);
    var d := DecisionFor(cfg, plan, t.roles, EVALUATOR, plan.evaluator, NORMAL, None);
    if CallsEvaluator(cfg, plan, t, run.result.guardFailed) && StartsRepair(cfg, plan, t, i, env) {
      CallKeepsBalance(cfg, plan, t, i, env, split);
      if n > 0 {
        SavedKeepsBalance(cfg, plan, RepairBegun(Called(cfg, plan, t, d, env), i), i, NORMAL, Some(REASONING), env, n - 1, at, split);
      }
    }
  }

  lemma {:induction false} EndKeepsBalance(cfg: Config, plan: Plan, s: Snapshot, i: nat, complexity: Complexity, failure: Option<Failure>, env: Env, n: nat, split: bool)
    requires i < |s.queue| && Configured(cfg, s.queue)
    requires cfg.router.Some? && Conserved(s, split) && RoutesFirst(env) && (split ==> SplitReports(env))
    ensures var end := EndInAttempt(cfg, plan, s, i, complexity, failure, env, n); end.Some? ==> Conserved(end.value.0, split)
    decreases n
  {
    hide RunOf, Charging, Called, DecisionFor, RoutesFirst, SplitReports, Balanced;
    RunKeepsBalance(cfg, plan, s, i, complexity, failure, env, split);
    var run := RunOf(cfg, plan, s, i, complexity, failure, env);
    var t := Charging(run);
    if CallsEvaluator(cfg, plan, t, run.result.guardFailed) && env.evaluator(t.evaluatorCalls).Judged? {
      CallKeepsBalance(cfg, plan, t, i, env, split);
      if n > 0 {
        EndKeepsBalance(cfg, plan, RepairBegun(Judgement(cfg, plan, t, env), i), i, NORMAL, Some(REASONING), env, n - 1, split);
      }
    }
  }

  lemma ChoiceKeepsBalance(cfg: Config, plan: Plan, s: Snapshot, env: Env, split: bool)
    requires cfg.router.Some? && Conserved(s, split) && (split ==> SplitReports(env))
    ensures var chosen := ChosenInTurn(cfg, plan, s, env); chosen.Some? ==> Conserved(chosen.value.0, split)
  {
    hide DecisionFor, Balanced, Charged, EligibleFrom;
    if ChosenInTurn(cfg, plan, s, env).Some? {
      var u := env.architect(s.architectCalls).usage;
      RouterNamesAProfile(cfg, plan, s.roles, ARCHITECT, plan.architect, NORMAL, None);
      PairKeepsBalance(s.(architectCalls := s.architectCalls + 1), ARCHITECT,
                       DecisionFor(cfg, plan, s.roles, ARCHITECT, plan.architect, NORMAL, None), u, split);
    }
  }

  lemma DeathKeepsBalance(cfg: Config, plan: Plan, s: Snapshot, env: Env, cut: Cut, split: bool)
    requires Configured(cfg, s.queue)
    requires cfg.router.Some? && Conserved(s, split) && RoutesFirst(env) && (split ==> SplitReports(env))
    ensures Conserved(SavedInTurn(cfg, plan, s, env, cut), split)
  {
    hide SavedInAttempt, EndInAttempt, ChosenInTurn, RoutesFirst, SplitReports, Balanced, Counted;
    var chosen := ChosenInTurn(cfg, plan, s, env);
    ChoiceKeepsBalance(cfg, plan, s, env, split);
    if chosen.Some? {
      var (t, i, choice) := chosen.value;
      match cut
      case BetweenTurns =>
      case InAttempt(n, at) =>
        if choice.RunTask? { SavedKeepsBalance(cfg, plan, t, i, choice.complexity, None, env, n, at, split); }
      case AtEnd(n) =>
        if choice.RunTask? { EndKeepsBalance(cfg, plan, t, i, choice.complexity, None, env, n, split); }
        var end := EndInTurn(cfg, plan, s, env, cut);
        if end.Some? { PiecesKeepBalance(plan, end.value.0, SYSTEM, Interrupted, end.value.1, end.value.2, split); }
    }
  }

  lemma {:induction false} DiedKeepsBalance(cfg: Config, plan: Plan, s: Snapshot, env: Env, turns: nat, cut: Cut, split: bool)
    requires Configured(cfg, s.queue)
    requires cfg.router.Some? && Conserved(s, split) && RoutesFirst(env) && (split ==> SplitReports(env))
    ensures Conserved(DiedAfter(cfg, plan, s, env, turns, cut), split)
    decreases turns
  {
    hide Processed, SavedInTurn, RoutesFirst, SplitReports, Balanced;
    if s.state == RUNNING && s.tasksProcessed < plan.maxTasks {
      if turns == 0 {
        DeathKeepsBalance(cfg, plan, s, env, cut, split);
      } else {
        ProcessedKeepsBalance(cfg, plan, s, env, split);
        if s.mode == Continuous { DiedKeepsBalance(cfg, plan, Processed(cfg, plan, s, env), env, turns - 1, cut, split); }
      }
    }
  }

  // ----- what clamping costs -----

  function UncachedSum(usages: seq<Usage>): nat {
    if usages == [] then 0 else usages[0].Uncached() + UncachedSum(usages[1..])
  }

  function OvercachedSum(usages: seq<Usage>): nat {
    if usages == [] then 0 else Minus(usages[0].cached, usages[0].input) + OvercachedSum(usages[1..])
  }

  lemma {:induction false} ClampedSums(usages: seq<Usage>)
    ensures Aggregate(usages).input + OvercachedSum(usages) == Aggregate(usages).cached + UncachedSum(usages)
    ensures OvercachedSum(usages) == 0 <==> forall k :: 0 <= k < |usages| ==> usages[k].Split()
    ensures UncachedSum(usages) == 0 <==> forall k :: 0 <= k < |usages| ==> usages[k].input <= usages[k].cached
  {
    if usages != [] {
      var rest := usages[1..];
      ClampedSums(rest);
      assert forall k :: 0 < k < |usages| ==> usages[k] == rest[k - 1];
      assert forall k :: 0 <= k < |rest| ==> rest[k] == usages[k + 1];
    }
  }

  /**
   * A role clamps its sum and a profile sums clamped reports.  The two agree exactly when no report has more
   * cached input than input, or none has less.
   */
  lemma UncachedTotalsAgree(usages: seq<Usage>)
    ensures Aggregate(usages).Uncached() == UncachedSum(usages) <==>
            || (forall k :: 0 <= k < |usages| ==> usages[k].Split())
            || (forall k :: 0 <= k < |usages| ==> usages[k].input <= usages[k].cached)
  {
    ClampedSums(usages);
  }
}
