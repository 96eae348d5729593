/**
 * The configured-task scheduler as a function of its state and of the answers it is given.
 *
 * The architect, the evaluator and the task executor are arbitrary functions; a call is told apart from the
 * others by how many were made before it, so a function covers every sequence of answers.  The scheduler
 * reports progress as a percentage rounded to two decimals; it is kept here in hundredths of a percent.
 */
module DaySchedule {
  import opened Prelude
  import opened TokenUsage
  import opened ModelRouter

  type TaskId = string
  const SYSTEM: TaskId := "SYSTEM"

  datatype RunState = IDLE | RUNNING | PAUSED | STOPPED | COMPLETE | HUMAN_REVIEW | FAILED
  datatype Mode = SingleStep | Continuous

  datatype ItemState =
    | Pending | Ready | Executing | Pass | CompleteNoChange | RepairPending | HumanReview | Failed | ItemStopped | Skipped
  {
    predicate Eligible() { this == Pending || this == Ready || this == RepairPending }
    predicate Successful() { this == Pass || this == CompleteNoChange || this == Skipped }
    predicate Settled() { Successful() || this == Failed }
  }

  datatype Item = Item(taskId: TaskId, state: ItemState, attempts: nat, repairLoops: nat)

  datatype Reason =
    | MaxTasksPerRun | MaxArchitectCalls | MaxCodexCalls | MaxEvaluatorCalls | MaxFailedTasks
    | BudgetGuard(role: Role) | ArchitectStops | StopRequested | SingleStepComplete | AllTasksTerminal | Interrupted
    | NotRouted(why: ReviewReason) | ProviderNotConfigured(role: Role) | ProviderError(role: Role)
    | PrematureComplete | InvalidTask | ArchitectAsks | RoutingMissing | TaskAsks | SafetyFailure | EvaluationAsks

  datatype RoleUsage = RoleUsage(architect: Usage, codex: Usage, evaluator: Usage) {
    function Of(role: Role): Usage {
      match role case ARCHITECT => architect case CODEX => codex case EVALUATOR => evaluator
    }
    function Plus(role: Role, u: Usage): RoleUsage {
      match role
      case ARCHITECT => this.(architect := architect.Plus(u))
      case CODEX => this.(codex := codex.Plus(u))
      case EVALUATOR => this.(evaluator := evaluator.Plus(u))
    }
    function Total(): Tally { TallyOf(architect).Plus(TallyOf(codex)).Plus(TallyOf(evaluator)) }
  }

  datatype Snapshot = Snapshot(
    planId: Option<string>, state: RunState, mode: Mode, queue: seq<Item>, reviews: seq<(TaskId, Reason)>,
    stopReason: Option<Reason>, architectCalls: nat, evaluatorCalls: nat, codexCalls: nat, failedTasks: nat,
    tasksProcessed: nat, progress: nat, roles: RoleUsage, profiles: ProfileUsage, retries: nat, replans: nat)

  datatype Plan = Plan(
    taskIds: seq<TaskId>, architect: Provider, evaluator: Provider, continuousSupported: bool, maxTasks: nat,
    maxCodex: nat, maxArchitect: nat, maxEvaluator: nat, maxRepairLoops: nat, maxFailed: nat, policy: Policy,
    maxRetries: nat, maxReplans: nat)

  datatype Task = Task(requiresCodex: bool, independentEvaluator: bool)

  datatype Budget = Budget(input: nat, output: nat, calls: nat)

  /** `codexBudget` is absent when no budget is configured for that role. */
  datatype Config = Config(
    plans: map<string, Plan>, tasks: map<TaskId, Task>, router: Option<Registry>, architects: set<Provider>,
    evaluators: set<Provider>, architectBudget: Budget, evaluatorBudget: Budget, codexBudget: Option<Budget>)

  // ----- answers -----

  datatype Choice = RunTask(complexity: Complexity) | SkipTask | AskHuman | StopDay | DayComplete

  datatype ArchitectAnswer =
    | ArchitectError(retryable: bool)
    | Chose(choice: Choice, taskId: Option<TaskId>, usage: Usage)

  datatype Final = FinalComplete | FinalNoChange | FinalReview | FinalOther

  datatype TaskResult = TaskResult(final: Final, invoked: bool, attempts: nat, usage: Usage, guardFailed: bool)

  datatype Verdict = Accept | Repair | Refer

  datatype EvaluatorAnswer = EvaluatorError | Judged(verdict: Verdict, usage: Usage)

  /**
   * The architect and the evaluator answer by number of earlier calls.  For the `attempt`-th attempt of an
   * item the executor asks for `routes` profiles and then reports a result, which may depend on the cap it
   * was given and on the profiles it obtained.
   */
  datatype Env = Env(
    architect: nat -> ArchitectAnswer, evaluator: nat -> EvaluatorAnswer,
    routes: (nat, nat) -> nat, result: (nat, nat, int, seq<Decision>) -> TaskResult)

  // ----- pieces of a step -----

  /** n / d to the nearest integer, a tie to the even one. */
  function RoundHalfEven(n: nat, d: nat): nat
    requires d > 0
  {
    var q, r := n / d, n % d;
    if 2 * r < d || (2 * r == d && q % 2 == 0) then q else q + 1
  }

  function Percent(done: nat, total: nat): nat {
    if total == 0 then 0 else RoundHalfEven(done * 10000, total)
  }

  function Successes(queue: seq<Item>): nat {
    if queue == [] then 0
    else Successes(queue[..|queue| - 1]) + if queue[|queue| - 1].state.Successful() then 1 else 0
  }

  predicate AllSuccessful(queue: seq<Item>) {
    queue != [] && forall i :: 0 <= i < |queue| ==> queue[i].state.Successful()
  }

  predicate SameTasks(a: seq<Item>, b: seq<Item>) {
    |a| == |b| && forall i :: 0 <= i < |a| ==> a[i].taskId == b[i].taskId
  }

  /** The same Day, with the same tasks and as many architect calls and retries. */
  predicate Continues(s: Snapshot, t: Snapshot) {
    SameTasks(s.queue, t.queue) && t.architectCalls == s.architectCalls && t.retries == s.retries && t.mode == s.mode && t.planId == s.planId
  }

  predicate Configured(cfg: Config, queue: seq<Item>) {
    forall i :: 0 <= i < |queue| ==> queue[i].taskId in cfg.tasks
  }

  function IndexFrom(queue: seq<Item>, id: TaskId, from: nat): Option<nat>
    decreases |queue| - from
  {
    if from >= |queue| then None else if queue[from].taskId == id then Some(from) else IndexFrom(queue, id, from + 1)
  }

  function EligibleFrom(queue: seq<Item>, id: Option<TaskId>, from: nat): (r: Option<nat>)
    ensures r.Some? ==> r.value < |queue| && id == Some(queue[r.value].taskId) && queue[r.value].state.Eligible()
    decreases |queue| - from
  {
    if from >= |queue| then None
    else if Some(queue[from].taskId) == id && queue[from].state.Eligible() then Some(from)
    else EligibleFrom(queue, id, from + 1)
  }

  function WithItem(queue: seq<Item>, i: nat, state: ItemState): (r: seq<Item>)
    ensures SameTasks(queue, r)
  {
    if i < |queue| then queue[i := queue[i].(state := state)] else queue
  }

  function Stopped(s: Snapshot, why: Reason): Snapshot { s.(state := STOPPED, stopReason := Some(why)) }

  /** The first item of that id, whatever its state, goes to review along with the Day. */
  function Reviewed(s: Snapshot, id: TaskId, why: Reason): (r: Snapshot)
    ensures Continues(s, r)
  {
    var i := IndexFrom(s.queue, id, 0);
    s.(queue := if i.Some? then WithItem(s.queue, i.value, HumanReview) else s.queue,
       reviews := s.reviews + [(id, why)], state := HUMAN_REVIEW, stopReason := Some(why))
  }

  function Progressed(s: Snapshot): Snapshot { s.(progress := Percent(Successes(s.queue), |s.queue|)) }

  function Completed(s: Snapshot): Snapshot {
    Progressed(s.(state := COMPLETE, stopReason := Some(AllTasksTerminal)))
  }

  function AfterTask(plan: Plan, s: Snapshot): Snapshot {
    if s.failedTasks > plan.maxFailed then Stopped(s, MaxFailedTasks)
    else if AllSuccessful(s.queue) then Completed(s)
    else s
  }

  /** An item ends: it is counted and progress is brought up to date.  This is saved before the Day may end with it. */
  function Counted(s: Snapshot, i: nat, state: ItemState): (r: Snapshot)
    ensures Continues(s, r)
  {
    Progressed(s.(queue := WithItem(s.queue, i, state), tasksProcessed := s.tasksProcessed + 1,
                  failedTasks := s.failedTasks + if state == Failed then 1 else 0))
  }

  function Ended(plan: Plan, s: Snapshot, i: nat, state: ItemState): (r: Snapshot)
    ensures Continues(s, r)
  {
    AfterTask(plan, Counted(s, i, state))
  }

  function Replanned(plan: Plan, s: Snapshot, why: Reason): Snapshot {
    if s.replans < plan.maxReplans then s.(replans := s.replans + 1) else Reviewed(s, SYSTEM, why)
  }

  predicate WithinProviderBudget(b: Budget, used: Usage, calls: nat) {
    calls < b.calls && used.input < b.input && used.output < b.output
  }

  function BudgetOf(cfg: Config, role: Role): Budget {
    match role
    case ARCHITECT => cfg.architectBudget
    case EVALUATOR => cfg.evaluatorBudget
    case CODEX => if cfg.codexBudget.Some? then cfg.codexBudget.value else Budget(0, 0, 0)
  }

  function Minus(a: nat, b: nat): nat { if a > b then a - b else 0 }

  function RemainingFor(cfg: Config, roles: RoleUsage, role: Role): Remaining {
    var own, codex := BudgetOf(cfg, role), BudgetOf(cfg, CODEX);
    Remaining(Minus(own.input, roles.Of(role).input), Minus(own.output, roles.Of(role).output),
              Minus(cfg.architectBudget.input + cfg.evaluatorBudget.input + codex.input, roles.Total().gross),
              Minus(cfg.architectBudget.output + cfg.evaluatorBudget.output + codex.output, roles.Total().output))
  }

  /** Without a router every role is served, and charged to no profile. */
  function DecisionFor(cfg: Config, plan: Plan, roles: RoleUsage, role: Role, provider: Provider, complexity: Complexity, failure: Option<Failure>): Decision {
    if cfg.router == None then Selected(role, None, provider, None, 0)
    else Select(cfg.router.value, Request(role, provider, complexity, failure, RemainingFor(cfg, roles, role), plan.policy))
  }

  function Routed(s: Snapshot, d: Decision): (r: Snapshot)
    ensures SameTasks(s.queue, r.queue)
  {
    if d.Review? then Reviewed(s, SYSTEM, NotRouted(d.reason)) else s
  }

  function Used(s: Snapshot, role: Role, u: Usage): Snapshot { s.(roles := s.roles.Plus(role, u)) }

  function ChargedTo(s: Snapshot, d: Decision, u: Usage): Snapshot {
    if d.Selected? && d.profile.Some? then s.(profiles := Charged(s.profiles, d.profile.value, u)) else s
  }

  // ----- one step -----

  /** How many more repairs the item at `i` may have. */
  function RepairsLeft(plan: Plan, queue: seq<Item>, i: nat): nat {
    if i < |queue| then Minus(plan.maxRepairLoops, queue[i].repairLoops) else 0
  }

  /** The `n` requests the executor makes for a profile; their decisions are all the same. */
  function CodexRouted(s: Snapshot, d: Decision, n: nat): (r: Snapshot)
    ensures r == s.(queue := r.queue, reviews := r.reviews, state := r.state, stopReason := r.stopReason)
    ensures SameTasks(s.queue, r.queue) && RoutesKeepLoops(s.queue, r.queue)
  {
    if n == 0 then s else Routed(CodexRouted(s, d, n - 1), d)
  }

  predicate RoutesKeepLoops(a: seq<Item>, b: seq<Item>) {
    |a| == |b| && forall i :: 0 <= i < |a| ==> a[i].repairLoops == b[i].repairLoops && a[i].attempts == b[i].attempts
  }

  function RoutesOf(d: Decision, n: nat): seq<Decision> {
    if d.Selected? then seq(n, _ => d) else []
  }

  /** What the executor is given the item with: it is running, one attempt later. */
  function Begun(s: Snapshot, i: nat): Snapshot
    requires i < |s.queue|
  {
    s.(queue := s.queue[i := s.queue[i].(state := Executing, attempts := s.queue[i].attempts + 1)])
  }

  datatype Run = Run(snapshot: Snapshot, result: TaskResult, routes: seq<Decision>)

  /** The executor's part of an attempt: what it routed, what it reported, and the calls and tokens counted. */
  function RunOf(cfg: Config, plan: Plan, s: Snapshot, i: nat, complexity: Complexity, failure: Option<Failure>, env: Env): (r: Run)
    requires i < |s.queue|
    ensures Continues(s, r.snapshot) && RepairsLeft(plan, r.snapshot.queue, i) == RepairsLeft(plan, s.queue, i)
  {
    var attempt := s.queue[i].attempts;
    var d := DecisionFor(cfg, plan, s.roles, CODEX, Codex, complexity, failure);
    var asked := env.routes(i, attempt);
    var routes := RoutesOf(d, asked);
    var result := env.result(i, attempt, plan.maxCodex - s.codexCalls, routes);
    var routed := CodexRouted(Begun(s, i), d, asked);
    Run(Used(routed.(codexCalls := routed.codexCalls + result.attempts), CODEX, result.usage), result, routes)
  }

  /** The Codex tokens of a run are charged to the last profile it obtained. */
  function Charging(run: Run): (r: Snapshot)
    ensures Continues(run.snapshot, r) && r.queue == run.snapshot.queue
  {
    if run.result.invoked && run.routes != [] then
      ChargedTo(run.snapshot, run.routes[|run.routes| - 1], run.result.usage)
    else run.snapshot
  }

  function Executed(cfg: Config, plan: Plan, s: Snapshot, i: nat, complexity: Complexity, failure: Option<Failure>, env: Env): (r: Snapshot)
    requires i < |s.queue| && Configured(cfg, s.queue)
    ensures Continues(s, r)
    decreases RepairsLeft(plan, s.queue, i), 1
  {
    hide RunOf, Charging, Ended, Reviewed;
    var id := s.queue[i].taskId;
    var task := cfg.tasks[id];
    if task.requiresCodex && s.codexCalls >= plan.maxCodex then Stopped(s, MaxCodexCalls)
    else
      var run := RunOf(cfg, plan, s, i, complexity, failure, env);
      if run.result.invoked && run.routes == [] then Reviewed(run.snapshot, id, RoutingMissing)
      else
        var t := Charging(run);
        match run.result.final
        case FinalNoChange => Ended(plan, t, i, CompleteNoChange)
        case FinalComplete =>
          if task.independentEvaluator then Evaluated(cfg, plan, t, i, run.result.guardFailed, env) else Ended(plan, t, i, Pass)
        case FinalReview => Reviewed(t, id, TaskAsks)
        case FinalOther => Ended(plan, t, i, Failed)
  }

  /** The evaluator's part of an attempt: one call counted, and its tokens if it answered. */
  function Called(cfg: Config, plan: Plan, s: Snapshot, d: Decision, env: Env): Snapshot {
    var called := s.(evaluatorCalls := s.evaluatorCalls + 1);
    match env.evaluator(s.evaluatorCalls)
    case EvaluatorError => called
    case Judged(_, u) => ChargedTo(Used(called, EVALUATOR, u), d, u)
  }

  function Evaluated(cfg: Config, plan: Plan, s: Snapshot, i: nat, guardFailed: bool, env: Env): (r: Snapshot)
    requires i < |s.queue| && Configured(cfg, s.queue)
    ensures Continues(s, r)
    decreases RepairsLeft(plan, s.queue, i), 0
  {
    var id := s.queue[i].taskId;
    var d := DecisionFor(cfg, plan, s.roles, EVALUATOR, plan.evaluator, NORMAL, None);
    if guardFailed then Reviewed(s, id, SafetyFailure)
    else if s.evaluatorCalls >= plan.maxEvaluator then Stopped(s, MaxEvaluatorCalls)
    else if !WithinProviderBudget(cfg.evaluatorBudget, s.roles.evaluator, s.evaluatorCalls) then Stopped(s, BudgetGuard(EVALUATOR))
    else if d.Review? then Routed(s, d)
    else if plan.evaluator !in cfg.evaluators then Reviewed(s, id, ProviderNotConfigured(EVALUATOR))
    else
      var t := Called(cfg, plan, s, d, env);
      match env.evaluator(s.evaluatorCalls)
      case EvaluatorError => Reviewed(t, id, ProviderError(EVALUATOR))
      case Judged(verdict, _) =>
        if verdict == Accept then Ended(plan, t, i, Pass)
        else if verdict == Repair && s.queue[i].repairLoops < plan.maxRepairLoops then
          Executed(cfg, plan, RepairBegun(t, i), i, NORMAL, Some(REASONING), env)
        else Reviewed(t, id, EvaluationAsks)
  }

  function RepairBegun(s: Snapshot, i: nat): (r: Snapshot)
    requires i < |s.queue|
    ensures Continues(s, r)
  {
    s.(queue := s.queue[i := s.queue[i].(state := RepairPending, repairLoops := s.queue[i].repairLoops + 1)])
  }

  /** What follows an architect's choice once its tokens are counted. */
  function Followed(cfg: Config, plan: Plan, s: Snapshot, choice: Choice, id: Option<TaskId>, env: Env): (r: Snapshot)
    requires Configured(cfg, s.queue)
    ensures Continues(s, r)
  {
    var i := EligibleFrom(s.queue, id, 0);
    match choice
    case StopDay => Stopped(s, ArchitectStops)
    case DayComplete => if AllSuccessful(s.queue) then Completed(s) else Replanned(plan, s, PrematureComplete)
    case AskHuman => if i == None then Replanned(plan, s, InvalidTask) else Reviewed(s, id.value, ArchitectAsks)
    case SkipTask => if i == None then Replanned(plan, s, InvalidTask) else Ended(plan, s, i.value, Skipped)
    case RunTask(complexity) =>
      if i == None then Replanned(plan, s, InvalidTask) else Executed(cfg, plan, s, i.value, complexity, None, env)
  }

  /** One turn of the scheduler: one architect call at most, and what it asked for. */
  function Processed(cfg: Config, plan: Plan, s: Snapshot, env: Env): (r: Snapshot)
    requires Configured(cfg, s.queue)
    ensures SameTasks(s.queue, r.queue) && r.mode == s.mode && r.planId == s.planId
    ensures r.state == RUNNING ==> r.architectCalls == s.architectCalls + 1 <= plan.maxArchitect
  {
    var d := DecisionFor(cfg, plan, s.roles, ARCHITECT, plan.architect, NORMAL, None);
    if s.architectCalls >= plan.maxArchitect then Stopped(s, MaxArchitectCalls)
    else if !WithinProviderBudget(cfg.architectBudget, s.roles.architect, s.architectCalls) then Stopped(s, BudgetGuard(ARCHITECT))
    else if d.Review? then Routed(s, d)
    else if plan.architect !in cfg.architects then Reviewed(s, SYSTEM, ProviderNotConfigured(ARCHITECT))
    else
      var called := s.(architectCalls := s.architectCalls + 1);
      match env.architect(s.architectCalls)
      case ArchitectError(retryable) =>
        if retryable && s.retries < plan.maxRetries then called.(retries := s.retries + 1)
        else Reviewed(called, SYSTEM, ProviderError(ARCHITECT))
      case Chose(choice, id, u) => Followed(cfg, plan, ChargedTo(Used(called, ARCHITECT, u), d, u), choice, id, env)
  }

  /** Turns until the Day leaves RUNNING, the run's tasks are spent, or one turn in single-step mode. */
  function Advanced(cfg: Config, plan: Plan, s: Snapshot, env: Env): (r: Snapshot)
    requires Configured(cfg, s.queue)
    ensures SameTasks(s.queue, r.queue) && r.state != RUNNING && r.planId == s.planId
    decreases Minus(plan.maxArchitect, s.architectCalls), s.state == RUNNING
  {
    if s.state != RUNNING then s
    else if s.tasksProcessed >= plan.maxTasks then Stopped(s, MaxTasksPerRun)
    else
      var t := Processed(cfg, plan, s, env);
      if t.state != RUNNING then t
      else if s.mode == Continuous then Advanced(cfg, plan, t, env)
      else if AllSuccessful(t.queue) then Completed(t)
      else t.(state := PAUSED, stopReason := Some(SingleStepComplete))
  }

  // ----- a process that dies in the middle of a run -----

  /**
   * Where the scheduler saves before an item ends: before the executor starts and after each profile the
   * executor was given, after the evaluator was given one, and before a repair starts.
   */
  datatype Point = AtExecutor(routed: nat) | AtEvaluator | AtRepair

  /** At the end of an item, settled in that attempt, it saves before it sees whether the Day ends too. */
  datatype Cut = BetweenTurns | InAttempt(attempt: nat, at: Point) | AtEnd(attempt: nat)

  /** The process dies in the turn after this many. */
  datatype Death = Death(turns: nat, cut: Cut)

  predicate CallsEvaluator(cfg: Config, plan: Plan, s: Snapshot, guardFailed: bool) {
    && !guardFailed && s.evaluatorCalls < plan.maxEvaluator
    && WithinProviderBudget(cfg.evaluatorBudget, s.roles.evaluator, s.evaluatorCalls)
    && DecisionFor(cfg, plan, s.roles, EVALUATOR, plan.evaluator, NORMAL, None).Selected?
  }

  predicate StartsRepair(cfg: Config, plan: Plan, s: Snapshot, i: nat, env: Env)
    requires i < |s.queue|
  {
    && plan.evaluator in cfg.evaluators && s.queue[i].repairLoops < plan.maxRepairLoops
    && env.evaluator(s.evaluatorCalls).Judged? && env.evaluator(s.evaluatorCalls).verdict == Repair
  }

  /** The item's end in the `n`-th attempt from here: what it is settled from, and how; none if that attempt leaves it open. */
  function EndInAttempt(cfg: Config, plan: Plan, s: Snapshot, i: nat, complexity: Complexity, failure: Option<Failure>, env: Env, n: nat): (r: Option<(Snapshot, ItemState)>)
    requires i < |s.queue| && Configured(cfg, s.queue)
    ensures r.Some? ==> Continues(s, r.value.0) && r.value.1.Settled()
    decreases n
  {
    hide RunOf, Charging, Judgement, CallsEvaluator, Accepts, StartsRepair, RepairBegun, RepairsLeft;
    var task := cfg.tasks[s.queue[i].taskId];
    var run := RunOf(cfg, plan, s, i, complexity, failure, env);
    var t := Charging(run);
    if (task.requiresCodex && s.codexCalls >= plan.maxCodex) || (run.result.invoked && run.routes == []) then None
    else
      match run.result.final
      case FinalNoChange => if n == 0 then Some((t, CompleteNoChange)) else None
      case FinalOther => if n == 0 then Some((t, Failed)) else None
      case FinalReview => None
      case FinalComplete =>
        if !task.independentEvaluator then if n == 0 then Some((t, Pass)) else None
        else if !CallsEvaluator(cfg, plan, t, run.result.guardFailed) then None
        else if n == 0 then if Accepts(cfg, plan, t, env) then Some((Judgement(cfg, plan, t, env), Pass)) else None
        else if !StartsRepair(cfg, plan, t, i, env) then None
        else EndInAttempt(cfg, plan, RepairBegun(Judgement(cfg, plan, t, env), i), i, NORMAL, Some(REASONING), env, n - 1)
  }

  /** The evaluator has been called. */
  function Judgement(cfg: Config, plan: Plan, s: Snapshot, env: Env): (r: Snapshot)
    ensures Continues(s, r) && r.queue == s.queue
  {
    Called(cfg, plan, s, DecisionFor(cfg, plan, s.roles, EVALUATOR, plan.evaluator, NORMAL, None), env)
  }

  predicate Accepts(cfg: Config, plan: Plan, s: Snapshot, env: Env) {
    && plan.evaluator in cfg.evaluators && env.evaluator(s.evaluatorCalls).Judged?
    && env.evaluator(s.evaluatorCalls).verdict == Accept
  }

  /** What is saved at that point of the `n`-th attempt from here; what the attempts end with if there is no such point. */
  function SavedInAttempt(cfg: Config, plan: Plan, s: Snapshot, i: nat, complexity: Complexity, failure: Option<Failure>, env: Env, n: nat, at: Point): (r: Snapshot)
    requires i < |s.queue| && Configured(cfg, s.queue)
    ensures Continues(s, r)
    decreases n
  {
    hide RunOf, Charging, Executed, CodexRouted;
    var task := cfg.tasks[s.queue[i].taskId];
    var run := RunOf(cfg, plan, s, i, complexity, failure, env);
    var t := Charging(run);
    var d := DecisionFor(cfg, plan, t.roles, EVALUATOR, plan.evaluator, NORMAL, None);
    if task.requiresCodex && s.codexCalls >= plan.maxCodex then Stopped(s, MaxCodexCalls)
    else if n == 0 && at.AtExecutor? then
      RoutedSoFar(cfg, plan, s, i, complexity, failure, env, at.routed)
    else if run.result.final == FinalComplete && task.independentEvaluator && (run.result.invoked ==> run.routes != [])
            && CallsEvaluator(cfg, plan, t, run.result.guardFailed) then
      if n == 0 && at.AtEvaluator? && cfg.router.Some? then t
      else if !StartsRepair(cfg, plan, t, i, env) then Executed(cfg, plan, s, i, complexity, failure, env)
      else
        var u := RepairBegun(Called(cfg, plan, t, d, env), i);
        if n == 0 then u else SavedInAttempt(cfg, plan, u, i, NORMAL, Some(REASONING), env, n - 1, at)
    else Executed(cfg, plan, s, i, complexity, failure, env)
  }

  /** The attempt has begun, and the executor has asked for this many profiles. */
  function RoutedSoFar(cfg: Config, plan: Plan, s: Snapshot, i: nat, complexity: Complexity, failure: Option<Failure>, env: Env, n: nat): (r: Snapshot)
    requires i < |s.queue|
    ensures Continues(s, r)
  {
    var asked := env.routes(i, s.queue[i].attempts);
    CodexRouted(Begun(s, i), DecisionFor(cfg, plan, s.roles, CODEX, Codex, complexity, failure), if n < asked then n else asked)
  }

  predicate CallsArchitect(cfg: Config, plan: Plan, s: Snapshot) {
    && s.architectCalls < plan.maxArchitect && plan.architect in cfg.architects
    && WithinProviderBudget(cfg.architectBudget, s.roles.architect, s.architectCalls)
    && DecisionFor(cfg, plan, s.roles, ARCHITECT, plan.architect, NORMAL, None).Selected?
  }

  /** The item the architect chose to run or to skip in this turn, with its choice and the snapshot it chose in. */
  function ChosenInTurn(cfg: Config, plan: Plan, s: Snapshot, env: Env): (r: Option<(Snapshot, nat, Choice)>)
    ensures r.Some? ==> SameTasks(s.queue, r.value.0.queue) && r.value.0.planId == s.planId && r.value.1 < |s.queue|
    ensures r.Some? ==> r.value.2.RunTask? || r.value.2.SkipTask?
  {
    var d := DecisionFor(cfg, plan, s.roles, ARCHITECT, plan.architect, NORMAL, None);
    if !CallsArchitect(cfg, plan, s) then None
    else
      match env.architect(s.architectCalls)
      case ArchitectError(_) => None
      case Chose(choice, id, u) =>
        var t := ChargedTo(Used(s.(architectCalls := s.architectCalls + 1), ARCHITECT, u), d, u);
        var i := EligibleFrom(t.queue, id, 0);
        if (choice.RunTask? || choice.SkipTask?) && i.Some? then Some((t, i.value, choice)) else None
  }

  /** The item's end at that cut of this turn. */
  function EndInTurn(cfg: Config, plan: Plan, s: Snapshot, env: Env, cut: Cut): (r: Option<(Snapshot, nat, ItemState)>)
    requires Configured(cfg, s.queue)
    ensures r.Some? ==> SameTasks(s.queue, r.value.0.queue) && r.value.0.planId == s.planId && r.value.1 < |s.queue|
    ensures r.Some? ==> cut.AtEnd? && r.value.2.Settled()
  {
    hide EndInAttempt, CallsArchitect;
    var chosen := ChosenInTurn(cfg, plan, s, env);
    if !cut.AtEnd? || chosen == None then None
    else
      var (t, i, choice) := chosen.value;
      match choice
      case SkipTask => Some((t, i, Skipped))
      case RunTask(complexity) =>
        var end := EndInAttempt(cfg, plan, t, i, complexity, None, env, cut.attempt);
        if end.Some? then Some((end.value.0, i, end.value.1)) else None
  }

  /** What was saved last when the process dies inside a turn: at the cut, or before the turn. */
  function SavedInTurn(cfg: Config, plan: Plan, s: Snapshot, env: Env, cut: Cut): (r: Snapshot)
    requires Configured(cfg, s.queue)
    ensures SameTasks(s.queue, r.queue) && r.planId == s.planId
  {
    hide ChosenInTurn, EndInAttempt, SavedInAttempt;
    match cut
    case BetweenTurns => s
    case InAttempt(n, at) =>
      var chosen := ChosenInTurn(cfg, plan, s, env);
      if chosen.Some? && chosen.value.2.RunTask? then
        SavedInAttempt(cfg, plan, chosen.value.0, chosen.value.1, chosen.value.2.complexity, None, env, n, at)
      else s
    case AtEnd(_) =>
      var end := EndInTurn(cfg, plan, s, env, cut);
      if end.Some? then Counted(end.value.0, end.value.1, end.value.2) else s
  }

  /** What was saved last when the process dies that many turns into a run. */
  function DiedAfter(cfg: Config, plan: Plan, s: Snapshot, env: Env, turns: nat, cut: Cut): (r: Snapshot)
    requires Configured(cfg, s.queue)
    ensures SameTasks(s.queue, r.queue) && r.planId == s.planId
    decreases turns
  {
    if s.state != RUNNING || s.tasksProcessed >= plan.maxTasks then s
    else if turns == 0 then SavedInTurn(cfg, plan, s, env, cut)
    else if s.mode == SingleStep then Processed(cfg, plan, s, env)
    else DiedAfter(cfg, plan, Processed(cfg, plan, s, env), env, turns - 1, cut)
  }

  // ----- operations -----

  datatype Refusal =
    | PlanNotConfigured | ContinuousNotSupported | ActiveDay | TaskNotConfigured | NoDayPlan | NotResumable

  const NoProfileUsage := ProfileUsage(EmptyTally, EmptyTally, EmptyTally)
  const NoRoleUsage := RoleUsage(NoUsage, NoUsage, NoUsage)

  const FRESH := Snapshot(None, IDLE, SingleStep, [], [], None, 0, 0, 0, 0, 0, 0, NoRoleUsage, NoProfileUsage, 0, 0)

  function QueueOf(ids: seq<TaskId>): seq<Item> {
    seq(|ids|, i requires 0 <= i < |ids| => Item(ids[i], Pending, 0, 0))
  }

  predicate TasksKnown(cfg: Config, ids: seq<TaskId>) {
    forall i :: 0 <= i < |ids| ==> ids[i] in cfg.tasks
  }

  function StartRefusal(cfg: Config, s: Snapshot, planId: string, mode: Mode): Option<Refusal> {
    if planId !in cfg.plans then Some(PlanNotConfigured)
    else if mode == Continuous && !cfg.plans[planId].continuousSupported then Some(ContinuousNotSupported)
    else if s.state == RUNNING || s.state == PAUSED || s.state == HUMAN_REVIEW then Some(ActiveDay)
    else if !TasksKnown(cfg, cfg.plans[planId].taskIds) then Some(TaskNotConfigured)
    else None
  }

  function Launched(planId: string, plan: Plan, mode: Mode): Snapshot {
    FRESH.(planId := Some(planId), state := RUNNING, mode := mode, queue := QueueOf(plan.taskIds))
  }

  function Started(cfg: Config, s: Snapshot, planId: string, mode: Mode, env: Env): (r: Snapshot)
    ensures Configured(cfg, s.queue) ==> Configured(cfg, r.queue)
  {
    if StartRefusal(cfg, s, planId, mode).Some? then s
    else Advanced(cfg, cfg.plans[planId], Launched(planId, cfg.plans[planId], mode), env)
  }

  function ResumeRefusal(cfg: Config, s: Snapshot, mode: Option<Mode>): Option<Refusal> {
    var selected := if mode.Some? then mode.value else s.mode;
    if s.planId == None || s.planId.value !in cfg.plans then Some(NoDayPlan)
    else if selected == Continuous && !cfg.plans[s.planId.value].continuousSupported then Some(ContinuousNotSupported)
    else if s.state != PAUSED && s.state != STOPPED then Some(NotResumable)
    else None
  }

  function Reopened(s: Snapshot, mode: Option<Mode>): Snapshot {
    s.(state := RUNNING, stopReason := None, mode := if mode.Some? then mode.value else s.mode, tasksProcessed := 0)
  }

  function Resumed(cfg: Config, s: Snapshot, mode: Option<Mode>, env: Env): (r: Snapshot)
    requires Configured(cfg, s.queue)
    ensures Configured(cfg, r.queue)
  {
    if ResumeRefusal(cfg, s, mode).Some? then s else Advanced(cfg, cfg.plans[s.planId.value], Reopened(s, mode), env)
  }

  function StopAsked(s: Snapshot): Snapshot {
    if s.state == RUNNING || s.state == PAUSED then Stopped(s, StopRequested) else s
  }

  /** A saved snapshot read back by a new process: one that was running is paused. */
  function Reloaded(s: Snapshot): Snapshot {
    if s.state == RUNNING then s.(state := PAUSED, stopReason := Some(Interrupted)) else s
  }
}
