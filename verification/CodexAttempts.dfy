/** The bounded Codex attempts of one task, and which of their records terminal telemetry accepts. */
module CodexAttempts {
  import opened Prelude
  import opened DayModels
  import opened TokenUsage
  import opened TerminalTelemetry

  datatype Exit =
    | CallLimitExceeded | BudgetGuard | ContextFileUnavailable | ModelRouterBlocked
    | ExecutionFailed | StatusUnavailable | ScopeGuardFailed | PostcheckPassed | RetryLimitExceeded
  {
    /** These exits leave before a further turn is taken, and report no totals. */
    predicate Early() {
      this == CallLimitExceeded || this == BudgetGuard || this == ContextFileUnavailable || this == ModelRouterBlocked
    }
  }

  /** The part of a task record that telemetry adds up. */
  datatype TaskTokens = TaskTokens(attempts: seq<RawAttempt>, gross: int, cached: int, uncached: int, output: int)

  function AttemptOf(number: int, u: Usage): RawAttempt {
    Attempt(number, Some(u.Gross()), Some(u.cached), Some(u.Uncached()), Some(u.output))
  }

  /** The attempts of these turns, numbered from `n + 1`. */
  function AttemptsFrom(usages: seq<Usage>, n: nat): seq<RawAttempt> {
    seq(|usages|, i requires 0 <= i < |usages| => AttemptOf(n + i + 1, usages[i]))
  }

  /** The record of an exit: its totals are derived from the aggregate, or left at zero. */
  function RecordOf(usages: seq<Usage>, exit: Exit): TaskTokens {
    var total := if exit.Early() then NoUsage else Aggregate(usages);
    TaskTokens(AttemptsFrom(usages, 0), total.Gross(), total.cached, total.Uncached(), total.output)
  }

  lemma AttemptsSnoc(usages: seq<Usage>, u: Usage)
    ensures AttemptsFrom(usages + [u], 0) == AttemptsFrom(usages, 0) + [AttemptOf(|usages| + 1, u)]
  {
    hide AttemptOf;
  }

  lemma NoTurns()
    ensures AttemptsFrom([], 0) == [] && Aggregate([]) == NoUsage
  {
  }

  lemma AttemptCount(usages: seq<Usage>)
    ensures |AttemptsFrom(usages, 0)| == |usages|
  {
  }

  /** The record of turns that end late or early, from the running aggregate. */
  lemma RecordIs(usages: seq<Usage>, exit: Exit, attempts: seq<RawAttempt>, aggregate: Usage)
    requires attempts == AttemptsFrom(usages, 0) && aggregate == Aggregate(usages)
    ensures !exit.Early() ==>
              RecordOf(usages, exit) == TaskTokens(attempts, aggregate.Gross(), aggregate.cached, aggregate.Uncached(), aggregate.output)
    ensures exit.Early() ==> RecordOf(usages, exit) == TaskTokens(attempts, 0, 0, 0, 0)
  {
    hide AttemptsFrom, Aggregate;
  }

  /** The loop over attempts; every answer of its environment is arbitrary. */
  method RunTaskCodexAttempts(cap: Option<nat>, maxRetry: nat) returns (exit: Exit, usages: seq<Usage>, record: TaskTokens)
    ensures record == RecordOf(usages, exit)
    ensures |usages| <= maxRetry + 1
    ensures cap.Some? ==> |usages| <= cap.value
    ensures exit == CallLimitExceeded ==> cap == Some(|usages|)
    ensures exit == RetryLimitExceeded ==> |usages| == maxRetry + 1
    ensures !exit.Early() ==> usages != []
  {
    hide AttemptsFrom, AttemptOf, Aggregate, RecordOf;
    usages := [];
    var attempts: seq<RawAttempt> := [];
    var aggregate := NoUsage;
    var retry := 0;
    NoTurns();
    while true
      invariant 0 <= retry <= maxRetry && |usages| == retry
      invariant cap.Some? ==> |usages| <= cap.value
      invariant attempts == AttemptsFrom(usages, 0) && aggregate == Aggregate(usages)
      decreases maxRetry - retry
    {
      AttemptCount(usages);
      if cap.Some? && |attempts| >= cap.value {
        RecordIs(usages, CallLimitExceeded, attempts, aggregate);
        return CallLimitExceeded, usages, TaskTokens(attempts, 0, 0, 0, 0);
      }
      var early: Option<Exit> := *;
      if early.Some? && early.value.Early() && early.value != CallLimitExceeded {
        RecordIs(usages, early.value, attempts, aggregate);
        return early.value, usages, TaskTokens(attempts, 0, 0, 0, 0);
      }
      var used: Usage := *;
      attempts := attempts + [AttemptOf(retry + 1, used)];
      AttemptsSnoc(usages, used);
      AggregateSnoc(usages, used);
      aggregate := Usage(aggregate.input + used.input, aggregate.cached + used.cached, aggregate.output + used.output);
      usages := usages + [used];
      record := TaskTokens(attempts, aggregate.Gross(), aggregate.cached, aggregate.Uncached(), aggregate.output);
      var after: Option<Exit> := *;
      if after == Some(ExecutionFailed) || after == Some(StatusUnavailable) || after == Some(ScopeGuardFailed)
         || after == Some(PostcheckPassed) {
        RecordIs(usages, after.value, attempts, aggregate);
        return after.value, usages, record;
      }
      if retry >= maxRetry {
        RecordIs(usages, RetryLimitExceeded, attempts, aggregate);
        return RetryLimitExceeded, usages, record;
      }
      retry := retry + 1;
    }
  }

  /** What telemetry checks of a task's tokens. */
  predicate TokensPass(t: TaskTokens) {
    && AttemptsError(t.attempts, 0) == None
    && t.gross == Tokens(Gross, t.attempts) && t.cached == Tokens(Cached, t.attempts)
    && t.uncached == Tokens(Uncached, t.attempts) && t.output == Tokens(Output, t.attempts)
  }

  predicate AllSplit(usages: seq<Usage>) {
    forall i :: 0 <= i < |usages| ==> usages[i].Split()
  }

  lemma {:induction false} NumberedAttempts(usages: seq<Usage>, i: nat)
    requires i <= |usages|
    ensures AttemptsError(AttemptsFrom(usages, 0), i) == None <==> forall k :: i <= k < |usages| ==> usages[k].Split()
    decreases |usages| - i
  {
    if i < |usages| {
      var attempts := AttemptsFrom(usages, 0);
      assert attempts[i].number !in Numbers(attempts[..i]) by {
        forall a | a in attempts[..i] && a.Attempt? ensures a.number != attempts[i].number {
          var k :| 0 <= k < i && attempts[..i][k] == a;
        }
      }
      assert Counted(attempts[i]) <==> usages[i].Split();
      NumberedAttempts(usages, i + 1);
    }
  }

  lemma {:induction false} TokensOfUsages(usages: seq<Usage>, n: nat)
    requires AllSplit(usages)
    ensures var attempts, total := AttemptsFrom(usages, n), Aggregate(usages);
            && Tokens(Gross, attempts) == total.Gross() && Tokens(Cached, attempts) == total.cached
            && Tokens(Uncached, attempts) == total.Uncached() && Tokens(Output, attempts) == total.output
  {
    if usages != [] {
      TokensOfUsages(usages[1..], n + 1);
      assert AttemptsFrom(usages, n)[1..] == AttemptsFrom(usages[1..], n + 1);
      SplitAggregate(usages[1..]);
    }
  }

  /** A record that carries the aggregate passes exactly when no turn reported more cached input than input. */
  lemma AggregatePasses(usages: seq<Usage>, exit: Exit)
    requires !exit.Early()
    ensures TokensPass(RecordOf(usages, exit)) <==> AllSplit(usages)
  {
    NumberedAttempts(usages, 0);
    if AllSplit(usages) { TokensOfUsages(usages, 0); }
  }

  predicate ReportsTokens(u: Usage) { 0 < u.input || 0 < u.cached || 0 < u.output }

  predicate NoTokens(usages: seq<Usage>) {
    forall i :: 0 <= i < |usages| ==> !ReportsTokens(usages[i])
  }

  lemma {:induction false} ZeroAggregate(usages: seq<Usage>)
    ensures !ReportsTokens(Aggregate(usages)) <==> NoTokens(usages)
  {
    if usages != [] {
      ZeroAggregate(usages[1..]);
      if !ReportsTokens(usages[0]) && NoTokens(usages[1..]) {
        forall i | 0 <= i < |usages| ensures !ReportsTokens(usages[i]) { assert i > 0 ==> usages[i] == usages[1..][i - 1]; }
      }
      if NoTokens(usages) {
        forall i | 0 <= i < |usages| - 1 ensures !ReportsTokens(usages[1..][i]) { assert usages[1..][i] == usages[i + 1]; }
      }
    }
  }

  /** A record that leaves early passes exactly when the turns before it reported no tokens at all. */
  lemma EarlyExitPasses(usages: seq<Usage>, exit: Exit)
    requires exit.Early()
    ensures TokensPass(RecordOf(usages, exit)) <==> NoTokens(usages)
  {
    NumberedAttempts(usages, 0);
    ZeroAggregate(usages);
    if NoTokens(usages) {
      forall i | 0 <= i < |usages| ensures usages[i].Split() { assert !ReportsTokens(usages[i]); }
    }
    if AllSplit(usages) {
      TokensOfUsages(usages, 0);
      SplitAggregate(usages);
    }
  }
}
