/**
 * One telemetry snapshot from the terminal task records of a run.
 *
 * A task record is untyped data: a field that is absent or of the wrong type reads as `None`.
 */
module TerminalTelemetry {
  import opened Prelude
  import opened DayModels

  datatype TaskResult = TaskComplete | TaskNoChange | TaskFailed | TaskHumanReview | NotTerminal

  datatype RawAttempt =
    | NotAnAttempt
    | Attempt(number: int, gross: Option<int>, cached: Option<int>, uncached: Option<int>, output: Option<int>)

  /** An optional field that may also hold something of the wrong type. */
  datatype Field = Absent | Malformed | Given(value: int)

  datatype TaskRecord =
    | NotARecord
    | TaskRecord(
        productRun: Option<Id>, result: TaskResult, taskId: Option<Id>, endTime: Option<Time>,
        attempts: Option<seq<RawAttempt>>, gross: Option<int>, cached: Option<int>,
        uncached: Option<int>, output: Option<int>, warning: Field, cost: Field, currency: Field)

  datatype TelemetryError =
    | RecordsMissing | RecordInvalid | RunIdMismatch | TaskNotTerminal | TaskIdInvalidOrDuplicate
    | TimeInvalid | AttemptsInvalid | TokenTotalInvalid | BudgetDecisionInvalid | CostInvalid
    | BudgetDecisionConflict | CostIncomplete | CostCurrencyConflict

  datatype RunTelemetry = RunTelemetry(
    runId: Id, taskIds: set<Id>, attemptCount: int, attemptLimit: int, inputTokens: int,
    cachedTokens: int, uncachedTokens: int, outputTokens: int, budgetDecision: Option<int>,
    cost: Option<int>, currency: int, capturedAt: Time)
  {
    /** The schema v2 validator: counts are non-negative and the input split adds up. */
    predicate Valid() {
      && 0 <= attemptCount && 0 <= cachedTokens && 0 <= uncachedTokens && 0 <= outputTokens
      && inputTokens == cachedTokens + uncachedTokens
      && (cost.Some? ==> 0 <= cost.value)
    }
  }

  datatype TelemetryResult = Snapshot(telemetry: RunTelemetry) | BadRecords(error: TelemetryError)

  // ----- attempts -----

  datatype TokenKind = Gross | Cached | Uncached | Output

  datatype TokenTotals = TokenTotals(gross: int, cached: int, uncached: int, output: int) {
    function At(kind: TokenKind): int {
      match kind
      case Gross => gross
      case Cached => cached
      case Uncached => uncached
      case Output => output
    }
  }

  predicate Counted(a: RawAttempt) {
    && a.Attempt?
    && a.gross.Some? && a.cached.Some? && a.uncached.Some? && a.output.Some?
    && 0 <= a.gross.value && 0 <= a.cached.value && 0 <= a.uncached.value && 0 <= a.output.value
    && a.gross.value == a.cached.value + a.uncached.value
  }

  function TokensOfAttempt(kind: TokenKind, a: RawAttempt): int {
    if !Counted(a) then 0
    else TokenTotals(a.gross.value, a.cached.value, a.uncached.value, a.output.value).At(kind)
  }

  function Tokens(kind: TokenKind, attempts: seq<RawAttempt>): int {
    if attempts == [] then 0 else TokensOfAttempt(kind, attempts[0]) + Tokens(kind, attempts[1..])
  }

  lemma {:induction false} TokensAppend(kind: TokenKind, a: seq<RawAttempt>, b: seq<RawAttempt>)
    ensures Tokens(kind, a + b) == Tokens(kind, a) + Tokens(kind, b)
  {
    if a == [] {
      assert a + b == b;
    } else {
      assert (a + b)[1..] == a[1..] + b;
      TokensAppend(kind, a[1..], b);
    }
  }

  ghost predicate IsTokens(t: TokenTotals, attempts: seq<RawAttempt>) {
    forall kind :: t.At(kind) == Tokens(kind, attempts)
  }

  function Numbers(attempts: seq<RawAttempt>): set<int> {
    set a | a in attempts && a.Attempt? :: a.number
  }

  function AttemptError(a: RawAttempt, seen: set<int>): Option<TelemetryError> {
    if !a.Attempt? || a.number < 1 || a.number in seen then Some(AttemptsInvalid)
    else if !Counted(a) then Some(TokenTotalInvalid)
    else None
  }

  /** The error of the first attempt, from index `i` on, that is not acceptable. */
  function AttemptsError(attempts: seq<RawAttempt>, i: nat): Option<TelemetryError>
    requires i <= |attempts|
    decreases |attempts| - i
  {
    if i == |attempts| then None
    else
      var error := AttemptError(attempts[i], Numbers(attempts[..i]));
      if error.Some? then error else AttemptsError(attempts, i + 1)
  }

  method AttemptTotals(attempts: seq<RawAttempt>) returns (error: Option<TelemetryError>, local: TokenTotals)
    ensures error == AttemptsError(attempts, 0)
    ensures error == None ==> IsTokens(local, attempts)
  {
    error, local := None, TokenTotals(0, 0, 0, 0);
    var seen: set<int> := {};
    var i := 0;
    while i < |attempts|
      invariant 0 <= i <= |attempts|
      invariant AttemptsError(attempts, 0) == AttemptsError(attempts, i)
      invariant seen == Numbers(attempts[..i]) && IsTokens(local, attempts[..i])
    {
      var a := attempts[i];
      if !a.Attempt? || a.number < 1 || a.number in seen { return Some(AttemptsInvalid), local; }
      if !Counted(a) { return Some(TokenTotalInvalid), local; }
      assert attempts[..i + 1] == attempts[..i] + [a];
      seen := seen + {a.number};
      forall kind ensures Tokens(kind, attempts[..i] + [a]) == Tokens(kind, attempts[..i]) + TokensOfAttempt(kind, a) {
        TokensAppend(kind, attempts[..i], [a]);
      }
      local := TokenTotals(local.gross + a.gross.value, local.cached + a.cached.value,
                           local.uncached + a.uncached.value, local.output + a.output.value);
      i := i + 1;
    }
    assert attempts[..i] == attempts;
  }

  // ----- records -----

  predicate CostGiven(r: TaskRecord) { r.TaskRecord? && (r.cost != Absent || r.currency != Absent) }

  function RecordError(run: Id, r: TaskRecord, taskIds: set<Id>): Option<TelemetryError> {
    if !r.TaskRecord? then Some(RecordInvalid)
    else if r.productRun != Some(run) then Some(RunIdMismatch)
    else if r.result == NotTerminal then Some(TaskNotTerminal)
    else if r.taskId == None || r.taskId.value in taskIds then Some(TaskIdInvalidOrDuplicate)
    else if r.endTime == None then Some(TimeInvalid)
    else if r.attempts == None then Some(AttemptsInvalid)
    else if AttemptsError(r.attempts.value, 0).Some? then AttemptsError(r.attempts.value, 0)
    else
      var all := r.attempts.value;
      if !(r.gross == Some(Tokens(Gross, all)) && r.cached == Some(Tokens(Cached, all))
           && r.uncached == Some(Tokens(Uncached, all)) && r.output == Some(Tokens(Output, all))) then
        Some(TokenTotalInvalid)
      else if r.warning == Malformed then Some(BudgetDecisionInvalid)
      else if CostGiven(r) && !(r.cost.Given? && r.cost.value >= 0 && r.currency.Given?) then Some(CostInvalid)
      else None
  }

  function TaskIds(records: seq<TaskRecord>): set<Id> {
    set r | r in records && r.TaskRecord? && r.taskId.Some? :: r.taskId.value
  }

  function Warnings(records: seq<TaskRecord>): set<int> {
    set r | r in records && r.TaskRecord? && r.warning.Given? :: r.warning.value
  }

  function Currencies(records: seq<TaskRecord>): set<int> {
    set r | r in records && CostGiven(r) && r.currency.Given? :: r.currency.value
  }

  /** The error of the first record, from index `i` on, that is not acceptable. */
  function RecordsError(run: Id, records: seq<TaskRecord>, i: nat): Option<TelemetryError>
    requires i <= |records|
    decreases |records| - i
  {
    if i == |records| then None
    else
      var error := RecordError(run, records[i], TaskIds(records[..i]));
      if error.Some? then error else RecordsError(run, records, i + 1)
  }

  function Error(run: Id, records: seq<TaskRecord>): Option<TelemetryError> {
    if records == [] then Some(RecordsMissing)
    else if RecordsError(run, records, 0).Some? then RecordsError(run, records, 0)
    else if |Warnings(records)| > 1 then Some(BudgetDecisionConflict)
    else if (exists r :: r in records && CostGiven(r)) && (exists r :: r in records && !CostGiven(r)) then Some(CostIncomplete)
    else if |Currencies(records)| > 1 then Some(CostCurrencyConflict)
    else None
  }

  /** What adds up over records. */
  datatype Measure = AttemptCount | TokenCount(kind: TokenKind) | MeasuredCost

  function Of(m: Measure, r: TaskRecord): int {
    match m
    case AttemptCount => if r.TaskRecord? && r.attempts.Some? then |r.attempts.value| else 0
    case TokenCount(kind) => if r.TaskRecord? && r.attempts.Some? then Tokens(kind, r.attempts.value) else 0
    case MeasuredCost => if r.TaskRecord? && r.cost.Given? then r.cost.value else 0
  }

  function Total(m: Measure, records: seq<TaskRecord>): int {
    if records == [] then 0 else Of(m, records[0]) + Total(m, records[1..])
  }

  lemma {:induction false} TotalAppend(m: Measure, a: seq<TaskRecord>, b: seq<TaskRecord>)
    ensures Total(m, a + b) == Total(m, a) + Total(m, b)
  {
    if a == [] {
      assert a + b == b;
    } else {
      assert (a + b)[1..] == a[1..] + b;
      TotalAppend(m, a[1..], b);
    }
  }

  lemma TotalSnoc(m: Measure, a: seq<TaskRecord>, r: TaskRecord)
    ensures Total(m, a + [r]) == Total(m, a) + Of(m, r)
  {
    TotalAppend(m, a, [r]);
    assert [r][1..] == [];
  }

  ghost predicate IsLatest(records: seq<TaskRecord>, at: Time) {
    && (exists r :: r in records && r.TaskRecord? && r.endTime == Some(at))
    && (forall r :: r in records && r.TaskRecord? && r.endTime.Some? ==> r.endTime.value <= at)
  }

  /** What an accepted snapshot says: every figure is a sum, a union or a maximum over the records. */
  ghost predicate Summarises(t: RunTelemetry, intent: RunIntent, records: seq<TaskRecord>) {
    && t.runId == intent.runId
    && t.taskIds == TaskIds(records)
    && t.attemptCount == Total(AttemptCount, records) && t.attemptLimit == intent.limits.maxAttempts
    && t.inputTokens == Total(TokenCount(Gross), records) && t.cachedTokens == Total(TokenCount(Cached), records)
    && t.uncachedTokens == Total(TokenCount(Uncached), records) && t.outputTokens == Total(TokenCount(Output), records)
    && Warnings(records) == (if t.budgetDecision.Some? then {t.budgetDecision.value} else {})
    && t.cost == (if exists r :: r in records && CostGiven(r) then Some(Total(MeasuredCost, records)) else None)
    && (if t.cost.Some? then Currencies(records) == {t.currency} else t.currency == intent.limits.currency)
    && IsLatest(records, t.capturedAt)
  }

  // ----- the loop over the records -----

  datatype Figures = Figures(attempts: int, tokens: TokenTotals, cost: int) {
    function At(m: Measure): int {
      match m
      case AttemptCount => attempts
      case TokenCount(kind) => tokens.At(kind)
      case MeasuredCost => cost
    }

    function Plus(r: TaskRecord): Figures {
      Figures(attempts + Of(AttemptCount, r),
              TokenTotals(tokens.gross + Of(TokenCount(Gross), r), tokens.cached + Of(TokenCount(Cached), r),
                          tokens.uncached + Of(TokenCount(Uncached), r), tokens.output + Of(TokenCount(Output), r)),
              cost + Of(MeasuredCost, r))
    }
  }

  ghost predicate AddsUp(f: Figures, done: seq<TaskRecord>) {
    forall m :: f.At(m) == Total(m, done)
  }

  lemma AddsUpSnoc(f: Figures, done: seq<TaskRecord>, r: TaskRecord)
    requires AddsUp(f, done)
    ensures AddsUp(f.Plus(r), done + [r])
  {
    forall m ensures f.Plus(r).At(m) == Total(m, done + [r]) {
      TotalSnoc(m, done, r);
      assert f.At(m) == Total(m, done);
      assert f.Plus(r).At(m) == f.At(m) + Of(m, r);
    }
  }

  /** What reading the records collects. */
  datatype Collection = Collection(
    taskIds: set<Id>, warnings: set<int>, currencies: set<int>, latest: Option<Time>, costed: nat, figures: Figures)

  const NothingCollected := Collection({}, {}, {}, None, 0, Figures(0, TokenTotals(0, 0, 0, 0), 0))

  predicate Absorbable(r: TaskRecord) {
    && r.TaskRecord? && r.taskId.Some? && r.endTime.Some? && r.attempts.Some? && r.warning != Malformed
    && (CostGiven(r) ==> r.currency.Given?)
  }

  /** `c` after one more acceptable record. */
  function Absorb(c: Collection, r: TaskRecord): Collection
    requires Absorbable(r)
  {
    Collection(c.taskIds + {r.taskId.value},
               if r.warning.Given? then c.warnings + {r.warning.value} else c.warnings,
               if CostGiven(r) then c.currencies + {r.currency.value} else c.currencies,
               if c.latest.Some? && r.endTime.value <= c.latest.value then c.latest else r.endTime,
               if CostGiven(r) then c.costed + 1 else c.costed,
               c.figures.Plus(r))
  }

  ghost predicate Gathers(c: Collection, done: seq<TaskRecord>) {
    && c.taskIds == TaskIds(done) && c.warnings == Warnings(done) && c.currencies == Currencies(done)
    && (done == [] <==> c.latest == None)
    && (c.latest.Some? ==> IsLatest(done, c.latest.value))
  }

  ghost predicate CountsCosts(costed: nat, done: seq<TaskRecord>) {
    && costed <= |done|
    && (costed == 0 <==> forall r :: r in done ==> !CostGiven(r))
    && (costed == |done| <==> forall r :: r in done ==> CostGiven(r))
  }

  /** The collection says of the records, as a whole, what it was built to say. */
  ghost predicate Describes(c: Collection, done: seq<TaskRecord>) {
    Gathers(c, done) && CountsCosts(c.costed, done) && AddsUp(c.figures, done)
  }

  lemma GathersSnoc(c: Collection, done: seq<TaskRecord>, r: TaskRecord)
    requires Gathers(c, done) && Absorbable(r)
    ensures Gathers(Absorb(c, r), done + [r])
  {
    assert forall x :: x in done + [r] <==> x in done || x == r;
  }

  lemma CountsCostsSnoc(costed: nat, done: seq<TaskRecord>, r: TaskRecord)
    requires CountsCosts(costed, done)
    ensures CountsCosts(if CostGiven(r) then costed + 1 else costed, done + [r])
  {
    assert forall x :: x in done + [r] <==> x in done || x == r;
  }

  lemma DescribesSnoc(c: Collection, done: seq<TaskRecord>, r: TaskRecord)
    requires Describes(c, done) && Absorbable(r)
    ensures Describes(Absorb(c, r), done + [r])
  {
    GathersSnoc(c, done, r);
    CountsCostsSnoc(c.costed, done, r);
    AddsUpSnoc(c.figures, done, r);
  }

  /** The checks on one record, in the order they are made; an acceptable record joins the collection. */
  method ReadRecord(run: Id, r: TaskRecord, c: Collection) returns (error: Option<TelemetryError>, c': Collection)
    ensures error == RecordError(run, r, c.taskIds)
    ensures error == None ==> Absorbable(r) && c' == Absorb(c, r)
  {
    c' := c;
    if !r.TaskRecord? { return Some(RecordInvalid), c'; }
    if r.productRun != Some(run) { return Some(RunIdMismatch), c'; }
    if r.result == NotTerminal { return Some(TaskNotTerminal), c'; }
    if r.taskId == None || r.taskId.value in c.taskIds { return Some(TaskIdInvalidOrDuplicate), c'; }
    if r.endTime == None { return Some(TimeInvalid), c'; }
    if r.attempts == None { return Some(AttemptsInvalid), c'; }
    var local;
    error, local := AttemptTotals(r.attempts.value);
    if error.Some? { return; }
    assert local == TokenTotals(Tokens(Gross, r.attempts.value), Tokens(Cached, r.attempts.value),
                                Tokens(Uncached, r.attempts.value), Tokens(Output, r.attempts.value)) by {
      assert local.At(Gross) == local.gross && local.At(Cached) == local.cached;
      assert local.At(Uncached) == local.uncached && local.At(Output) == local.output;
    }
    if !(r.gross == Some(local.gross) && r.cached == Some(local.cached) && r.uncached == Some(local.uncached)
         && r.output == Some(local.output)) {
      return Some(TokenTotalInvalid), c';
    }
    if r.warning == Malformed { return Some(BudgetDecisionInvalid), c'; }
    var warnings, currencies, costed := c.warnings, c.currencies, c.costed;
    if r.warning.Given? { warnings := warnings + {r.warning.value}; }
    var t := c.figures.tokens;
    var figures := Figures(
      c.figures.attempts + |r.attempts.value|,
      TokenTotals(t.gross + local.gross, t.cached + local.cached, t.uncached + local.uncached, t.output + local.output),
      if r.cost.Given? then c.figures.cost + r.cost.value else c.figures.cost);
    if r.cost != Absent || r.currency != Absent {
      if !r.cost.Given? || r.cost.value < 0 || !r.currency.Given? { return Some(CostInvalid), c'; }
      costed, currencies := costed + 1, currencies + {r.currency.value};
    }
    var latest := if c.latest.Some? && r.endTime.value <= c.latest.value then c.latest else r.endTime;
    c' := Collection(c.taskIds + {r.taskId.value}, warnings, currencies, latest, costed, figures);
  }

  /** The loop over the records, unrolled: `c` was collected from the first `n`, none of which was refused. */
  ghost predicate ReadUpTo(run: Id, records: seq<TaskRecord>, n: nat, c: Collection)
    requires n <= |records|
  {
    if n == 0 then c == NothingCollected
    else exists b :: ReadUpTo(run, records, n - 1, b)
                     && RecordError(run, records[n - 1], b.taskIds) == None
                     && Absorbable(records[n - 1]) && c == Absorb(b, records[n - 1])
  }

  lemma {:induction false} ReadDescribes(run: Id, records: seq<TaskRecord>, n: nat, c: Collection)
    requires n <= |records| && ReadUpTo(run, records, n, c)
    ensures Describes(c, records[..n])
  {
    if n > 0 {
      var b :| ReadUpTo(run, records, n - 1, b)
               && RecordError(run, records[n - 1], b.taskIds) == None
               && Absorbable(records[n - 1]) && c == Absorb(b, records[n - 1]);
      assert records[..n] == records[..n - 1] + [records[n - 1]];
      assert Describes(c, records[..n - 1] + [records[n - 1]]) by {
        ReadDescribes(run, records, n - 1, b);
        DescribesSnoc(b, records[..n - 1], records[n - 1]);
      }
    }
  }

  lemma {:induction false} ReadSound(run: Id, records: seq<TaskRecord>, n: nat, c: Collection)
    requires n <= |records| && ReadUpTo(run, records, n, c)
    ensures forall k :: 0 <= k < n ==> RecordError(run, records[k], TaskIds(records[..k])) == None
  {
    if n > 0 {
      var b :| ReadUpTo(run, records, n - 1, b)
               && RecordError(run, records[n - 1], b.taskIds) == None
               && Absorbable(records[n - 1]) && c == Absorb(b, records[n - 1]);
      ReadSound(run, records, n - 1, b);
      assert b.taskIds == TaskIds(records[..n - 1]) by { ReadDescribes(run, records, n - 1, b); }
    }
  }

  lemma {:induction false} FirstError(run: Id, records: seq<TaskRecord>, n: nat, i: nat)
    requires i <= n <= |records|
    requires forall k :: 0 <= k < n ==> RecordError(run, records[k], TaskIds(records[..k])) == None
    ensures RecordsError(run, records, i) == RecordsError(run, records, n)
    decreases n - i
  {
    if i < n { FirstError(run, records, n, i + 1); }
  }

  lemma ReadStops(run: Id, records: seq<TaskRecord>, n: nat, c: Collection)
    requires n <= |records| && ReadUpTo(run, records, n, c)
    ensures n < |records| && RecordError(run, records[n], c.taskIds).Some? ==>
              RecordsError(run, records, 0) == RecordError(run, records[n], c.taskIds)
    ensures n == |records| ==> RecordsError(run, records, 0) == None && Describes(c, records)
  {
    ReadDescribes(run, records, n, c);
    ReadSound(run, records, n, c);
    FirstError(run, records, n, 0);
    if n == |records| { assert records[..n] == records; }
  }

  /** Reads every record in turn, stopping at the first one that is not acceptable. */
  method ReadRecords(run: Id, records: seq<TaskRecord>) returns (error: Option<TelemetryError>, c: Collection)
    ensures error == RecordsError(run, records, 0)
    ensures error == None ==> Describes(c, records)
  {
    error, c := None, NothingCollected;
    var i := 0;
    while i < |records|
      invariant 0 <= i <= |records| && error == None
      invariant ReadUpTo(run, records, i, c)
    {
      ghost var before := c;
      error, c := ReadRecord(run, records[i], c);
      if error.Some? {
        ReadStops(run, records, i, before);
        return;
      }
      i := i + 1;
    }
    ReadStops(run, records, i, c);
  }

  method BuildTelemetry(intent: RunIntent, records: seq<TaskRecord>) returns (result: TelemetryResult)
    ensures match result
            case BadRecords(error) => Error(intent.runId, records) == Some(error)
            case Snapshot(t) => Error(intent.runId, records) == None && Summarises(t, intent, records)
  {
    if records == [] { return BadRecords(RecordsMissing); }
    var error, c := ReadRecords(intent.runId, records);
    if error.Some? { return BadRecords(error.value); }
    if |c.warnings| > 1 { return BadRecords(BudgetDecisionConflict); }
    if c.costed > 0 && c.costed != |records| { return BadRecords(CostIncomplete); }
    if |c.currencies| > 1 { return BadRecords(CostCurrencyConflict); }
    var decision := SoleMember(c.warnings);
    var currency := SoleMember(c.currencies);
    if c.costed > 0 {
      EveryRecordSound(intent.runId, records, 0);
      assert CostGiven(records[0]) && records[0] in records;
      assert records[0].currency.value in c.currencies;
    }
    var f := c.figures;
    FiguresTotal(f, records);
    return Snapshot(RunTelemetry(
      intent.runId, c.taskIds, f.attempts, intent.limits.maxAttempts, f.tokens.gross, f.tokens.cached,
      f.tokens.uncached, f.tokens.output, decision, if c.costed > 0 then Some(f.cost) else None,
      if c.costed > 0 then currency.value else intent.limits.currency, c.latest.value));
  }

  lemma FiguresTotal(f: Figures, records: seq<TaskRecord>)
    requires AddsUp(f, records)
    ensures f.attempts == Total(AttemptCount, records) && f.cost == Total(MeasuredCost, records)
    ensures f.tokens.gross == Total(TokenCount(Gross), records) && f.tokens.cached == Total(TokenCount(Cached), records)
    ensures f.tokens.uncached == Total(TokenCount(Uncached), records) && f.tokens.output == Total(TokenCount(Output), records)
  {
    assert f.At(AttemptCount) == f.attempts && f.At(MeasuredCost) == f.cost;
    assert f.At(TokenCount(Gross)) == f.tokens.gross && f.At(TokenCount(Cached)) == f.tokens.cached;
    assert f.At(TokenCount(Uncached)) == f.tokens.uncached && f.At(TokenCount(Output)) == f.tokens.output;
  }

  lemma {:induction false} EveryRecordSound(run: Id, records: seq<TaskRecord>, i: nat)
    requires i <= |records| && RecordsError(run, records, i) == None
    ensures forall k :: i <= k < |records| ==> RecordError(run, records[k], TaskIds(records[..k])) == None
    decreases |records| - i
  {
    if i < |records| { EveryRecordSound(run, records, i + 1); }
  }
}
