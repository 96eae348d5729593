/** What accepted terminal telemetry conserves, and that the order of the task records is irrelevant. */
module TelemetryProperties {
  import opened Prelude
  import opened DayModels
  import opened TerminalTelemetry

  // ----- conservation -----

  lemma {:induction false} AttemptTokensSplit(attempts: seq<RawAttempt>)
    ensures forall kind :: 0 <= Tokens(kind, attempts)
    ensures Tokens(Gross, attempts) == Tokens(Cached, attempts) + Tokens(Uncached, attempts)
  {
    if attempts != [] { AttemptTokensSplit(attempts[1..]); }
  }

  lemma {:induction false} TotalsSplit(records: seq<TaskRecord>)
    ensures Total(TokenCount(Gross), records) == Total(TokenCount(Cached), records) + Total(TokenCount(Uncached), records)
  {
    if records != [] {
      TotalsSplit(records[1..]);
      if records[0].TaskRecord? && records[0].attempts.Some? { AttemptTokensSplit(records[0].attempts.value); }
    }
  }

  lemma {:induction false} TotalsNonNegative(m: Measure, records: seq<TaskRecord>)
    requires forall k :: 0 <= k < |records| ==> 0 <= Of(m, records[k])
    ensures 0 <= Total(m, records)
  {
    if records != [] { TotalsNonNegative(m, records[1..]); }
  }

  lemma SoundRecordNonNegative(run: Id, r: TaskRecord, m: Measure)
    requires RecordError(run, r, {}) == None
    ensures 0 <= Of(m, r)
  {
    AttemptTokensSplit(r.attempts.value);
  }

  /** An accepted snapshot always meets its own validator: the input split adds up. */
  lemma AcceptedTelemetryIsValid(intent: RunIntent, records: seq<TaskRecord>, t: RunTelemetry)
    requires Error(intent.runId, records) == None && Summarises(t, intent, records)
    ensures t.Valid()
  {
    AcceptableWhenNoError(intent.runId, records);
    forall m ensures 0 <= Total(m, records) {
      forall k | 0 <= k < |records| ensures 0 <= Of(m, records[k]) {
        assert records[k] in records;
        SoundRecordNonNegative(intent.runId, records[k], m);
      }
      TotalsNonNegative(m, records);
    }
    TotalsSplit(records);
  }

  function AttemptsOf(r: TaskRecord): seq<RawAttempt> {
    if r.TaskRecord? && r.attempts.Some? then r.attempts.value else []
  }

  function AllAttempts(records: seq<TaskRecord>): seq<RawAttempt> {
    if records == [] then [] else AttemptsOf(records[0]) + AllAttempts(records[1..])
  }

  /** The totals of the run are the totals over every attempt of every task. */
  lemma {:induction false} TotalsCoverAllAttempts(kind: TokenKind, records: seq<TaskRecord>)
    ensures Total(TokenCount(kind), records) == Tokens(kind, AllAttempts(records))
    ensures Total(AttemptCount, records) == |AllAttempts(records)|
  {
    if records != [] {
      TotalsCoverAllAttempts(kind, records[1..]);
      TokensAppend(kind, AttemptsOf(records[0]), AllAttempts(records[1..]));
    }
  }

  // ----- acceptance, stated without an order -----

  ghost predicate Acceptable(run: Id, records: seq<TaskRecord>) {
    && records != []
    && (forall r :: r in records ==> RecordError(run, r, {}) == None)
    && |TaskIds(records)| == |records|
    && |Warnings(records)| <= 1
    && ((forall r :: r in records ==> CostGiven(r)) || (forall r :: r in records ==> !CostGiven(r)))
    && |Currencies(records)| <= 1
  }

  lemma TaskIdsSnoc(done: seq<TaskRecord>, r: TaskRecord)
    requires r.TaskRecord? && r.taskId.Some?
    ensures TaskIds(done + [r]) == TaskIds(done) + {r.taskId.value}
  {
    assert forall x :: x in done + [r] <==> x in done || x == r;
  }

  predicate FreshId(records: seq<TaskRecord>, k: nat)
    requires k < |records|
  {
    records[k].TaskRecord? && records[k].taskId.Some? && records[k].taskId.value !in TaskIds(records[..k])
  }

  /** Every prefix of the records has one task id per record exactly while no id repeats. */
  lemma {:induction false} DistinctIds(records: seq<TaskRecord>, n: nat)
    requires n <= |records|
    requires forall k :: 0 <= k < n ==> records[k].TaskRecord? && records[k].taskId.Some?
    ensures |TaskIds(records[..n])| <= n
    ensures |TaskIds(records[..n])| == n <==> forall k :: 0 <= k < n ==> FreshId(records, k)
  {
    if n > 0 {
      var before, r := records[..n - 1], records[n - 1];
      DistinctIds(records, n - 1);
      assert TaskIds(records[..n]) == TaskIds(before) + {r.taskId.value} by {
        TaskIdsSnoc(before, r);
        assert records[..n] == before + [r];
      }
      assert FreshId(records, n - 1) <==> r.taskId.value !in TaskIds(before);
    } else {
      assert TaskIds(records[..0]) == {};
    }
  }

  lemma AcceptableWhenNoError(run: Id, records: seq<TaskRecord>)
    ensures Error(run, records) == None <==> Acceptable(run, records)
  {
    assert records[..|records|] == records;
    if Error(run, records) == None {
      EveryRecordSound(run, records, 0);
      forall k | 0 <= k < |records| ensures FreshId(records, k) && RecordError(run, records[k], {}) == None {
        assert RecordError(run, records[k], TaskIds(records[..k])) == None;
      }
      DistinctIds(records, |records|);
    }
    if Acceptable(run, records) {
      forall k | 0 <= k < |records| ensures RecordError(run, records[k], {}) == None {
        assert records[k] in records;
      }
      DistinctIds(records, |records|);
      forall k | 0 <= k < |records| ensures RecordError(run, records[k], TaskIds(records[..k])) == None {
        assert FreshId(records, k);
      }
      FirstError(run, records, |records|, 0);
    }
  }

  // ----- order -----

  lemma TotalInsert(m: Measure, left: seq<TaskRecord>, r: TaskRecord, right: seq<TaskRecord>)
    ensures Total(m, left + [r] + right) == Of(m, r) + Total(m, left + right)
  {
    TotalAppend(m, left + [r], right);
    TotalSnoc(m, left, r);
    TotalAppend(m, left, right);
  }

  lemma {:induction false} TotalPermutation(m: Measure, a: seq<TaskRecord>, b: seq<TaskRecord>)
    requires multiset(a) == multiset(b)
    ensures Total(m, a) == Total(m, b)
  {
    if a == [] {
      PermutationElements(a, b);
    } else {
      var left, right := PermutationTail(a, b);
      TotalPermutation(m, a[1..], left + right);
      TotalInsert(m, left, a[0], right);
    }
  }

  /**
   * Reordering the task records changes neither whether they are accepted nor a single field of the
   * snapshot; in particular two accepted snapshots of the same records are equal.
   */
  lemma OrderIsIrrelevant(intent: RunIntent, a: seq<TaskRecord>, b: seq<TaskRecord>)
    requires multiset(a) == multiset(b)
    ensures Error(intent.runId, a) == None <==> Error(intent.runId, b) == None
    ensures forall t, u :: Summarises(t, intent, a) && Summarises(u, intent, b) ==> t == u
  {
    PermutationElements(a, b);
    forall m ensures Total(m, a) == Total(m, b) { TotalPermutation(m, a, b); }
    assert TaskIds(a) == TaskIds(b) && Warnings(a) == Warnings(b) && Currencies(a) == Currencies(b);
    AcceptableWhenNoError(intent.runId, a);
    AcceptableWhenNoError(intent.runId, b);
    forall t, u | Summarises(t, intent, a) && Summarises(u, intent, b) ensures t == u {
      SummaryUnique(t, u, intent, a, b);
    }
  }

  lemma SummaryUnique(t: RunTelemetry, u: RunTelemetry, intent: RunIntent, a: seq<TaskRecord>, b: seq<TaskRecord>)
    requires forall r :: r in a <==> r in b
    requires forall m :: Total(m, a) == Total(m, b)
    requires TaskIds(a) == TaskIds(b) && Warnings(a) == Warnings(b) && Currencies(a) == Currencies(b)
    requires Summarises(t, intent, a) && Summarises(u, intent, b)
    ensures t == u
  {
    assert t.budgetDecision == u.budgetDecision by {
      assert forall x: int, y: int :: {x} == {y} ==> x in {y};
      if t.budgetDecision.Some? { assert t.budgetDecision.value in Warnings(a); }
      if u.budgetDecision.Some? { assert u.budgetDecision.value in Warnings(a); }
    }
    assert t.cost == u.cost;
    assert t.currency == u.currency by {
      if t.cost.Some? { assert t.currency in Currencies(b); }
    }
    assert t.capturedAt == u.capturedAt;
  }

  // ----- the one snapshot of a list of records -----

  lemma {:induction false} LatestExists(records: seq<TaskRecord>) returns (at: Time)
    requires records != [] && forall r :: r in records ==> r.TaskRecord? && r.endTime.Some?
    ensures IsLatest(records, at)
  {
    at := records[0].endTime.value;
    if |records| > 1 {
      assert forall r :: r in records <==> r == records[0] || r in records[1..];
      var rest := LatestExists(records[1..]);
      if rest > at { at := rest; }
    }
  }

  lemma AtMostOne<T(!new)>(s: set<T>) returns (r: Option<T>)
    requires |s| <= 1
    ensures s == if r.Some? then {r.value} else {}
  {
    if s == {} {
      r := None;
    } else {
      var x :| x in s;
      assert |s - {x}| == 0;
      r := Some(x);
    }
  }

  lemma SummaryExists(intent: RunIntent, records: seq<TaskRecord>)
    requires Error(intent.runId, records) == None
    ensures exists t :: Summarises(t, intent, records)
  {
    AcceptableWhenNoError(intent.runId, records);
    hide RecordError, Error;
    forall r | r in records ensures r.TaskRecord? && r.endTime.Some? { SoundRecord(intent.runId, r); }
    var at := LatestExists(records);
    var decision := AtMostOne(Warnings(records));
    var currency := AtMostOne(Currencies(records));
    var costed := exists r :: r in records && CostGiven(r);
    if costed {
      SoundRecord(intent.runId, records[0]);
      assert records[0] in records && records[0].currency.value in Currencies(records);
    }
    var t := RunTelemetry(
      intent.runId, TaskIds(records), Total(AttemptCount, records), intent.limits.maxAttempts,
      Total(TokenCount(Gross), records), Total(TokenCount(Cached), records), Total(TokenCount(Uncached), records),
      Total(TokenCount(Output), records), decision, if costed then Some(Total(MeasuredCost, records)) else None,
      if costed then currency.value else intent.limits.currency, at);
    assert Summarises(t, intent, records);
  }

  lemma SoundRecord(run: Id, r: TaskRecord)
    requires RecordError(run, r, {}) == None
    ensures r.TaskRecord? && r.endTime.Some? && (CostGiven(r) ==> r.currency.Given?)
  {
  }

  /** The snapshot that acceptable records determine, whatever their order. */
  ghost function TelemetryFor(intent: RunIntent, records: seq<TaskRecord>): (t: RunTelemetry)
    requires Error(intent.runId, records) == None
    ensures Summarises(t, intent, records)
  {
    SummaryExists(intent, records);
    var t :| Summarises(t, intent, records);
    t
  }

  lemma TelemetryIsDetermined(intent: RunIntent, a: seq<TaskRecord>, b: seq<TaskRecord>)
    requires multiset(a) == multiset(b)
    ensures Error(intent.runId, a) == None <==> Error(intent.runId, b) == None
    ensures Error(intent.runId, a) == None ==>
              && TelemetryFor(intent, a) == TelemetryFor(intent, b)
              && forall t :: Summarises(t, intent, a) ==> t == TelemetryFor(intent, b)
  {
    OrderIsIrrelevant(intent, a, b);
    hide Error, Summarises;
  }
}
