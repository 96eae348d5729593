/**
 * Binding validated Day evidence to one run, and verifying a bound snapshot.
 *
 * Everything here is about values: one run intent, the contract of the Day snapshot, and the snapshot.
 */
module EvidenceBinding {
  import opened Prelude
  import opened DayModels
  import opened EvidenceCompletion

  datatype Reason =
    | RunNotCurrent | SnapshotRunMismatch | DayIdentity | ContractMissing | ContractMismatch | FingerprintMismatch
    | SourceInvalid | SourceContractMismatch | SourceBindingMismatch | SourceConfigMismatch | BindingIncomplete
    | BoundEvidenceInvalid | BoundIdentityMismatch | BoundEvidenceConflict
    | EvidenceIncomplete | RequiredReviewUnverified
    | RepairNotBound | ReportBoundToOtherRun | ReviewNotBound | DecisionBoundToOtherRun | DecisionNotBound

  function SourceOf(day: DaySnapshot, c: Criterion, t: EvidenceType): Option<EvidenceRecord> {
    if t in c.recordIds && c.recordIds[t] in day.evidence then Some(day.evidence[c.recordIds[t]]) else None
  }

  function RawOf(intent: RunIntent, c: Criterion, source: Option<EvidenceRecord>): RawResult {
    if source == None then Malformed
    else
      var s := source.value;
      Result(intent.runId, c.id, s.evidenceType, s.provider, s.sourceFingerprint, intent.configFingerprint, s.value,
             s.sourceHashes, s.provenance)
  }

  function ResultsOf(intent: RunIntent, day: DaySnapshot, c: Criterion): seq<RawResult> {
    seq(|c.required|, j requires 0 <= j < |c.required| => RawOf(intent, c, SourceOf(day, c, c.required[j])))
  }

  // ----- binding -----

  function BindSourceReason(env: Env, intent: RunIntent, contract: Contract, day: DaySnapshot, c: Criterion, t: EvidenceType):
    (reason: Option<Reason>)
    ensures reason == None ==> SourceOf(day, c, t).Some?
  {
    var source := SourceOf(day, c, t);
    if source == None || !EvidenceValid(env, t, source.value) then Some(SourceInvalid)
    else
      var s := source.value;
      var unbound := s.runId == None && s.criterionId == None;
      var exact := s.runId == Some(intent.runId) && s.criterionId == Some(c.id);
      if s.day != contract.day || s.version != contract.version then Some(SourceContractMismatch)
      else if !unbound && !exact then Some(SourceBindingMismatch)
      else if exact && s.configFingerprint != intent.configFingerprint then Some(SourceConfigMismatch)
      else None
  }

  function BindSourcesReason(env: Env, intent: RunIntent, contract: Contract, day: DaySnapshot, c: Criterion, j: nat): Option<Reason>
    requires j <= |c.required|
    decreases |c.required| - j
  {
    if j == |c.required| then None
    else
      var reason := BindSourceReason(env, intent, contract, day, c, c.required[j]);
      if reason.Some? then reason else BindSourcesReason(env, intent, contract, day, c, j + 1)
  }

  function Bound(env: Env, intent: RunIntent, contract: Contract, day: DaySnapshot, c: Criterion, at: Time): Evaluation {
    EvaluationOf(env, intent, contract, c.id, ResultsOf(intent, day, c), at)
  }

  /** What is to be stored for one criterion once every criterion is found bindable. */
  datatype Pending = Pending(ids: map<EvidenceType, RecordId>, records: map<RecordId, EvidenceRecord>)

  datatype BindStep = Refused(reason: Reason) | Ready(pending: Pending)

  function BindCriterion(env: Env, intent: RunIntent, contract: Contract, day: DaySnapshot, c: Criterion, at: Time): BindStep {
    var reason := BindSourcesReason(env, intent, contract, day, c, 0);
    var e := Bound(env, intent, contract, day, c, at);
    if reason.Some? then Refused(reason.value)
    else if !e.Evaluated? || !e.satisfied then Refused(BindingIncomplete)
    else Ready(Pending(e.ids, e.records))
  }

  datatype BindResult = BindRefused(reason: Reason) | AllReady(pending: seq<Pending>)

  /** The first `n` criteria: all pending, or the reason of the first one that cannot be bound. */
  function BindUpTo(env: Env, intent: RunIntent, contract: Contract, day: DaySnapshot, n: nat, at: Time): BindResult
    requires n <= |contract.criteria|
  {
    if n == 0 then AllReady([])
    else
      match BindUpTo(env, intent, contract, day, n - 1, at)
      case BindRefused(reason) => BindRefused(reason)
      case AllReady(pending) =>
        match BindCriterion(env, intent, contract, day, contract.criteria[n - 1], at)
        case Refused(reason) => BindRefused(reason)
        case Ready(p) => AllReady(pending + [p])
  }

  lemma {:induction false} RefusedStays(env: Env, intent: RunIntent, contract: Contract, day: DaySnapshot, i: nat, n: nat, at: Time)
    requires i <= n <= |contract.criteria| && BindUpTo(env, intent, contract, day, i, at).BindRefused?
    ensures BindUpTo(env, intent, contract, day, n, at) == BindUpTo(env, intent, contract, day, i, at)
  {
    if i < n { RefusedStays(env, intent, contract, day, i, n - 1, at); }
  }

  /** The evidence store with every pending record added, criterion by criterion. */
  function Stored(evidence: map<RecordId, EvidenceRecord>, pending: seq<Pending>): map<RecordId, EvidenceRecord> {
    if pending == [] then evidence
    else Stored(evidence, pending[..|pending| - 1]) + pending[|pending| - 1].records
  }

  function Bindings(criteria: seq<Criterion>, pending: seq<Pending>): seq<Criterion>
    requires |pending| == |criteria|
  {
    seq(|criteria|, k requires 0 <= k < |criteria| => criteria[k].(recordIds := pending[k].ids, satisfied := true))
  }

  function SatisfiedIds(criteria: seq<Criterion>, satisfied: bool): seq<Id> {
    if criteria == [] then []
    else
      SatisfiedIds(criteria[..|criteria| - 1], satisfied)
      + if criteria[|criteria| - 1].satisfied == satisfied then [criteria[|criteria| - 1].id] else []
  }

  function Settled(contract: Contract, criteria: seq<Criterion>): Contract {
    contract.(criteria := criteria, satisfiedCriteria := SatisfiedIds(criteria, true), remainingGaps := SatisfiedIds(criteria, false))
  }

  function BoundDay(day: DaySnapshot, contract: Contract, pending: seq<Pending>): DaySnapshot
    requires |pending| == |contract.criteria|
  {
    day.(evidence := Stored(day.evidence, pending),
         contract := Some(Settled(contract, Bindings(contract.criteria, pending))))
  }

  // ----- verifying -----

  function VerifySourceReason(env: Env, intent: RunIntent, contract: Contract, day: DaySnapshot, c: Criterion, t: EvidenceType): Option<Reason> {
    var source := SourceOf(day, c, t);
    if source == None || !EvidenceValid(env, t, source.value) then Some(BoundEvidenceInvalid)
    else
      var s := source.value;
      if s.runId != Some(intent.runId) || s.criterionId != Some(c.id) || s.day != contract.day
         || s.version != contract.version || s.configFingerprint != intent.configFingerprint then Some(BoundIdentityMismatch)
      else None
  }

  function VerifySourcesReason(env: Env, intent: RunIntent, contract: Contract, day: DaySnapshot, c: Criterion, j: nat): Option<Reason>
    requires j <= |c.required|
    decreases |c.required| - j
  {
    if j == |c.required| then None
    else
      var reason := VerifySourceReason(env, intent, contract, day, c, c.required[j]);
      if reason.Some? then reason else VerifySourcesReason(env, intent, contract, day, c, j + 1)
  }

  function VerifyCriterionReason(env: Env, intent: RunIntent, contract: Contract, day: DaySnapshot, c: Criterion, at: Time): Option<Reason> {
    var reason := VerifySourcesReason(env, intent, contract, day, c, 0);
    var e := Bound(env, intent, contract, day, c, at);
    if reason.Some? then reason
    else if !e.Evaluated? || !e.satisfied || e.ids != c.recordIds then Some(BoundEvidenceConflict)
    else None
  }

  function VerifyReason(env: Env, intent: RunIntent, contract: Contract, day: DaySnapshot, i: nat, at: Time): Option<Reason>
    requires i <= |contract.criteria|
    decreases |contract.criteria| - i
  {
    if i == |contract.criteria| then None
    else
      var reason := VerifyCriterionReason(env, intent, contract, day, contract.criteria[i], at);
      if reason.Some? then reason else VerifyReason(env, intent, contract, day, i + 1, at)
  }

  // ----- what one criterion needs, and gets -----

  lemma {:induction false} BindSourcesNone(env: Env, intent: RunIntent, contract: Contract, day: DaySnapshot, c: Criterion, j: nat)
    requires j <= |c.required|
    ensures BindSourcesReason(env, intent, contract, day, c, j) == None <==>
            forall k :: j <= k < |c.required| ==> BindSourceReason(env, intent, contract, day, c, c.required[k]) == None
    decreases |c.required| - j
  {
    if j < |c.required| { BindSourcesNone(env, intent, contract, day, c, j + 1); }
  }

  lemma {:induction false} VerifySourcesNone(env: Env, intent: RunIntent, contract: Contract, day: DaySnapshot, c: Criterion, j: nat)
    requires j <= |c.required|
    ensures VerifySourcesReason(env, intent, contract, day, c, j) == None <==>
            forall k :: j <= k < |c.required| ==> VerifySourceReason(env, intent, contract, day, c, c.required[k]) == None
    decreases |c.required| - j
  {
    if j < |c.required| { VerifySourcesNone(env, intent, contract, day, c, j + 1); }
  }

  /** Every required source is present and valid for its type. */
  ghost predicate SourcesValid(env: Env, day: DaySnapshot, c: Criterion) {
    forall t :: t in c.required ==> SourceOf(day, c, t).Some? && EvidenceValid(env, t, SourceOf(day, c, t).value)
  }

  lemma {:induction false} FirstHasId(criteria: seq<Criterion>, k: nat)
    requires k < |criteria|
    ensures var f := FirstCriterion(criteria, criteria[k].id); f.Some? && f.value.id == criteria[k].id
  {
    if k > 0 && criteria[0].id != criteria[k].id { FirstHasId(criteria[1..], k - 1); }
  }

  /** A valid source is accepted exactly when its type is required by the criterion that is looked up. */
  lemma SelectedSources(env: Env, intent: RunIntent, day: DaySnapshot, c: Criterion, f: Criterion, t: EvidenceType)
    requires SourcesValid(env, day, c) && f.id == c.id
    ensures var s := Selected(env, intent, f, ResultsOf(intent, day, c));
            && (t in s <==> t in c.required && t in f.required)
            && (t in s ==> s[t] == RawOf(intent, c, SourceOf(day, c, t)))
  {
    var results := ResultsOf(intent, day, c);
    forall j | 0 <= j < |results|
      ensures results[j].Result? && results[j].evidenceType == c.required[j]
      ensures results[j] == RawOf(intent, c, SourceOf(day, c, c.required[j]))
      ensures Accepts(env, intent, f, results[j]) <==> c.required[j] in f.required
    {
      assert c.required[j] in c.required;
    }
    SelectedIsFirstAccepted(env, intent, f, results, t);
    if t in c.required && t in f.required {
      var j :| 0 <= j < |c.required| && c.required[j] == t;
      assert Accepts(env, intent, f, results[j]) && results[j].evidenceType == t;
    }
  }

  /** The id a valid source of this type is bound under. */
  function BoundId(intent: RunIntent, c: Criterion, s: EvidenceRecord): RecordId {
    StrictId(intent.runId, c.id, s.evidenceType, s.provider, s.sourceFingerprint, s.value)
  }

  /** The ids a criterion is bound under: one for each type that the criterion looked up, `f`, also requires. */
  ghost predicate BoundIds(intent: RunIntent, day: DaySnapshot, c: Criterion, f: Criterion, ids: map<EvidenceType, RecordId>) {
    && (forall t :: t in ids <==> t in c.required && t in f.required)
    && (forall t :: t in ids ==> SourceOf(day, c, t).Some? && ids[t] == BoundId(intent, c, SourceOf(day, c, t).value))
  }

  lemma BoundIdsUnique(intent: RunIntent, day: DaySnapshot, c: Criterion, f: Criterion, a: map<EvidenceType, RecordId>,
                       b: map<EvidenceType, RecordId>)
    requires BoundIds(intent, day, c, f, a)
    ensures BoundIds(intent, day, c, f, b) <==> a == b
  {
    if BoundIds(intent, day, c, f, b) {
      assert forall t :: t in a <==> t in b;
      assert forall t :: t in a ==> a[t] == b[t];
      assert a == b;
    }
  }

  predicate CoversLooked(c: Criterion, f: Criterion) {
    f.required != [] && forall t :: t in f.required ==> t in c.required
  }

  /** What the evaluation of a criterion with valid sources comes to, when `f` is the criterion of that id. */
  lemma BoundIs(env: Env, intent: RunIntent, contract: Contract, day: DaySnapshot, c: Criterion, f: Criterion, at: Time)
    requires SourcesValid(env, day, c) && FirstCriterion(contract.criteria, c.id) == Some(f) && f.id == c.id
    requires intent.selectedDay == contract.day
    ensures var e := Bound(env, intent, contract, day, c, at);
            && e.Evaluated?
            && (e.satisfied <==> CoversLooked(c, f))
            && BoundIds(intent, day, c, f, e.ids)
  {
    var s := Selected(env, intent, f, ResultsOf(intent, day, c));
    forall t ensures (t in s <==> t in c.required && t in f.required)
                     && (t in s ==> s[t] == RawOf(intent, c, SourceOf(day, c, t)))
    {
      SelectedSources(env, intent, day, c, f, t);
    }
  }

  /** A record that proves, under its own id, one type of one criterion for this run. */
  ghost predicate Proves(env: Env, intent: RunIntent, contract: Contract, id: RecordId, r: EvidenceRecord) {
    && id.StrictId? && r.recordId == id
    && id == StrictId(intent.runId, id.criterionId, r.evidenceType, r.provider, r.sourceFingerprint, r.value)
    && r.runId == Some(intent.runId) && r.criterionId == Some(id.criterionId)
    && r.day == contract.day && r.version == contract.version && r.configFingerprint == intent.configFingerprint
    && EvidenceValid(env.(project := ADAPTER_PROJECT), r.evidenceType, r)
  }

  lemma RecordsProve(env: Env, intent: RunIntent, contract: Contract, day: DaySnapshot, c: Criterion, f: Criterion, at: Time)
    requires SourcesValid(env, day, c) && FirstCriterion(contract.criteria, c.id) == Some(f) && f.id == c.id
    requires intent.selectedDay == contract.day
    ensures var e := Bound(env, intent, contract, day, c, at);
            && e.Evaluated?
            && (forall t :: t in e.ids ==> e.ids[t] in e.records)
            && (forall id :: id in e.records ==> Proves(env, intent, contract, id, e.records[id]))
  {
    var s := Selected(env, intent, f, ResultsOf(intent, day, c));
    var records := RecordsOf(intent, contract, f, s, at);
    RecordsRetain(intent, contract, f, s, at);
    assert Bound(env, intent, contract, day, c, at).records == records;
    forall id | id in records ensures Proves(env, intent, contract, id, records[id]) {
      SelectedSources(env, intent, day, c, f, id.evidenceType);
      assert records[id] == RecordFor(intent, contract, f, s[id.evidenceType], at);
    }
  }

  // ----- exactly when one criterion binds, and when it verifies -----

  ghost predicate Binds(env: Env, intent: RunIntent, contract: Contract, day: DaySnapshot, c: Criterion, f: Criterion) {
    CoversLooked(c, f) && forall t :: t in c.required ==> BindSourceReason(env, intent, contract, day, c, t) == None
  }

  lemma CriterionBinds(env: Env, intent: RunIntent, contract: Contract, day: DaySnapshot, c: Criterion, f: Criterion, at: Time)
    requires FirstCriterion(contract.criteria, c.id) == Some(f) && f.id == c.id && intent.selectedDay == contract.day
    ensures var step := BindCriterion(env, intent, contract, day, c, at);
            && (step.Ready? <==> Binds(env, intent, contract, day, c, f))
            && (step.Ready? ==>
                  && BoundIds(intent, day, c, f, step.pending.ids)
                  && (forall t :: t in step.pending.ids ==> step.pending.ids[t] in step.pending.records)
                  && (forall id :: id in step.pending.records ==> Proves(env, intent, contract, id, step.pending.records[id])))
  {
    BindSourcesNone(env, intent, contract, day, c, 0);
    assert (forall t :: t in c.required ==> BindSourceReason(env, intent, contract, day, c, t) == None)
           <==> BindSourcesReason(env, intent, contract, day, c, 0) == None;
    if BindSourcesReason(env, intent, contract, day, c, 0) == None {
      assert SourcesValid(env, day, c);
      BoundIs(env, intent, contract, day, c, f, at);
      RecordsProve(env, intent, contract, day, c, f, at);
    }
  }

  ghost predicate Verifies(env: Env, intent: RunIntent, contract: Contract, day: DaySnapshot, c: Criterion, f: Criterion) {
    && CoversLooked(c, f)
    && (forall t :: t in c.required ==> VerifySourceReason(env, intent, contract, day, c, t) == None)
    && BoundIds(intent, day, c, f, c.recordIds)
  }

  lemma CriterionVerifies(env: Env, intent: RunIntent, contract: Contract, day: DaySnapshot, c: Criterion, f: Criterion, at: Time)
    requires FirstCriterion(contract.criteria, c.id) == Some(f) && f.id == c.id && intent.selectedDay == contract.day
    ensures VerifyCriterionReason(env, intent, contract, day, c, at) == None <==> Verifies(env, intent, contract, day, c, f)
  {
    VerifySourcesNone(env, intent, contract, day, c, 0);
    assert (forall t :: t in c.required ==> VerifySourceReason(env, intent, contract, day, c, t) == None)
           <==> VerifySourcesReason(env, intent, contract, day, c, 0) == None;
    if VerifySourcesReason(env, intent, contract, day, c, 0) == None {
      assert SourcesValid(env, day, c);
      BoundIs(env, intent, contract, day, c, f, at);
      BoundIdsUnique(intent, day, c, f, Bound(env, intent, contract, day, c, at).ids, c.recordIds);
    }
  }
}
