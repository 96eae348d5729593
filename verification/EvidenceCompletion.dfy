/** The strict result adapter: from provider results to records bound to one run and criterion. */
module EvidenceCompletion {
  import opened Prelude
  import opened DayModels

  datatype RawResult =
    | Malformed
    | Result(runId: Id, criterionId: Id, evidenceType: EvidenceType, provider: Id, source: Fingerprint,
             config: Fingerprint, value: Value, sourceHashes: map<Id, Fingerprint>, provenance: Provenance)

  datatype AdaptError =
    | MalformedResult | RunIdMismatch | CriterionIdMismatch | TypeNotRequired | ConfigurationMismatch | ValidationFailed

  datatype Evaluation =
    | CriterionNotFound
    | DayIdentityMismatch
    | Evaluated(satisfied: bool, ids: map<EvidenceType, RecordId>, records: map<RecordId, EvidenceRecord>)

  function FirstCriterion(criteria: seq<Criterion>, id: Id): Option<Criterion> {
    if criteria == [] then None
    else if criteria[0].id == id then Some(criteria[0])
    else FirstCriterion(criteria[1..], id)
  }

  function AdaptReason(env: Env, intent: RunIntent, c: Criterion, raw: RawResult): Option<AdaptError> {
    if raw.Malformed? then Some(MalformedResult)
    else if raw.runId != intent.runId then Some(RunIdMismatch)
    else if raw.criterionId != c.id then Some(CriterionIdMismatch)
    else if raw.evidenceType !in c.required then Some(TypeNotRequired)
    else if raw.config != intent.configFingerprint then Some(ConfigurationMismatch)
    else if !env.validates(raw.evidenceType, raw.value, raw.provider) then Some(ValidationFailed)
    else None
  }

  function Accepts(env: Env, intent: RunIntent, c: Criterion, raw: RawResult): (ok: bool)
    ensures ok ==> raw.Result? && raw.evidenceType in c.required
  {
    AdaptReason(env, intent, c, raw) == None
  }

  function IdFor(intent: RunIntent, c: Criterion, raw: RawResult): RecordId
    requires raw.Result?
  {
    StrictId(intent.runId, c.id, raw.evidenceType, raw.provider, raw.source, raw.value)
  }

  function RecordFor(intent: RunIntent, contract: Contract, c: Criterion, raw: RawResult, at: Time): EvidenceRecord
    requires raw.Result?
  {
    EvidenceRecord(
      IdFor(intent, c, raw), Some(intent.runId), Some(c.id), ADAPTER_PROJECT, contract.day, contract.version,
      raw.evidenceType, raw.provider, raw.source, raw.config, raw.value, true, true, true, raw.source,
      raw.sourceHashes, raw.provenance, at)
  }

  /** For every type, the first result that is accepted for it. */
  function Selected(env: Env, intent: RunIntent, c: Criterion, results: seq<RawResult>): (s: map<EvidenceType, RawResult>)
    ensures forall t :: t in s ==> s[t].Result? && s[t].evidenceType == t
  {
    if results == [] then map[]
    else
      var s, raw := Selected(env, intent, c, results[..|results| - 1]), results[|results| - 1];
      if Accepts(env, intent, c, raw) && raw.evidenceType !in s then s[raw.evidenceType := raw] else s
  }

  function IdsOf(intent: RunIntent, c: Criterion, s: map<EvidenceType, RawResult>): map<EvidenceType, RecordId>
    requires forall t :: t in s ==> s[t].Result?
  {
    map t | t in s :: IdFor(intent, c, s[t])
  }

  /** The records a selection retains: under the id of every selected result, that result's record. */
  ghost predicate Retains(records: map<RecordId, EvidenceRecord>, intent: RunIntent, contract: Contract, c: Criterion,
                          s: map<EvidenceType, RawResult>, at: Time)
    requires forall t :: t in s ==> s[t].Result? && s[t].evidenceType == t
  {
    && (forall t :: t in s ==> IdFor(intent, c, s[t]) in records
                               && records[IdFor(intent, c, s[t])] == RecordFor(intent, contract, c, s[t], at))
    && (forall id :: id in records ==> id.StrictId? && id.evidenceType in s && id == IdFor(intent, c, s[id.evidenceType]))
  }

  function RecordsOf(intent: RunIntent, contract: Contract, c: Criterion, s: map<EvidenceType, RawResult>, at: Time):
    map<RecordId, EvidenceRecord>
    requires forall t :: t in s ==> s[t].Result? && s[t].evidenceType == t
  {
    map id | id in (set t | t in s :: IdFor(intent, c, s[t])) :: RecordFor(intent, contract, c, s[id.evidenceType], at)
  }

  lemma RecordsRetain(intent: RunIntent, contract: Contract, c: Criterion, s: map<EvidenceType, RawResult>, at: Time)
    requires forall t :: t in s ==> s[t].Result? && s[t].evidenceType == t
    ensures Retains(RecordsOf(intent, contract, c, s, at), intent, contract, c, s, at)
  {
  }

  function EvaluationOf(env: Env, intent: RunIntent, contract: Contract, id: Id, results: seq<RawResult>, at: Time): Evaluation {
    var found := FirstCriterion(contract.criteria, id);
    if found == None then CriterionNotFound
    else if intent.selectedDay != contract.day then DayIdentityMismatch
    else
      var c := found.value;
      var s := Selected(env, intent, c, results);
      Evaluated(c.required != [] && (forall t :: t in c.required ==> t in s), IdsOf(intent, c, s),
                RecordsOf(intent, contract, c, s, at))
  }

  method FindCriterion(contract: Contract, id: Id) returns (found: Option<Criterion>)
    ensures found == FirstCriterion(contract.criteria, id)
  {
    var i := 0;
    while i < |contract.criteria|
      invariant 0 <= i <= |contract.criteria|
      invariant FirstCriterion(contract.criteria, id) == FirstCriterion(contract.criteria[i..], id)
    {
      if contract.criteria[i].id == id { return Some(contract.criteria[i]); }
      i := i + 1;
    }
    return None;
  }

  lemma RetainsOneMore(records: map<RecordId, EvidenceRecord>, intent: RunIntent, contract: Contract, c: Criterion,
                       s: map<EvidenceType, RawResult>, raw: RawResult, at: Time)
    requires forall t :: t in s ==> s[t].Result? && s[t].evidenceType == t
    requires raw.Result? && raw.evidenceType !in s && Retains(records, intent, contract, c, s, at)
    ensures var record := RecordFor(intent, contract, c, raw, at);
            Retains(records[record.recordId := record], intent, contract, c, s[raw.evidenceType := raw], at)
  {
    var s' := s[raw.evidenceType := raw];
    assert forall t :: t in s ==> s'[t] == s[t] && IdFor(intent, c, s[t]) != IdFor(intent, c, raw);
  }

  lemma RetainsUnique(a: map<RecordId, EvidenceRecord>, b: map<RecordId, EvidenceRecord>, intent: RunIntent,
                      contract: Contract, c: Criterion, s: map<EvidenceType, RawResult>, at: Time)
    requires forall t :: t in s ==> s[t].Result? && s[t].evidenceType == t
    requires Retains(a, intent, contract, c, s, at) && Retains(b, intent, contract, c, s, at)
    ensures a == b
  {
    forall id ensures id in a <==> id in b {
      if id in a { assert IdFor(intent, c, s[id.evidenceType]) in b; }
      if id in b { assert IdFor(intent, c, s[id.evidenceType]) in a; }
    }
    forall id | id in a ensures a[id] == b[id] {
      assert IdFor(intent, c, s[id.evidenceType]) == id;
    }
  }

  lemma IdsOneMore(intent: RunIntent, c: Criterion, s: map<EvidenceType, RawResult>, raw: RawResult)
    requires forall t :: t in s ==> s[t].Result?
    requires raw.Result?
    ensures IdsOf(intent, c, s[raw.evidenceType := raw]) == IdsOf(intent, c, s)[raw.evidenceType := IdFor(intent, c, raw)]
  {
  }

  lemma SelectedOneMore(env: Env, intent: RunIntent, c: Criterion, results: seq<RawResult>, i: nat)
    requires i < |results|
    ensures var s := Selected(env, intent, c, results[..i]);
            Selected(env, intent, c, results[..i + 1]) ==
              if Accepts(env, intent, c, results[i]) && results[i].evidenceType !in s then s[results[i].evidenceType := results[i]]
              else s
  {
    assert results[..i + 1][..i] == results[..i];
  }

  /** The loop of the evaluator: adapts every result, and keeps the first accepted one of each type. */
  method Adapt(env: Env, intent: RunIntent, contract: Contract, c: Criterion, results: seq<RawResult>, at: Time)
    returns (ids: map<EvidenceType, RecordId>, records: map<RecordId, EvidenceRecord>)
    ensures var s := Selected(env, intent, c, results);
            ids == IdsOf(intent, c, s) && records == RecordsOf(intent, contract, c, s, at)
  {
    ids, records := map[], map[];
    ghost var s: map<EvidenceType, RawResult> := map[];
    var i := 0;
    while i < |results|
      invariant 0 <= i <= |results| && s == Selected(env, intent, c, results[..i])
      invariant ids == IdsOf(intent, c, s) && Retains(records, intent, contract, c, s, at)
    {
      var raw := results[i];
      SelectedOneMore(env, intent, c, results, i);
      if Accepts(env, intent, c, raw) && raw.evidenceType !in ids {
        var record := RecordFor(intent, contract, c, raw, at);
        RetainsOneMore(records, intent, contract, c, s, raw, at);
        IdsOneMore(intent, c, s, raw);
        records := records[record.recordId := record];
        ids := ids[raw.evidenceType := record.recordId];
        s := s[raw.evidenceType := raw];
      }
      i := i + 1;
    }
    assert results[..i] == results;
    RecordsRetain(intent, contract, c, s, at);
    RetainsUnique(records, RecordsOf(intent, contract, c, s, at), intent, contract, c, s, at);
  }

  /** Evaluates one criterion: it is satisfied when every required type, and there is one, has an accepted result. */
  method EvaluateCriterion(env: Env, intent: RunIntent, contract: Contract, id: Id, results: seq<RawResult>, at: Time)
    returns (e: Evaluation)
    ensures e == EvaluationOf(env, intent, contract, id, results, at)
  {
    var found := FindCriterion(contract, id);
    if found == None { return CriterionNotFound; }
    if intent.selectedDay != contract.day { return DayIdentityMismatch; }
    var c := found.value;
    var ids, records := Adapt(env, intent, contract, c, results, at);
    var required := set t | t in c.required;
    ghost var s := Selected(env, intent, c, results);
    SelectedOnlyRequired(env, intent, c, results);
    assert ids.Keys == s.Keys;
    assert required == ids.Keys <==> forall t :: t in c.required ==> t in s;
    assert required == {} <==> c.required == [] by { assert c.required != [] ==> c.required[0] in required; }
    return Evaluated(required != {} && required == ids.Keys, ids, records);
  }

  lemma {:induction false} SelectedOnlyRequired(env: Env, intent: RunIntent, c: Criterion, results: seq<RawResult>)
    ensures forall t :: t in Selected(env, intent, c, results) ==> t in c.required
  {
    if results != [] { SelectedOnlyRequired(env, intent, c, results[..|results| - 1]); }
  }

  /** What was selected: exactly the types some result is accepted for, each by its first accepted result. */
  lemma {:induction false} SelectedIsFirstAccepted(env: Env, intent: RunIntent, c: Criterion, results: seq<RawResult>, t: EvidenceType)
    ensures var s := Selected(env, intent, c, results);
            && (t in s <==> exists k :: 0 <= k < |results| && Accepts(env, intent, c, results[k]) && results[k].evidenceType == t)
            && (t in s ==> exists k :: 0 <= k < |results| && Accepts(env, intent, c, results[k]) && results[k] == s[t]
                             && forall j :: 0 <= j < k ==> !(Accepts(env, intent, c, results[j]) && results[j].evidenceType == t))
  {
    if results != [] {
      var n := |results| - 1;
      var before := results[..n];
      SelectedIsFirstAccepted(env, intent, c, before, t);
      assert forall k :: 0 <= k < n ==> before[k] == results[k];
      var prior, s := Selected(env, intent, c, before), Selected(env, intent, c, results);
      if t in prior {
        var k :| 0 <= k < n && Accepts(env, intent, c, before[k]) && before[k] == prior[t]
                 && forall j :: 0 <= j < k ==> !(Accepts(env, intent, c, before[j]) && before[j].evidenceType == t);
        assert Accepts(env, intent, c, results[k]) && results[k] == s[t];
        forall j | 0 <= j < k ensures !(Accepts(env, intent, c, results[j]) && results[j].evidenceType == t) {
          assert before[j] == results[j];
        }
      } else if t in s {
        assert Accepts(env, intent, c, results[n]) && results[n] == s[t];
        forall j | 0 <= j < n ensures !(Accepts(env, intent, c, results[j]) && results[j].evidenceType == t) {
          assert before[j] == results[j];
        }
      }
    }
  }
}
