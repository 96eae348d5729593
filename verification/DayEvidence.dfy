/** Re-evaluating a Day contract against its evidence store, as the worker does in every cycle and on restart. */
module DayEvidence {
  import opened Prelude
  import opened DayModels
  import opened EvidenceCompletion
  import opened EvidenceBinding
  import opened BindingProperties

  const RETAINED_RESOLVER: Id := 1

  /** What the resolver found retained for one type; `valid` is the answer of that type's validator. */
  datatype Observation = Observation(value: Value, valid: bool, sourceHashes: map<Id, Fingerprint>, provenance: Provenance)

  datatype Inventory = Inventory(retained: Option<map<EvidenceType, Observation>>, fingerprint: Fingerprint)

  // ----- ingesting retained evidence -----

  predicate StillRetained(retained: map<EvidenceType, Observation>, t: EvidenceType) {
    t in retained && retained[t].valid
  }

  function Rechecked(r: EvidenceRecord, day: nat, retained: map<EvidenceType, Observation>): EvidenceRecord {
    if r.provider == RETAINED_RESOLVER && r.day == day then r.(compatible := StillRetained(retained, r.evidenceType)) else r
  }

  function LegacyIdOf(env: Env, contract: Contract, t: EvidenceType, o: Observation, inventory: Fingerprint): RecordId {
    LegacyId(env.project, contract.day, contract.version, t, o.value, inventory)
  }

  function LegacyRecordOf(env: Env, contract: Contract, t: EvidenceType, o: Observation, inventory: Fingerprint, at: Time): EvidenceRecord {
    EvidenceRecord(LegacyIdOf(env, contract, t, o, inventory), None, None, env.project, contract.day, contract.version, t,
                   RETAINED_RESOLVER, o.value, inventory, o.value, true, true, true, inventory, o.sourceHashes, o.provenance, at)
  }

  /** The record that retained evidence of type `t` stands for, found or made. */
  function WithRetained(env: Env, evidence: map<RecordId, EvidenceRecord>, contract: Contract, t: EvidenceType, o: Observation,
                        inventory: Fingerprint, at: Time): map<RecordId, EvidenceRecord>
  {
    var id := LegacyIdOf(env, contract, t, o, inventory);
    if id in evidence then evidence[id := evidence[id].(compatible := true)]
    else evidence[id := LegacyRecordOf(env, contract, t, o, inventory, at)]
  }

  /** What ingesting does to one strict record. */
  function AfterIngest(r: EvidenceRecord, day: nat, inventory: Inventory): EvidenceRecord {
    if inventory.retained.Some? then Rechecked(r, day, inventory.retained.value) else r
  }

  /** A strict record stays as it is, but for the recheck of retained evidence; what is new is bound to nothing. */
  ghost predicate IngestKeeps(before: map<RecordId, EvidenceRecord>, after: map<RecordId, EvidenceRecord>, contract: Contract, inventory: Inventory) {
    && before.Keys <= after.Keys
    && (forall id :: id in after && id.StrictId? ==> id in before && after[id] == AfterIngest(before[id], contract.day, inventory))
    && (forall id :: id in after && id in before ==> after[id] == before[id].(compatible := after[id].compatible))
    && (forall id :: id in after && id !in before ==> after[id].recordId == id && Unbound(after[id]))
  }

  predicate Unbound(r: EvidenceRecord) { r.runId == None && r.criterionId == None }

  lemma RetainedStep(env: Env, before: map<RecordId, EvidenceRecord>, evidence: map<RecordId, EvidenceRecord>, contract: Contract,
                     inventory: Inventory, t: EvidenceType, o: Observation, at: Time)
    requires IngestKeeps(before, evidence, contract, inventory)
    ensures IngestKeeps(before, WithRetained(env, evidence, contract, t, o, inventory.fingerprint, at), contract, inventory)
  {
    hide AfterIngest;
    var after := WithRetained(env, evidence, contract, t, o, inventory.fingerprint, at);
    var id := LegacyIdOf(env, contract, t, o, inventory.fingerprint);
    assert forall x :: x in after && x != id ==> x in evidence && after[x] == evidence[x];
  }

  /** The id of the record that valid retained evidence of this type stands for. */
  ghost predicate RetainedAs(env: Env, contract: Contract, inventory: Inventory, t: EvidenceType, id: RecordId) {
    && inventory.retained.Some? && t in inventory.retained.value && inventory.retained.value[t].valid
    && id == LegacyIdOf(env, contract, t, inventory.retained.value[t], inventory.fingerprint)
  }

  /**
   * What ingestion leaves, in full: the records of valid retained evidence, found or made, and every other record
   * as it was but for its recheck.
   */
  ghost predicate Ingests(env: Env, before: map<RecordId, EvidenceRecord>, after: map<RecordId, EvidenceRecord>, contract: Contract,
                          inventory: Inventory, at: Time)
  {
    && before.Keys <= after.Keys
    && (forall t, id :: RetainedAs(env, contract, inventory, t, id) ==>
          id in after && after[id] == if id in before then before[id].(compatible := true)
                                      else LegacyRecordOf(env, contract, t, inventory.retained.value[t], inventory.fingerprint, at))
    && (forall id :: id in after && (forall t :: !RetainedAs(env, contract, inventory, t, id)) ==>
          id in before && after[id] == AfterIngest(before[id], contract.day, inventory))
  }

  // ----- choosing -----

  predicate Eligible(env: Env, contract: Contract, inventory: Inventory, t: EvidenceType, r: EvidenceRecord) {
    && r.day == contract.day && r.version == contract.version
    && (contract.day != 1 || r.observedAs == inventory.fingerprint)
    && r.evidenceType == t && EvidenceValid(env, t, r)
  }

  predicate Exact(run: Option<Id>, c: Criterion, r: EvidenceRecord) {
    run.Some? && r.runId == run && r.criterionId == Some(c.id)
  }

  /** The records to choose from: the exact ones if there are any, and otherwise the unbound ones. */
  ghost predicate InPool(env: Env, evidence: map<RecordId, EvidenceRecord>, run: Option<Id>, contract: Contract, inventory: Inventory,
                         c: Criterion, t: EvidenceType, id: RecordId)
  {
    && id in evidence && Eligible(env, contract, inventory, t, evidence[id])
    && (Exact(run, c, evidence[id])
        || (Unbound(evidence[id]) && forall x :: x in evidence && Eligible(env, contract, inventory, t, evidence[x]) ==> !Exact(run, c, evidence[x])))
  }

  /** The latest of the pool; of several latest, any one. */
  ghost predicate Chosen(env: Env, evidence: map<RecordId, EvidenceRecord>, run: Option<Id>, contract: Contract, inventory: Inventory,
                         c: Criterion, t: EvidenceType, id: RecordId)
  {
    && InPool(env, evidence, run, contract, inventory, c, t, id)
    && forall x :: InPool(env, evidence, run, contract, inventory, c, t, x) ==> evidence[x].collectedAt <= evidence[id].collectedAt
  }

  /** The references a criterion comes to hold. */
  ghost predicate References(env: Env, evidence: map<RecordId, EvidenceRecord>, run: Option<Id>, contract: Contract, inventory: Inventory,
                             c: Criterion, refs: map<EvidenceType, RecordId>)
  {
    && (forall t :: t in refs ==>
          && t in c.required
          && exists id :: Chosen(env, evidence, run, contract, inventory, c, t, id) && refs[t] == evidence[id].recordId)
    && (forall t, id :: t in c.required && InPool(env, evidence, run, contract, inventory, c, t, id) ==> t in refs)
  }

  /** One evaluation: retained evidence is ingested, and then every criterion takes its references. */
  ghost predicate Evaluates(env: Env, before: DaySnapshot, after: DaySnapshot, contract: Contract, evaluated: Contract, inventory: Inventory) {
    && after == before.(evidence := after.evidence) && IngestKeeps(before.evidence, after.evidence, contract, inventory)
    && |evaluated.criteria| == |contract.criteria|
    && (forall k :: 0 <= k < |contract.criteria| ==>
          var c, c' := contract.criteria[k], evaluated.criteria[k];
          && c' == c.(recordIds := c'.recordIds, satisfied := |c'.recordIds| == |c.required|)
          && References(env, after.evidence, after.runId, contract, inventory, c, c'.recordIds))
    && evaluated == Settled(contract, evaluated.criteria)
  }

  /** On every Day: what a criterion references was bound to exactly this run and criterion, or to none. */
  lemma NeverForeign(env: Env, evidence: map<RecordId, EvidenceRecord>, run: Option<Id>, contract: Contract, inventory: Inventory,
                     c: Criterion, refs: map<EvidenceType, RecordId>, t: EvidenceType)
    requires References(env, evidence, run, contract, inventory, c, refs) && t in refs
    requires forall id :: id in evidence ==> evidence[id].recordId == id
    ensures refs[t] in evidence
    ensures var r := evidence[refs[t]];
            && EvidenceValid(env, t, r) && r.day == contract.day && r.version == contract.version
            && (Unbound(r) || (r.runId == run && r.criterionId == Some(c.id)))
            && (contract.day == 1 ==> r.observedAs == inventory.fingerprint)
  {
    var id :| Chosen(env, evidence, run, contract, inventory, c, t, id) && refs[t] == evidence[id].recordId;
  }

  // ----- ingesting one type after the other -----

  /** The types that are not left have their records. */
  ghost predicate TypesIngested(env: Env, before: map<RecordId, EvidenceRecord>, evidence: map<RecordId, EvidenceRecord>, contract: Contract,
                                inventory: Inventory, at: Time, left: set<EvidenceType>)
  {
    forall t, id :: RetainedAs(env, contract, inventory, t, id) && t !in left ==>
      id in evidence && evidence[id] == if id in before then before[id].(compatible := true)
                                        else LegacyRecordOf(env, contract, t, inventory.retained.value[t], inventory.fingerprint, at)
  }

  /** Every other record is rechecked only. */
  ghost predicate OthersRechecked(env: Env, before: map<RecordId, EvidenceRecord>, evidence: map<RecordId, EvidenceRecord>, contract: Contract,
                                  inventory: Inventory, left: set<EvidenceType>)
  {
    && before.Keys <= evidence.Keys
    && forall id :: id in evidence && (forall t :: RetainedAs(env, contract, inventory, t, id) ==> t in left) ==>
         id in before && evidence[id] == AfterIngest(before[id], contract.day, inventory)
  }

  lemma RecheckIsCompatibility(r: EvidenceRecord, day: nat, inventory: Inventory)
    ensures AfterIngest(r, day, inventory).(compatible := true) == r.(compatible := true)
  {
  }

  lemma NothingRetained(env: Env, evidence: map<RecordId, EvidenceRecord>, contract: Contract, inventory: Inventory, at: Time)
    ensures inventory.retained == None ==> IngestKeeps(evidence, evidence, contract, inventory) && Ingests(env, evidence, evidence, contract, inventory, at)
  {
  }

  lemma RecheckStarts(env: Env, before: map<RecordId, EvidenceRecord>, evidence: map<RecordId, EvidenceRecord>, contract: Contract, inventory: Inventory, at: Time)
    requires inventory.retained.Some? && evidence == map id | id in before :: Rechecked(before[id], contract.day, inventory.retained.value)
    ensures IngestKeeps(before, evidence, contract, inventory)
    ensures TypesIngested(env, before, evidence, contract, inventory, at, inventory.retained.value.Keys)
    ensures OthersRechecked(env, before, evidence, contract, inventory, inventory.retained.value.Keys)
  {
  }

  lemma AllIngested(env: Env, before: map<RecordId, EvidenceRecord>, evidence: map<RecordId, EvidenceRecord>, contract: Contract, inventory: Inventory, at: Time)
    requires TypesIngested(env, before, evidence, contract, inventory, at, {}) && OthersRechecked(env, before, evidence, contract, inventory, {})
    ensures Ingests(env, before, evidence, contract, inventory, at)
  {
    hide LegacyRecordOf, LegacyIdOf, AfterIngest;
  }

  /** The record of one valid type: found, or made. */
  lemma RetainedIs(env: Env, before: map<RecordId, EvidenceRecord>, evidence: map<RecordId, EvidenceRecord>, contract: Contract,
                   inventory: Inventory, at: Time, left: set<EvidenceType>, t: EvidenceType, id: RecordId)
    requires OthersRechecked(env, before, evidence, contract, inventory, left) && t in left && RetainedAs(env, contract, inventory, t, id)
    ensures var o := inventory.retained.value[t];
            var after := WithRetained(env, evidence, contract, t, o, inventory.fingerprint, at);
            && after == evidence[id := after[id]] && before.Keys <= after.Keys
            && after[id] == if id in before then before[id].(compatible := true)
                            else LegacyRecordOf(env, contract, t, o, inventory.fingerprint, at)
  {
    hide LegacyRecordOf, AfterIngest;
    assert forall u :: RetainedAs(env, contract, inventory, u, id) ==> u == t;
    if id in before { RecheckIsCompatibility(before[id], contract.day, inventory); }
  }

  lemma OneTypeIngested(env: Env, before: map<RecordId, EvidenceRecord>, evidence: map<RecordId, EvidenceRecord>, contract: Contract,
                        inventory: Inventory, at: Time, left: set<EvidenceType>, t: EvidenceType)
    requires inventory.retained.Some? && t in inventory.retained.value && t in left
    requires TypesIngested(env, before, evidence, contract, inventory, at, left) && OthersRechecked(env, before, evidence, contract, inventory, left)
    ensures var o := inventory.retained.value[t];
            var after := if o.valid then WithRetained(env, evidence, contract, t, o, inventory.fingerprint, at) else evidence;
            && TypesIngested(env, before, after, contract, inventory, at, left - {t})
            && OthersRechecked(env, before, after, contract, inventory, left - {t})
  {
    hide LegacyRecordOf, AfterIngest, WithRetained;
    var o := inventory.retained.value[t];
    var id := LegacyIdOf(env, contract, t, o, inventory.fingerprint);
    if o.valid {
      assert RetainedAs(env, contract, inventory, t, id);
      RetainedIs(env, before, evidence, contract, inventory, at, left, t, id);
      assert forall u, x :: RetainedAs(env, contract, inventory, u, x) && u != t ==> x != id;
    }
  }

  // ----- the Day's evidence as it is evaluated -----

  class DayEvidenceStore {
    const env: Env
    var day: DaySnapshot

    constructor (env: Env, day: DaySnapshot)
      ensures this.env == env && this.day == day
    {
      this.env, this.day := env, day;
    }

    method IngestReusableEvidence(contract: Contract, inventory: Inventory, at: Time)
      modifies this
      ensures day == old(day).(evidence := day.evidence)
      ensures IngestKeeps(old(day).evidence, day.evidence, contract, inventory)
      ensures Ingests(env, old(day).evidence, day.evidence, contract, inventory, at)
    {
      hide IngestKeeps, Ingests, TypesIngested, OthersRechecked, WithRetained, Rechecked;
      NothingRetained(env, day.evidence, contract, inventory, at);
      if inventory.retained == None { return; }
      var retained := inventory.retained.value;
      var before := day.evidence;
      var evidence := map id | id in before :: Rechecked(before[id], contract.day, retained);
      var left := retained.Keys;
      RecheckStarts(env, before, evidence, contract, inventory, at);
      while left != {}
        invariant left <= retained.Keys && day == old(day)
        invariant IngestKeeps(before, evidence, contract, inventory)
        invariant TypesIngested(env, before, evidence, contract, inventory, at, left)
        invariant OthersRechecked(env, before, evidence, contract, inventory, left)
        decreases left
      {
        var t :| t in left;
        RetainedStep(env, before, evidence, contract, inventory, t, retained[t], at);
        OneTypeIngested(env, before, evidence, contract, inventory, at, left, t);
        if retained[t].valid { evidence := WithRetained(env, evidence, contract, t, retained[t], inventory.fingerprint, at); }
        left := left - {t};
      }
      AllIngested(env, before, evidence, contract, inventory, at);
      day := day.(evidence := evidence);
    }

    /** The exact candidates of one type if there are any, otherwise the unbound ones, in listing order. */
    method Pool(contract: Contract, inventory: Inventory, c: Criterion, t: EvidenceType, listing: seq<RecordId>) returns (pool: seq<RecordId>)
      requires forall id :: id in listing <==> id in day.evidence
      ensures forall id :: id in pool <==> InPool(env, day.evidence, day.runId, contract, inventory, c, t, id)
    {
      var exact, unbound: seq<RecordId> := [], [];
      var i := 0;
      while i < |listing|
        invariant 0 <= i <= |listing|
        invariant forall id :: id in exact <==>
                    (id in listing[..i] && Eligible(env, contract, inventory, t, day.evidence[id]) && Exact(day.runId, c, day.evidence[id]))
        invariant forall id :: id in unbound <==>
                    (id in listing[..i] && Eligible(env, contract, inventory, t, day.evidence[id]) && Unbound(day.evidence[id]))
      {
        var id := listing[i];
        assert id in listing;
        if Eligible(env, contract, inventory, t, day.evidence[id]) {
          if Exact(day.runId, c, day.evidence[id]) { exact := exact + [id]; }
          if Unbound(day.evidence[id]) { unbound := unbound + [id]; }
        }
        i := i + 1;
      }
      assert listing[..i] == listing;
      pool := if exact != [] then exact else unbound;
      if exact != [] { assert exact[0] in exact; }
    }

    method Latest(pool: seq<RecordId>) returns (id: RecordId)
      requires pool != [] && forall x :: x in pool ==> x in day.evidence
      ensures id in pool && forall x :: x in pool ==> day.evidence[x].collectedAt <= day.evidence[id].collectedAt
    {
      id := pool[0];
      var i := 1;
      while i < |pool|
        invariant 1 <= i <= |pool| && id in pool
        invariant forall k :: 0 <= k < i ==> day.evidence[pool[k]].collectedAt <= day.evidence[id].collectedAt
      {
        assert pool[i] in pool;
        if day.evidence[id].collectedAt <= day.evidence[pool[i]].collectedAt { id := pool[i]; }
        i := i + 1;
      }
    }

    method ReferencesOf(contract: Contract, inventory: Inventory, c: Criterion, listing: seq<RecordId>) returns (refs: map<EvidenceType, RecordId>)
      requires forall id :: id in listing <==> id in day.evidence
      ensures References(env, day.evidence, day.runId, contract, inventory, c, refs)
    {
      hide Eligible;
      refs := map[];
      var i := 0;
      while i < |c.required|
        invariant 0 <= i <= |c.required|
        invariant forall t :: t in refs ==>
                    && t in c.required[..i]
                    && exists id :: Chosen(env, day.evidence, day.runId, contract, inventory, c, t, id) && refs[t] == day.evidence[id].recordId
        invariant forall t, id :: t in c.required[..i] && InPool(env, day.evidence, day.runId, contract, inventory, c, t, id) ==> t in refs
      {
        var t := c.required[i];
        assert c.required[..i + 1] == c.required[..i] + [t];
        var pool := Pool(contract, inventory, c, t, listing);
        if pool != [] {
          var id := Latest(pool);
          assert Chosen(env, day.evidence, day.runId, contract, inventory, c, t, id);
          refs := refs[t := day.evidence[id].recordId];
        } else {
          forall id ensures !InPool(env, day.evidence, day.runId, contract, inventory, c, t, id) { assert id !in pool; }
        }
        i := i + 1;
      }
      assert c.required[..i] == c.required;
    }

    /** Every criterion takes the references found for it, and is satisfied when each required name has one. */
    method EvaluateContract(contract: Contract, inventory: Inventory, at: Time) returns (evaluated: Contract)
      modifies this
      ensures Evaluates(env, old(day), day, contract, evaluated, inventory)
      ensures Ingests(env, old(day).evidence, day.evidence, contract, inventory, at)
    {
      hide References, IngestKeeps, Ingests;
      IngestReusableEvidence(contract, inventory, at);
      var listing := ListingOf(day.evidence);
      ghost var ingested := day;
      var criteria: seq<Criterion> := [];
      for k := 0 to |contract.criteria|
        invariant |criteria| == k && day == ingested
        invariant forall j :: 0 <= j < k ==>
                    var c, c' := contract.criteria[j], criteria[j];
                    && c' == c.(recordIds := c'.recordIds, satisfied := |c'.recordIds| == |c.required|)
                    && References(env, day.evidence, day.runId, contract, inventory, c, c'.recordIds)
      {
        var c := contract.criteria[k];
        var refs := ReferencesOf(contract, inventory, c, listing);
        criteria := criteria + [c.(recordIds := refs, satisfied := |refs| == |c.required|)];
      }
      var satisfied := IdsWhere(criteria, true);
      var gaps := IdsWhere(criteria, false);
      evaluated := contract.(criteria := criteria, satisfiedCriteria := satisfied, remainingGaps := gaps);
    }

    method IdsWhere(criteria: seq<Criterion>, satisfied: bool) returns (ids: seq<Id>)
      ensures ids == SatisfiedIds(criteria, satisfied)
    {
      ids := [];
      var i := 0;
      while i < |criteria|
        invariant 0 <= i <= |criteria| && ids == SatisfiedIds(criteria[..i], satisfied)
      {
        assert criteria[..i + 1][..i] == criteria[..i];
        if criteria[i].satisfied == satisfied { ids := ids + [criteria[i].id]; }
        i := i + 1;
      }
      assert criteria[..i] == criteria;
    }

    /** Some order of the store; which one decides only between records collected at the same time. */
    method ListingOf(evidence: map<RecordId, EvidenceRecord>) returns (listing: seq<RecordId>)
      ensures forall id :: id in listing <==> id in evidence
    {
      listing := [];
      var left := evidence.Keys;
      while left != {}
        invariant left <= evidence.Keys && forall id :: id in listing <==> id in evidence && id !in left
        decreases left
      {
        var id :| id in left;
        listing := listing + [id];
        left := left - {id};
      }
    }
  }
}
