/** What retained evidence comes to: a record of what was observed, compatible for as long as it is retained. */
module DayEvidenceRetained {
  import opened Prelude
  import opened DayModels
  import opened EvidenceCompletion
  import opened EvidenceBinding
  import opened BindingProperties
  import opened DayEvidence

  /** `r` says what was observed: the value, with the hashes of its files, for this Day and contract and for no run. */
  predicate Observed(env: Env, contract: Contract, inventory: Inventory, t: EvidenceType, o: Observation, r: EvidenceRecord) {
    && r.evidenceType == t && r.value == o.value && r.sourceHashes == o.sourceHashes && r.provenance == o.provenance
    && r.provider == RETAINED_RESOLVER && r.project == env.project && r.day == contract.day && r.version == contract.version
    && r.observedAs == inventory.fingerprint && r.statusValid && r.validatorResult && r.compatible && Unbound(r)
  }

  /** Exactly the valid observations become records, if there was none; nothing else appears. */
  lemma ValidIsRecorded(env: Env, before: map<RecordId, EvidenceRecord>, after: map<RecordId, EvidenceRecord>, contract: Contract,
                        inventory: Inventory, at: Time, id: RecordId)
    requires Ingests(env, before, after, contract, inventory, at) && id !in before
    ensures id in after <==>
              inventory.retained.Some?
              && exists t :: t in inventory.retained.value && inventory.retained.value[t].valid
                             && id == LegacyId(env.project, contract.day, contract.version, t, inventory.retained.value[t].value, inventory.fingerprint)
    ensures id in after ==>
              && inventory.retained.Some? && id.LegacyId? && id.evidenceType in inventory.retained.value && after[id].recordId == id
              && after[id].collectedAt == at
              && Observed(env, contract, inventory, id.evidenceType, inventory.retained.value[id.evidenceType], after[id])
  {
    if t :| RetainedAs(env, contract, inventory, t, id) {
      assert after[id] == LegacyRecordOf(env, contract, t, inventory.retained.value[t], inventory.fingerprint, at);
    }
    if inventory.retained.Some? {
      forall t | t in inventory.retained.value && inventory.retained.value[t].valid
                 && id == LegacyId(env.project, contract.day, contract.version, t, inventory.retained.value[t].value, inventory.fingerprint)
        ensures RetainedAs(env, contract, inventory, t, id)
      {
      }
    }
  }

  /** A legacy record is filed under its own type. */
  ghost predicate TypedIds(evidence: map<RecordId, EvidenceRecord>) {
    forall id :: id in evidence && id.LegacyId? ==> evidence[id].evidenceType == id.evidenceType
  }

  /** Of the records there were, one of the resolver for this Day is compatible exactly while its type is retained and valid. */
  lemma CompatibleWhileRetained(env: Env, before: map<RecordId, EvidenceRecord>, after: map<RecordId, EvidenceRecord>, contract: Contract,
                                inventory: Inventory, at: Time, id: RecordId)
    requires Ingests(env, before, after, contract, inventory, at) && TypedIds(before)
    requires id in before && before[id].provider == RETAINED_RESOLVER && before[id].day == contract.day && inventory.retained.Some?
    ensures id in after && after[id] == before[id].(compatible := after[id].compatible)
    ensures after[id].compatible <==> before[id].evidenceType in inventory.retained.value && inventory.retained.value[before[id].evidenceType].valid
  {
    if t :| RetainedAs(env, contract, inventory, t, id) {
      assert after[id] == before[id].(compatible := true);
    } else {
      assert after[id] == AfterIngest(before[id], contract.day, inventory);
    }
  }

  /** Records under the ids of retained evidence say what was observed, whenever they were made. */
  ghost predicate Faithful(env: Env, evidence: map<RecordId, EvidenceRecord>, contract: Contract, inventory: Inventory) {
    forall t, id :: RetainedAs(env, contract, inventory, t, id) && id in evidence ==>
      Observed(env, contract, inventory, t, inventory.retained.value[t], evidence[id].(compatible := true))
  }

  /**
   * On every Day: an evaluation leaves a criterion without a gap if all it requires is retained and valid, its
   * files are as they were observed, and the registry's validators accept the resolver's records.
   */
  lemma RetainedSatisfies(env: Env, before: map<RecordId, EvidenceRecord>, after: map<RecordId, EvidenceRecord>, run: Option<Id>,
                          contract: Contract, inventory: Inventory, at: Time, c: Criterion, refs: map<EvidenceType, RecordId>)
    requires Ingests(env, before, after, contract, inventory, at) && Faithful(env, before, contract, inventory)
    requires References(env, after, run, contract, inventory, c, refs) && inventory.retained.Some?
    requires forall t :: t in c.required ==>
               && t in inventory.retained.value && inventory.retained.value[t].valid
               && env.validates(t, inventory.retained.value[t].value, RETAINED_RESOLVER)
               && forall path :: path in inventory.retained.value[t].sourceHashes ==> env.files(path) == inventory.retained.value[t].sourceHashes[path]
    ensures forall t :: t in c.required <==> t in refs
  {
    forall t | t in c.required ensures t in refs {
      var o := inventory.retained.value[t];
      var id := LegacyIdOf(env, contract, t, o, inventory.fingerprint);
      assert RetainedAs(env, contract, inventory, t, id);
      assert id in after && Observed(env, contract, inventory, t, o, after[id]);
      assert Eligible(env, contract, inventory, t, after[id]);
      SomeInPool(env, after, run, contract, inventory, c, t, id);
    }
  }

  /** If an unbound record is eligible, there is something to choose from. */
  lemma SomeInPool(env: Env, evidence: map<RecordId, EvidenceRecord>, run: Option<Id>, contract: Contract, inventory: Inventory,
                   c: Criterion, t: EvidenceType, id: RecordId)
    requires id in evidence && Eligible(env, contract, inventory, t, evidence[id]) && Unbound(evidence[id])
    ensures exists x :: InPool(env, evidence, run, contract, inventory, c, t, x)
  {
    hide Eligible;
    if x :| x in evidence && Eligible(env, contract, inventory, t, evidence[x]) && Exact(run, c, evidence[x]) {
      assert InPool(env, evidence, run, contract, inventory, c, t, x);
    } else {
      assert InPool(env, evidence, run, contract, inventory, c, t, id);
    }
  }
}
