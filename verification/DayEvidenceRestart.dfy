/** After an accepted bind a restart evaluates the Day's contract again, and comes to the contract the bind left. */
module DayEvidenceRestart {
  import opened Prelude
  import opened DayModels
  import opened RunStore
  import opened EvidenceCompletion
  import opened EvidenceBinding
  import opened BindingProperties
  import opened RunWorld
  import opened RunProperties
  import opened DayEvidence
  import opened DayEvidenceHistory
  import opened DayEvidenceProperties
  import SP = SettlementProperties

  /** Whatever the resolver retained for a record that a criterion references, it still retains. */
  ghost predicate StillHeld(day: DaySnapshot, c: Criterion, inventory: Inventory) {
    forall t :: t in c.recordIds && c.recordIds[t] in day.evidence
                && day.evidence[c.recordIds[t]].provider == RETAINED_RESOLVER && inventory.retained.Some? ==>
      StillRetained(inventory.retained.value, t)
  }

  /** Other records of this run and criterion, which some earlier evaluation left, are older than the bind. */
  ghost predicate OthersOlder(evidence: map<RecordId, EvidenceRecord>, run: Id, c: Criterion, at: Time) {
    forall id :: id in evidence && Exact(Some(run), c, evidence[id]) && evidence[id].evidenceType in c.recordIds
                 && id != c.recordIds[evidence[id].evidenceType] ==>
      evidence[id].collectedAt < at
  }

  /** The bound criteria, with the evidence from before the bind. */
  ghost predicate Repeatable(before: DaySnapshot, bound: DaySnapshot, run: Id, at: Time, inventory: Inventory) {
    bound.contract.Some? && forall k :: 0 <= k < |bound.contract.value.criteria| ==>
      && StillHeld(bound, bound.contract.value.criteria[k], inventory)
      && OthersOlder(before.evidence, run, bound.contract.value.criteria[k], at)
  }

  lemma BoundCriterion(day: DaySnapshot, contract: Contract, pending: seq<Pending>, k: nat)
    requires |pending| == |contract.criteria| && k < |pending|
    ensures var bound := BoundDay(day, contract, pending).contract;
            && bound.Some? && bound.value.day == contract.day && bound.value.version == contract.version
            && |bound.value.criteria| == |contract.criteria|
            && bound.value.criteria[k] == contract.criteria[k].(recordIds := pending[k].ids, satisfied := true)
  {
  }

  /** References depend on the contract's day and version and on the criterion's id and requirements alone. */
  lemma SameReferences(env: Env, evidence: map<RecordId, EvidenceRecord>, run: Option<Id>, a: Contract, b: Contract, inventory: Inventory,
                       c: Criterion, d: Criterion, refs: map<EvidenceType, RecordId>)
    requires a.day == b.day && a.version == b.version && c.id == d.id && c.required == d.required
    requires References(env, evidence, run, a, inventory, c, refs)
    ensures References(env, evidence, run, b, inventory, d, refs)
  {
    hide EvidenceValid;
    forall t, id ensures InPool(env, evidence, run, a, inventory, c, t, id) == InPool(env, evidence, run, b, inventory, d, t, id) {}
    forall t | t in refs
      ensures t in d.required && exists id :: Chosen(env, evidence, run, b, inventory, d, t, id) && refs[t] == evidence[id].recordId
    {
      var id :| Chosen(env, evidence, run, a, inventory, c, t, id) && refs[t] == evidence[id].recordId;
      assert Chosen(env, evidence, run, b, inventory, d, t, id);
    }
  }

  lemma SameIngest(before: map<RecordId, EvidenceRecord>, after: map<RecordId, EvidenceRecord>, a: Contract, b: Contract, inventory: Inventory)
    requires a.day == b.day && IngestKeeps(before, after, a, inventory)
    ensures IngestKeeps(before, after, b, inventory)
  {
    hide AfterIngest;
  }

  /** What an accepted bind and a later evaluation are made of. */
  lemma BindIsFollowed(env: Env, w: World, run: Id, at: Time, inventory: Inventory, evidence: map<RecordId, EvidenceRecord>) returns (e: Reevaluation)
    requires StoreOk(w.store) && Bind(env, w, run, at).1 == Accepted
    requires env.project == ADAPTER_PROJECT && w.day.contract.value.day != 1 && DistinctCriteria(w.day.contract.value) && Filed(w.day.evidence)
    requires var bound := Bind(env, w, run, at).0.day;
             && Repeatable(w.day, bound, run, at, inventory)
             && IngestKeeps(bound.evidence, evidence, bound.contract.value, inventory)
    ensures e.env == env && e.intent.runId == run && e.contract == w.day.contract.value && e.inventory == inventory && e.evidence == evidence
    ensures e.Follows() && |e.pending| == |e.contract.criteria| && Bind(env, w, run, at).0.day == BoundDay(w.day, e.contract, e.pending)
    ensures w.day.runId == Some(run)
  {
    hide IsCurrent, FingerprintOf, StoreOk, BindUpTo, AllGood, AllCollectedAt, Bindings, Stored, EvidenceBinding.Settled;
    StoredIdentity(w.store, run);
    SP.AcceptedBindChecks(env, w, run, at);
    var intent, contract := w.store.files[run].intent, w.day.contract.value;
    AcceptedBindCovers(env, intent, contract, w.day, |contract.criteria|, at);
    BindCollects(env, intent, contract, w.day, |contract.criteria|, at);
    var pending := BindUpTo(env, intent, contract, w.day, |contract.criteria|, at).pending;
    var bound := Bind(env, w, run, at).0.day;
    BoundEvidence(w.day, contract, pending);
    SP.BoundDayKeeps(w.day, contract, pending);
    SameIngest(bound.evidence, evidence, bound.contract.value, contract, inventory);
    e := Reevaluation(env, intent, contract, w.day, pending, at, inventory, evidence);
    forall k | 0 <= k < |pending|
      ensures RetainedHolds(e.StoredEvidence(), pending[k], inventory) && BoundLast(w.day.evidence, run, contract.criteria[k], pending[k], at)
    {
      BoundCriterion(w.day, contract, pending, k);
      assert StillHeld(bound, bound.contract.value.criteria[k], inventory);
      assert OthersOlder(w.day.evidence, run, bound.contract.value.criteria[k], at);
    }
  }

  /** One criterion after the bind and the evaluation. */
  lemma CriterionIsKept(env: Env, w: World, run: Id, at: Time, inventory: Inventory, after: DaySnapshot, evaluated: Contract, k: nat)
    requires StoreOk(w.store) && Bind(env, w, run, at).1 == Accepted
    requires env.project == ADAPTER_PROJECT && w.day.contract.value.day != 1 && DistinctCriteria(w.day.contract.value) && Filed(w.day.evidence)
    requires var bound := Bind(env, w, run, at).0.day;
             && Repeatable(w.day, bound, run, at, inventory)
             && Evaluates(env, bound, after, bound.contract.value, evaluated, inventory)
             && k < |bound.contract.value.criteria|
    ensures var c := Bind(env, w, run, at).0.day.contract.value.criteria[k];
            && evaluated.criteria[k] == c.(satisfied := Distinct(c.required)) && c.satisfied
  {
    hide Bind, BoundDay, References, IngestKeeps, StoreOk, DistinctCriteria, NoneHidden, Filed, StillHeld, OthersOlder, AllGood,
         AllCollectedAt, EvidenceBinding.Settled;
    var e := BindIsFollowed(env, w, run, at, inventory, after.evidence);
    BoundEvidence(w.day, e.contract, e.pending);
    BoundCriterion(w.day, e.contract, e.pending, k);
    DistinctHidesNothing(e.contract);
    var bound, c := Bind(env, w, run, at).0.day.contract.value, e.contract.criteria[k];
    var refs := evaluated.criteria[k].recordIds;
    assert after.runId == Some(run);
    SameReferences(env, after.evidence, Some(run), bound, e.contract, inventory, bound.criteria[k], c, refs);
    ReevaluationFindsTheBound(e, k, refs);
    assert refs == bound.criteria[k].recordIds;
    DistinctSize(c.required);
  }

  lemma BoundIsSettled(day: DaySnapshot, contract: Contract, pending: seq<Pending>)
    requires |pending| == |contract.criteria|
    ensures var bound := BoundDay(day, contract, pending).contract;
            bound.Some? && EvidenceBinding.Settled(bound.value, bound.value.criteria) == bound.value
  {
  }

  /** Two settled contracts whose criteria differ at most in being satisfied. */
  lemma SameWhenDistinct(bound: Contract, evaluated: Contract)
    requires EvidenceBinding.Settled(bound, bound.criteria) == bound && evaluated == EvidenceBinding.Settled(bound, evaluated.criteria)
    requires |evaluated.criteria| == |bound.criteria|
    requires forall k :: 0 <= k < |bound.criteria| ==>
               bound.criteria[k].satisfied && evaluated.criteria[k] == bound.criteria[k].(satisfied := Distinct(bound.criteria[k].required))
    ensures evaluated == bound <==> forall k :: 0 <= k < |bound.criteria| ==> Distinct(bound.criteria[k].required)
  {
    hide EvidenceBinding.Settled, Distinct;
    if forall k :: 0 <= k < |bound.criteria| ==> Distinct(bound.criteria[k].required) {
      assert evaluated.criteria == bound.criteria;
    }
  }

  lemma EvaluatedIsSettled(env: Env, before: DaySnapshot, after: DaySnapshot, contract: Contract, evaluated: Contract, inventory: Inventory)
    requires Evaluates(env, before, after, contract, evaluated, inventory)
    ensures |evaluated.criteria| == |contract.criteria| && evaluated == EvidenceBinding.Settled(contract, evaluated.criteria)
    ensures IngestKeeps(before.evidence, after.evidence, contract, inventory)
  {
  }

  /**
   * Days 2 to 14, files and retained evidence unchanged, older records older: after an accepted bind the next
   * evaluation, for instance on restart, leaves every criterion its bound record ids, and comes to the very
   * contract of the bind exactly when no criterion lists a required type twice.
   */
  lemma ReevaluationKeepsTheBind(env: Env, w: World, run: Id, at: Time, inventory: Inventory, after: DaySnapshot, evaluated: Contract)
    requires StoreOk(w.store) && Bind(env, w, run, at).1 == Accepted
    requires env.project == ADAPTER_PROJECT && w.day.contract.value.day != 1 && DistinctCriteria(w.day.contract.value) && Filed(w.day.evidence)
    requires var bound := Bind(env, w, run, at).0.day;
             && Repeatable(w.day, bound, run, at, inventory)
             && Evaluates(env, bound, after, bound.contract.value, evaluated, inventory)
    ensures var bound := Bind(env, w, run, at).0.day.contract.value;
            && |evaluated.criteria| == |bound.criteria|
            && (forall k :: 0 <= k < |bound.criteria| ==> evaluated.criteria[k].recordIds == bound.criteria[k].recordIds)
            && (evaluated == bound <==> forall k :: 0 <= k < |bound.criteria| ==> Distinct(bound.criteria[k].required))
  {
    hide Bind, BoundDay, Evaluates, IngestKeeps, StoreOk, DistinctCriteria, Filed, StillHeld, OthersOlder, Distinct, EvidenceBinding.Settled,
         Reevaluation.Follows;
    var bound := Bind(env, w, run, at).0.day.contract.value;
    EvaluatedIsSettled(env, Bind(env, w, run, at).0.day, after, bound, evaluated, inventory);
    var e := BindIsFollowed(env, w, run, at, inventory, after.evidence);
    BoundIsSettled(w.day, e.contract, e.pending);
    forall k | 0 <= k < |bound.criteria|
      ensures evaluated.criteria[k] == bound.criteria[k].(satisfied := Distinct(bound.criteria[k].required)) && bound.criteria[k].satisfied
    {
      CriterionIsKept(env, w, run, at, inventory, after, evaluated, k);
    }
    SameWhenDistinct(bound, evaluated);
  }
}
