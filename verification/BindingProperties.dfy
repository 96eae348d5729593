/** A bind followed by a verification, a completion check or another bind. */
module BindingProperties {
  import opened Prelude
  import opened DayModels
  import opened EvidenceCompletion
  import opened EvidenceBinding

  /** Type `t` is required by the criterion that the evaluator looks up under this id. */
  predicate Looked(contract: Contract, id: Id, t: EvidenceType) {
    var f := FirstCriterion(contract.criteria, id);
    f.Some? && t in f.value.required
  }

  /** No criterion requires a type that an earlier criterion of the same id does not; distinct ids make this hold. */
  ghost predicate NothingHidden(contract: Contract) {
    forall k :: 0 <= k < |contract.criteria| ==> NoneHidden(contract, contract.criteria[k])
  }

  ghost predicate NoneHidden(contract: Contract, c: Criterion) {
    forall t :: t in c.required ==> Looked(contract, c.id, t)
  }

  predicate DistinctCriteria(contract: Contract) {
    forall j, k :: 0 <= j < k < |contract.criteria| ==> contract.criteria[j].id != contract.criteria[k].id
  }

  /** Criteria with distinct ids hide nothing. */
  lemma DistinctHidesNothing(contract: Contract)
    requires DistinctCriteria(contract)
    ensures NothingHidden(contract)
  {
    forall k | 0 <= k < |contract.criteria| ensures NoneHidden(contract, contract.criteria[k]) {
      FirstIsOnly(contract.criteria, k);
    }
  }

  lemma {:induction false} FirstIsOnly(criteria: seq<Criterion>, k: nat)
    requires k < |criteria| && forall j :: 0 <= j < k ==> criteria[j].id != criteria[k].id
    ensures FirstCriterion(criteria, criteria[k].id) == Some(criteria[k])
  {
    if k > 0 { FirstIsOnly(criteria[1..], k - 1); }
  }

  /** What an accepted bind holds ready for one criterion. */
  ghost predicate GoodPending(env: Env, intent: RunIntent, contract: Contract, c: Criterion, p: Pending) {
    && p.ids != map[]
    && (forall t :: t in p.ids <==> t in c.required && Looked(contract, c.id, t))
    && (forall t :: Looked(contract, c.id, t) ==> t in c.required)
    && (forall t :: t in p.ids ==> p.ids[t] in p.records && p.ids[t].StrictId? && p.ids[t].criterionId == c.id && p.ids[t].evidenceType == t)
    && (forall id :: id in p.records ==> Proves(env, intent, contract, id, p.records[id]))
  }

  ghost predicate AllGood(env: Env, intent: RunIntent, contract: Contract, pending: seq<Pending>) {
    && |pending| <= |contract.criteria|
    && forall k :: 0 <= k < |pending| ==> GoodPending(env, intent, contract, contract.criteria[k], pending[k])
  }

  lemma ReadyIsGood(env: Env, intent: RunIntent, contract: Contract, day: DaySnapshot, k: nat, at: Time)
    requires k < |contract.criteria| && intent.selectedDay == contract.day
    requires BindCriterion(env, intent, contract, day, contract.criteria[k], at).Ready?
    ensures GoodPending(env, intent, contract, contract.criteria[k], BindCriterion(env, intent, contract, day, contract.criteria[k], at).pending)
  {
    var c := contract.criteria[k];
    FirstHasId(contract.criteria, k);
    var f := FirstCriterion(contract.criteria, c.id).value;
    CriterionBinds(env, intent, contract, day, c, f, at);
    var ids := BindCriterion(env, intent, contract, day, c, at).pending.ids;
    assert f.required[0] in f.required && f.required[0] in ids;
    forall t | t in ids ensures ids[t].evidenceType == t {
      assert BindSourceReason(env, intent, contract, day, c, t) == None;
    }
  }

  lemma OneMoreGood(env: Env, intent: RunIntent, contract: Contract, pending: seq<Pending>, p: Pending)
    requires AllGood(env, intent, contract, pending) && |pending| < |contract.criteria|
    requires GoodPending(env, intent, contract, contract.criteria[|pending|], p)
    ensures AllGood(env, intent, contract, pending + [p])
  {
  }

  /**
   * An accepted bind covers, for every criterion, exactly the types that criterion and the one looked up
   * under its id require, each by a record that proves it for this run and this criterion.
   */
  lemma {:induction false} AcceptedBindCovers(env: Env, intent: RunIntent, contract: Contract, day: DaySnapshot, n: nat, at: Time)
    requires n <= |contract.criteria| && intent.selectedDay == contract.day
    ensures var r := BindUpTo(env, intent, contract, day, n, at);
            r.AllReady? ==> |r.pending| == n && AllGood(env, intent, contract, r.pending)
  {
    if n > 0 {
      var before := BindUpTo(env, intent, contract, day, n - 1, at);
      var step := BindCriterion(env, intent, contract, day, contract.criteria[n - 1], at);
      AcceptedBindCovers(env, intent, contract, day, n - 1, at);
      if before.AllReady? && step.Ready? {
        ReadyIsGood(env, intent, contract, day, n - 1, at);
        OneMoreGood(env, intent, contract, before.pending, step.pending);
      }
    }
  }

  /** Types an accepted bind leaves unbound exist exactly when a criterion is hidden by an earlier one of its id. */
  lemma EveryTypeBound(env: Env, intent: RunIntent, contract: Contract, pending: seq<Pending>)
    requires AllGood(env, intent, contract, pending) && |pending| == |contract.criteria|
    ensures NothingHidden(contract) <==>
            forall k, t :: 0 <= k < |pending| && t in contract.criteria[k].required ==> t in pending[k].ids
  {
    if forall k, t :: 0 <= k < |pending| && t in contract.criteria[k].required ==> t in pending[k].ids {
      forall k | 0 <= k < |contract.criteria| ensures NoneHidden(contract, contract.criteria[k]) {
        assert GoodPending(env, intent, contract, contract.criteria[k], pending[k]);
      }
    }
  }

  // ----- the evidence store -----

  lemma {:induction false} StoredProves(env: Env, intent: RunIntent, contract: Contract, evidence: map<RecordId, EvidenceRecord>,
                                       pending: seq<Pending>, k: nat, id: RecordId)
    requires AllGood(env, intent, contract, pending) && k < |pending| && id in pending[k].records
    ensures id in Stored(evidence, pending) && Proves(env, intent, contract, id, Stored(evidence, pending)[id])
  {
    var last := pending[|pending| - 1];
    assert GoodPending(env, intent, contract, contract.criteria[|pending| - 1], last);
    if k < |pending| - 1 { StoredProves(env, intent, contract, evidence, pending[..|pending| - 1], k, id); }
  }

  /** Nothing is lost from the store, and what is added proves a type for this run. */
  lemma {:induction false} StoredGrows(env: Env, intent: RunIntent, contract: Contract, evidence: map<RecordId, EvidenceRecord>, pending: seq<Pending>)
    requires AllGood(env, intent, contract, pending)
    ensures var stored := Stored(evidence, pending);
            && evidence.Keys <= stored.Keys
            && forall id :: id in stored ==>
                 (id in evidence && stored[id] == evidence[id]) || Proves(env, intent, contract, id, stored[id])
  {
    if pending != [] {
      StoredGrows(env, intent, contract, evidence, pending[..|pending| - 1]);
      assert GoodPending(env, intent, contract, contract.criteria[|pending| - 1], pending[|pending| - 1]);
    }
  }

  // ----- the bound snapshot -----

  lemma {:induction false} SameFirst(a: seq<Criterion>, b: seq<Criterion>, id: Id)
    requires |a| == |b| && forall k :: 0 <= k < |a| ==> a[k].id == b[k].id && a[k].required == b[k].required
    ensures FirstCriterion(a, id).Some? <==> FirstCriterion(b, id).Some?
    ensures FirstCriterion(a, id).Some? ==> FirstCriterion(a, id).value.required == FirstCriterion(b, id).value.required
  {
    if a != [] { SameFirst(a[1..], b[1..], id); }
  }

  lemma {:induction false} AllSatisfied(criteria: seq<Criterion>)
    requires forall k :: 0 <= k < |criteria| ==> criteria[k].satisfied
    ensures SatisfiedIds(criteria, false) == [] && |SatisfiedIds(criteria, true)| == |criteria|
    ensures forall k :: 0 <= k < |criteria| ==> SatisfiedIds(criteria, true)[k] == criteria[k].id
  {
    if criteria != [] { AllSatisfied(criteria[..|criteria| - 1]); }
  }

  /** A bind changes neither the identity of the contract nor what any criterion requires, and leaves no gap. */
  lemma BoundContract(day: DaySnapshot, contract: Contract, pending: seq<Pending>)
    requires |pending| == |contract.criteria|
    ensures var contract' := BoundDay(day, contract, pending).contract.value;
            && FingerprintOf(contract') == FingerprintOf(contract)
            && contract'.remainingGaps == []
            && contract'.satisfiedCriteria == seq(|contract.criteria|, k requires 0 <= k < |contract.criteria| => contract.criteria[k].id)
            && (forall id, t :: Looked(contract', id, t) <==> Looked(contract, id, t))
  {
    var criteria' := Bindings(contract.criteria, pending);
    AllSatisfied(criteria');
    assert Identities(criteria') == Identities(contract.criteria);
    var contract' := BoundDay(day, contract, pending).contract.value;
    forall id, t ensures Looked(contract', id, t) <==> Looked(contract, id, t) {
      SameFirst(contract.criteria, criteria', id);
    }
  }

  /** The source of one type in a bound snapshot. */
  lemma BoundSource(env: Env, intent: RunIntent, contract: Contract, day: DaySnapshot, pending: seq<Pending>, k: nat, t: EvidenceType)
    requires AllGood(env, intent, contract, pending) && |pending| == |contract.criteria| && k < |pending|
    ensures var day' := BoundDay(day, contract, pending);
            var c' := day'.contract.value.criteria[k];
            var source := SourceOf(day', c', t);
            && (source.Some? <==> t in pending[k].ids)
            && (source.Some? ==>
                  && Proves(env, intent, contract, pending[k].ids[t], source.value)
                  && source.value.evidenceType == t && source.value.criterionId == Some(c'.id)
                  && BoundId(intent, c', source.value) == c'.recordIds[t])
  {
    assert GoodPending(env, intent, contract, contract.criteria[k], pending[k]);
    if t in pending[k].ids { StoredProves(env, intent, contract, day.evidence, pending, k, pending[k].ids[t]); }
  }

  /** A bound type is valid again exactly when the program has the project that the adapter writes. */
  lemma BoundSourceReasons(env: Env, intent: RunIntent, contract: Contract, day: DaySnapshot, pending: seq<Pending>, k: nat, t: EvidenceType)
    requires AllGood(env, intent, contract, pending) && |pending| == |contract.criteria| && k < |pending|
    ensures var day' := BoundDay(day, contract, pending);
            var contract' := day'.contract.value;
            var good := env.project == ADAPTER_PROJECT && t in pending[k].ids;
            && (VerifySourceReason(env, intent, contract', day', contract'.criteria[k], t) == None <==> good)
            && (BindSourceReason(env, intent, contract', day', contract'.criteria[k], t) == None <==> good)
  {
    BoundSource(env, intent, contract, day, pending, k, t);
  }

  /** One criterion of a bound snapshot verifies exactly for the adapter's project and with no type hidden. */
  lemma BoundCriterionVerifies(env: Env, intent: RunIntent, contract: Contract, day: DaySnapshot, pending: seq<Pending>, k: nat, at: Time)
    requires AllGood(env, intent, contract, pending) && |pending| == |contract.criteria| && k < |pending|
    requires intent.selectedDay == contract.day
    ensures var day' := BoundDay(day, contract, pending);
            var contract' := day'.contract.value;
            VerifyCriterionReason(env, intent, contract', day', contract'.criteria[k], at) == None
            <==> env.project == ADAPTER_PROJECT && NoneHidden(contract, contract.criteria[k])
  {
    var day' := BoundDay(day, contract, pending);
    var contract' := day'.contract.value;
    var c' := contract'.criteria[k];
    var f' := LookedUpAgain(env, intent, contract, day, pending, k);
    CriterionVerifies(env, intent, contract', day', c', f', at);
    forall t
      ensures VerifySourceReason(env, intent, contract', day', c', t) == None <==> env.project == ADAPTER_PROJECT && t in pending[k].ids
    {
      BoundSourceReasons(env, intent, contract, day, pending, k, t);
    }
    assert GoodPending(env, intent, contract, contract.criteria[k], pending[k]);
  }

  /** And it binds again under the same condition, to the same ids. */
  lemma BoundCriterionBinds(env: Env, intent: RunIntent, contract: Contract, day: DaySnapshot, pending: seq<Pending>, k: nat, at: Time)
    requires AllGood(env, intent, contract, pending) && |pending| == |contract.criteria| && k < |pending|
    requires intent.selectedDay == contract.day
    ensures var day' := BoundDay(day, contract, pending);
            var contract' := day'.contract.value;
            var step := BindCriterion(env, intent, contract', day', contract'.criteria[k], at);
            && (step.Ready? <==> env.project == ADAPTER_PROJECT && NoneHidden(contract, contract.criteria[k]))
            && (step.Ready? ==> step.pending.ids == pending[k].ids)
  {
    var day' := BoundDay(day, contract, pending);
    var contract' := day'.contract.value;
    var c' := contract'.criteria[k];
    var f' := LookedUpAgain(env, intent, contract, day, pending, k);
    CriterionBinds(env, intent, contract', day', c', f', at);
    forall t
      ensures BindSourceReason(env, intent, contract', day', c', t) == None <==> env.project == ADAPTER_PROJECT && t in pending[k].ids
    {
      BoundSourceReasons(env, intent, contract, day, pending, k, t);
    }
    var step := BindCriterion(env, intent, contract', day', c', at);
    if step.Ready? { BoundIdsUnique(intent, day', c', f', step.pending.ids, pending[k].ids); }
    assert GoodPending(env, intent, contract, contract.criteria[k], pending[k]);
  }

  /** The criterion looked up for criterion `k` of the bound snapshot. */
  lemma LookedUpAgain(env: Env, intent: RunIntent, contract: Contract, day: DaySnapshot, pending: seq<Pending>, k: nat) returns (f': Criterion)
    requires AllGood(env, intent, contract, pending) && |pending| == |contract.criteria| && k < |pending|
    ensures var day' := BoundDay(day, contract, pending);
            var contract' := day'.contract.value;
            var c' := contract'.criteria[k];
            && FirstCriterion(contract'.criteria, c'.id) == Some(f') && f'.id == c'.id
            && CoversLooked(c', f') && c'.required != [] && BoundIds(intent, day', c', f', c'.recordIds)
  {
    var contract' := BoundDay(day, contract, pending).contract.value;
    var c := contract.criteria[k];
    FirstHasId(contract'.criteria, k);
    f' := FirstCriterion(contract'.criteria, c.id).value;
    SameFirst(contract.criteria, contract'.criteria, c.id);
    assert forall t :: t in f'.required <==> Looked(contract, c.id, t);
    SomeTypeBound(env, intent, contract, day, pending, k);
    BoundIdsAgain(env, intent, contract, day, pending, k, f');
  }

  lemma SomeTypeBound(env: Env, intent: RunIntent, contract: Contract, day: DaySnapshot, pending: seq<Pending>, k: nat)
    requires AllGood(env, intent, contract, pending) && |pending| == |contract.criteria| && k < |pending|
    ensures var f := FirstCriterion(contract.criteria, contract.criteria[k].id);
            f.Some? && CoversLooked(contract.criteria[k], f.value) && contract.criteria[k].required != []
  {
    assert GoodPending(env, intent, contract, contract.criteria[k], pending[k]);
    var t :| t in pending[k].ids;
    var f := FirstCriterion(contract.criteria, contract.criteria[k].id).value;
    assert t in f.required;
    forall t | t in f.required ensures t in contract.criteria[k].required {
      assert Looked(contract, contract.criteria[k].id, t);
    }
  }

  lemma BoundIdsAgain(env: Env, intent: RunIntent, contract: Contract, day: DaySnapshot, pending: seq<Pending>, k: nat, f': Criterion)
    requires AllGood(env, intent, contract, pending) && |pending| == |contract.criteria| && k < |pending|
    requires forall t :: t in f'.required <==> Looked(contract, contract.criteria[k].id, t)
    ensures var day' := BoundDay(day, contract, pending);
            var c' := day'.contract.value.criteria[k];
            BoundIds(intent, day', c', f', c'.recordIds)
  {
    var day' := BoundDay(day, contract, pending);
    var c' := day'.contract.value.criteria[k];
    assert GoodPending(env, intent, contract, contract.criteria[k], pending[k]);
    forall t | t in c'.recordIds
      ensures SourceOf(day', c', t).Some? && c'.recordIds[t] == BoundId(intent, c', SourceOf(day', c', t).value)
    {
      BoundSource(env, intent, contract, day, pending, k, t);
    }
  }
}
