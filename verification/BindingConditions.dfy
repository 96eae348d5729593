/** When a bind and a verification accept, said of the run, the Day and its records. */
module BindingConditions {
  import opened Prelude
  import opened DayModels
  import opened RunStore
  import opened EvidenceCompletion
  import opened EvidenceBinding
  import opened BindingProperties
  import opened BindingSources
  import opened RunWorld
  import opened RunProperties

  // ----- contracts -----

  /** The criterion says and requires the same; the order of what it requires is free. */
  predicate SaysTheSame(a: Criterion, b: Criterion) {
    a.id == b.id && a.statement == b.statement && multiset(a.required) == multiset(b.required)
  }

  /** Equal fingerprints mean the same Day, version, definition, and for each criterion one that says the same. */
  lemma FingerprintMeansSame(a: Contract, b: Contract, k: nat)
    requires FingerprintOf(a) == FingerprintOf(b) && k < |a.criteria|
    ensures a.day == b.day && a.version == b.version && a.definition == b.definition
    ensures |a.criteria| == |b.criteria| && exists j :: 0 <= j < |b.criteria| && SaysTheSame(a.criteria[k], b.criteria[j])
  {
    var x, y := Identities(a.criteria), Identities(b.criteria);
    assert multiset(x) == multiset(y);
    assert |x| == |multiset(x)| == |multiset(y)| == |y|;
    assert x[k] in multiset(x);
    assert x[k] in y;
    var j :| 0 <= j < |y| && y[j] == x[k];
    assert SaysTheSame(a.criteria[k], b.criteria[j]);
  }

  // ----- one source -----

  /** The record is one of this type that was found valid, and its files and its validator still say so. */
  predicate StillProves(env: Env, t: EvidenceType, s: EvidenceRecord) {
    && s.evidenceType == t && s.statusValid && s.validatorResult && s.compatible && s.project == env.project
    && Unchanged(env.files, s) && env.validates(t, s.value, s.provider)
  }

  predicate BoundToNone(s: EvidenceRecord) { s.runId == None && s.criterionId == None }

  predicate BoundTo(intent: RunIntent, c: Criterion, s: EvidenceRecord) { s.runId == Some(intent.runId) && s.criterionId == Some(c.id) }

  predicate OfContract(contract: Contract, s: EvidenceRecord) { s.day == contract.day && s.version == contract.version }

  /** Which source can be bound, and the reason for each that cannot. */
  lemma BindSourceExactly(env: Env, intent: RunIntent, contract: Contract, day: DaySnapshot, c: Criterion, t: EvidenceType)
    ensures var reason := BindSourceReason(env, intent, contract, day, c, t);
            if !Has(day, c, t) || !StillProves(env, t, Source(day, c, t)) then reason == Some(SourceInvalid)
            else
              var s := Source(day, c, t);
              reason == if !OfContract(contract, s) then Some(SourceContractMismatch)
                        else if BoundToNone(s) then None
                        else if !BoundTo(intent, c, s) then Some(SourceBindingMismatch)
                        else if s.configFingerprint != intent.configFingerprint then Some(SourceConfigMismatch)
                        else None
  {
  }

  lemma VerifySourceExactly(env: Env, intent: RunIntent, contract: Contract, day: DaySnapshot, c: Criterion, t: EvidenceType)
    ensures var reason := VerifySourceReason(env, intent, contract, day, c, t);
            if !Has(day, c, t) || !StillProves(env, t, Source(day, c, t)) then reason == Some(BoundEvidenceInvalid)
            else
              var s := Source(day, c, t);
              reason == if OfContract(contract, s) && BoundTo(intent, c, s) && s.configFingerprint == intent.configFingerprint then None
                        else Some(BoundIdentityMismatch)
  {
  }

  /** A result proves a type for a criterion exactly when it is of this run and criterion, required, configured as intended, and valid. */
  lemma AcceptsExactly(env: Env, intent: RunIntent, c: Criterion, raw: RawResult)
    ensures Accepts(env, intent, c, raw) <==>
              && raw.Result? && raw.runId == intent.runId && raw.criterionId == c.id && raw.evidenceType in c.required
              && raw.config == intent.configFingerprint && env.validates(raw.evidenceType, raw.value, raw.provider)
  {
  }

  // ----- a whole bind -----

  ghost predicate Bindable(env: Env, intent: RunIntent, contract: Contract, day: DaySnapshot, c: Criterion) {
    && (exists t :: Looked(contract, c.id, t)) && (forall t :: Looked(contract, c.id, t) ==> t in c.required)
    && forall t :: t in c.required ==>
         && Has(day, c, t) && StillProves(env, t, Source(day, c, t)) && OfContract(contract, Source(day, c, t))
         && (BoundToNone(Source(day, c, t))
             || (BoundTo(intent, c, Source(day, c, t)) && Source(day, c, t).configFingerprint == intent.configFingerprint))
  }

  lemma BindableExactly(env: Env, intent: RunIntent, contract: Contract, day: DaySnapshot, k: nat, at: Time)
    requires k < |contract.criteria| && intent.selectedDay == contract.day
    ensures BindCriterion(env, intent, contract, day, contract.criteria[k], at).Ready? <==> Bindable(env, intent, contract, day, contract.criteria[k])
  {
    hide BindCriterion, BindSourceReason, StillProves;
    var c := contract.criteria[k];
    FirstHasId(contract.criteria, k);
    var f := FirstCriterion(contract.criteria, c.id).value;
    CriterionBinds(env, intent, contract, day, c, f, at);
    CoversExactly(contract, c, f);
    forall t ensures BindSourceReason(env, intent, contract, day, c, t) == None <==>
                       Has(day, c, t) && StillProves(env, t, Source(day, c, t)) && OfContract(contract, Source(day, c, t))
                       && (BoundToNone(Source(day, c, t))
                           || (BoundTo(intent, c, Source(day, c, t)) && Source(day, c, t).configFingerprint == intent.configFingerprint))
    {
      BindSourceExactly(env, intent, contract, day, c, t);
    }
  }

  lemma CoversExactly(contract: Contract, c: Criterion, f: Criterion)
    requires FirstCriterion(contract.criteria, c.id) == Some(f)
    ensures CoversLooked(c, f) <==> (exists t :: Looked(contract, c.id, t)) && (forall t :: Looked(contract, c.id, t) ==> t in c.required)
  {
    if f.required != [] { assert Looked(contract, c.id, f.required[0]); }
    assert forall t :: Looked(contract, c.id, t) <==> t in f.required;
  }

  lemma {:induction false} AllBindable(env: Env, intent: RunIntent, contract: Contract, day: DaySnapshot, n: nat, at: Time)
    requires n <= |contract.criteria| && intent.selectedDay == contract.day
    ensures BindUpTo(env, intent, contract, day, n, at).AllReady? <==> forall k :: 0 <= k < n ==> Bindable(env, intent, contract, day, contract.criteria[k])
  {
    hide BindCriterion, Bindable;
    if n > 0 {
      AllBindable(env, intent, contract, day, n - 1, at);
      BindableExactly(env, intent, contract, day, n - 1, at);
    }
  }

  /** The Day is that of the current run, by run, day and contract. */
  predicate IsTheRuns(w: World, run: Id) {
    && run in w.store.files && IsCurrent(w.store, run) && w.day.runId == Some(run) && w.day.contract.Some?
    && w.day.contract.value.day == w.store.files[run].intent.selectedDay
    && FingerprintOf(w.day.contract.value) == w.store.files[run].intent.contractFingerprint
  }

  /** When a bind is accepted, both ways: the Day is the current run's, and every criterion has proof of all it requires. */
  lemma BindAcceptedExactly(env: Env, w: World, run: Id, at: Time)
    requires StoreOk(w.store)
    ensures Bind(env, w, run, at).1 == Accepted <==>
              IsTheRuns(w, run)
              && forall k :: 0 <= k < |w.day.contract.value.criteria| ==>
                   Bindable(env, w.store.files[run].intent, w.day.contract.value, w.day, w.day.contract.value.criteria[k])
  {
    hide StoreOk, IsCurrent, FingerprintOf, BindUpTo, BoundDay, Bindable;
    if run in w.store.files {
      StoredIdentity(w.store, run);
      if w.day.contract.Some? && w.day.contract.value.day == w.store.files[run].intent.selectedDay {
        AllBindable(env, w.store.files[run].intent, w.day.contract.value, w.day, |w.day.contract.value.criteria|, at);
      }
    }
  }

  // ----- a whole verification -----

  /** Every required type has its own record of this run, criterion and configuration, referenced under the id that record proves. */
  ghost predicate Verifiable(env: Env, intent: RunIntent, contract: Contract, day: DaySnapshot, c: Criterion) {
    && (exists t :: Looked(contract, c.id, t)) && (forall t :: Looked(contract, c.id, t) ==> t in c.required)
    && (forall t :: t in c.required ==>
          && Has(day, c, t) && StillProves(env, t, Source(day, c, t)) && OfContract(contract, Source(day, c, t))
          && BoundTo(intent, c, Source(day, c, t)) && Source(day, c, t).configFingerprint == intent.configFingerprint)
    && (forall t :: t in c.recordIds <==> t in c.required && Looked(contract, c.id, t))
    && (forall t :: t in c.recordIds ==>
          Has(day, c, t) && c.recordIds[t] ==
            StrictId(intent.runId, c.id, t, Source(day, c, t).provider, Source(day, c, t).sourceFingerprint, Source(day, c, t).value))
  }

  lemma VerifiableExactly(env: Env, intent: RunIntent, contract: Contract, day: DaySnapshot, k: nat, at: Time)
    requires k < |contract.criteria| && intent.selectedDay == contract.day
    ensures VerifyCriterionReason(env, intent, contract, day, contract.criteria[k], at) == None <==> Verifiable(env, intent, contract, day, contract.criteria[k])
  {
    hide VerifyCriterionReason, VerifySourceReason, CoversLooked;
    var c := contract.criteria[k];
    FirstHasId(contract.criteria, k);
    var f := FirstCriterion(contract.criteria, c.id).value;
    CriterionVerifies(env, intent, contract, day, c, f, at);
    CoversExactly(contract, c, f);
    assert forall t :: Looked(contract, c.id, t) <==> t in f.required;
    forall t ensures VerifySourceReason(env, intent, contract, day, c, t) == None <==>
                       Has(day, c, t) && StillProves(env, t, Source(day, c, t)) && OfContract(contract, Source(day, c, t))
                       && BoundTo(intent, c, Source(day, c, t)) && Source(day, c, t).configFingerprint == intent.configFingerprint
    {
      VerifySourceExactly(env, intent, contract, day, c, t);
    }
  }

  lemma {:induction false} AllVerifiable(env: Env, intent: RunIntent, contract: Contract, day: DaySnapshot, i: nat, at: Time)
    requires i <= |contract.criteria| && intent.selectedDay == contract.day
    ensures VerifyReason(env, intent, contract, day, i, at) == None <==>
              forall k :: i <= k < |contract.criteria| ==> Verifiable(env, intent, contract, day, contract.criteria[k])
    decreases |contract.criteria| - i
  {
    hide VerifyCriterionReason, Verifiable;
    if i < |contract.criteria| {
      VerifiableExactly(env, intent, contract, day, i, at);
      AllVerifiable(env, intent, contract, day, i + 1, at);
    }
  }

  /** When a verification accepts, both ways. */
  lemma VerifyAcceptedExactly(env: Env, w: World, run: Id, at: Time)
    requires StoreOk(w.store)
    ensures Verify(env, w, run, at) == Accepted <==>
              IsTheRuns(w, run)
              && forall k :: 0 <= k < |w.day.contract.value.criteria| ==>
                   Verifiable(env, w.store.files[run].intent, w.day.contract.value, w.day, w.day.contract.value.criteria[k])
  {
    hide StoreOk, IsCurrent, FingerprintOf, VerifyReason, Verifiable;
    if run in w.store.files {
      StoredIdentity(w.store, run);
      if w.day.contract.Some? && w.day.contract.value.day == w.store.files[run].intent.selectedDay {
        AllVerifiable(env, w.store.files[run].intent, w.day.contract.value, w.day, 0, at);
      }
    }
  }
}
