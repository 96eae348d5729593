/** What a bound record takes over from the record it was bound from, and that verification notices a changed file. */
module BindingSources {
  import opened Prelude
  import opened DayModels
  import opened RunStore
  import opened EvidenceCompletion
  import opened EvidenceBinding
  import opened BindingProperties
  import opened RunWorld
  import opened RunProperties
  import opened TerminalTelemetry
  import opened TelemetryProperties
  import opened RunProduct
  import SP = SettlementProperties

  /** The record a criterion references for one type. */
  predicate Has(day: DaySnapshot, c: Criterion, t: EvidenceType) { t in c.recordIds && c.recordIds[t] in day.evidence }

  function Source(day: DaySnapshot, c: Criterion, t: EvidenceType): EvidenceRecord
    requires Has(day, c, t)
  {
    day.evidence[c.recordIds[t]]
  }

  /** `r` says of this run and criterion what `s` said: the same value, from the same provider, files and provenance. */
  predicate Carries(intent: RunIntent, contract: Contract, c: Criterion, t: EvidenceType, s: EvidenceRecord, r: EvidenceRecord) {
    && r.value == s.value && r.provider == s.provider && r.sourceFingerprint == s.sourceFingerprint
    && r.sourceHashes == s.sourceHashes && r.provenance == s.provenance && r.evidenceType == t
    && r.recordId == StrictId(intent.runId, c.id, t, s.provider, s.sourceFingerprint, s.value)
    && r.runId == Some(intent.runId) && r.criterionId == Some(c.id) && r.project == ADAPTER_PROJECT
    && r.day == contract.day && r.version == contract.version && r.configFingerprint == intent.configFingerprint
    && r.statusValid && r.validatorResult && r.compatible
  }

  /** The two sources are bound under one id: their criteria share an id, and they agree in provider, source and value. */
  predicate SameBinding(a: Criterion, b: Criterion, r: EvidenceRecord, s: EvidenceRecord) {
    a.id == b.id && r.provider == s.provider && r.sourceFingerprint == s.sourceFingerprint && r.value == s.value
  }

  // ----- one criterion -----

  ghost predicate PendingCarries(intent: RunIntent, contract: Contract, day: DaySnapshot, c: Criterion, p: Pending) {
    && (forall t :: t in p.ids ==>
          Has(day, c, t) && p.ids[t] in p.records && p.records[p.ids[t]].recordId == p.ids[t]
          && Carries(intent, contract, c, t, Source(day, c, t), p.records[p.ids[t]]))
    && (forall id :: id in p.records ==> id.StrictId? && id.evidenceType in p.ids && id == p.ids[id.evidenceType])
  }

  lemma ReadyCarries(env: Env, intent: RunIntent, contract: Contract, day: DaySnapshot, k: nat, at: Time)
    requires k < |contract.criteria| && intent.selectedDay == contract.day
    requires BindCriterion(env, intent, contract, day, contract.criteria[k], at).Ready?
    ensures PendingCarries(intent, contract, day, contract.criteria[k], BindCriterion(env, intent, contract, day, contract.criteria[k], at).pending)
  {
    var c := contract.criteria[k];
    BindSourcesNone(env, intent, contract, day, c, 0);
    assert SourcesValid(env, day, c) by {
      forall t | t in c.required ensures BindSourceReason(env, intent, contract, day, c, t) == None {
        var j :| 0 <= j < |c.required| && c.required[j] == t;
      }
    }
    FirstHasId(contract.criteria, k);
    var f := FirstCriterion(contract.criteria, c.id).value;
    var s := Selected(env, intent, f, ResultsOf(intent, day, c));
    RecordsRetain(intent, contract, f, s, at);
    forall t ensures (t in s ==> t in c.required && s[t] == RawOf(intent, c, SourceOf(day, c, t))) {
      SelectedSources(env, intent, day, c, f, t);
    }
    assert BindCriterion(env, intent, contract, day, c, at).pending == Pending(IdsOf(intent, f, s), RecordsOf(intent, contract, f, s, at));
  }

  ghost predicate AllCarry(intent: RunIntent, contract: Contract, day: DaySnapshot, pending: seq<Pending>) {
    |pending| <= |contract.criteria|
    && forall k :: 0 <= k < |pending| ==> PendingCarries(intent, contract, day, contract.criteria[k], pending[k])
  }

  lemma {:induction false} BindCarries(env: Env, intent: RunIntent, contract: Contract, day: DaySnapshot, n: nat, at: Time)
    requires n <= |contract.criteria| && intent.selectedDay == contract.day
    ensures var r := BindUpTo(env, intent, contract, day, n, at);
            r.AllReady? ==> |r.pending| == n && AllCarry(intent, contract, day, r.pending)
  {
    hide BindCriterion, PendingCarries;
    if n > 0 {
      BindCarries(env, intent, contract, day, n - 1, at);
      if BindCriterion(env, intent, contract, day, contract.criteria[n - 1], at).Ready? { ReadyCarries(env, intent, contract, day, n - 1, at); }
    }
  }

  // ----- the store -----

  /** Of several pending records of one id the last one is stored. */
  lemma {:induction false} LastIsStored(evidence: map<RecordId, EvidenceRecord>, pending: seq<Pending>, k: nat, id: RecordId) returns (j: nat)
    requires k < |pending| && id in pending[k].records
    ensures k <= j < |pending| && id in pending[j].records && id in Stored(evidence, pending)
    ensures Stored(evidence, pending)[id] == pending[j].records[id]
    ensures forall i :: j < i < |pending| ==> id !in pending[i].records
  {
    var n := |pending| - 1;
    if id in pending[n].records {
      j := n;
    } else {
      j := LastIsStored(evidence, pending[..n], k, id);
    }
  }

  /** Criterion `k` and type `t` of the Day decide what is stored: no later source is bound under the same id. */
  predicate Decides(contract: Contract, day: DaySnapshot, k: nat, t: EvidenceType)
    requires k < |contract.criteria|
  {
    var c := contract.criteria[k];
    Has(day, c, t) && forall j :: k < j < |contract.criteria| && t in contract.criteria[j].required && Has(day, contract.criteria[j], t) ==>
      !SameBinding(c, contract.criteria[j], Source(day, c, t), Source(day, contract.criteria[j], t))
  }

  /** The bound record of criterion `k` carries the source of a criterion that decides it. */
  lemma StoredCarries(env: Env, intent: RunIntent, contract: Contract, day: DaySnapshot, pending: seq<Pending>, k: nat, t: EvidenceType) returns (j: nat)
    requires AllGood(env, intent, contract, pending) && AllCarry(intent, contract, day, pending) && |pending| == |contract.criteria|
    requires k < |pending| && t in pending[k].ids
    ensures k <= j < |contract.criteria| && t in contract.criteria[j].required && Decides(contract, day, j, t)
    ensures var c, d, stored := contract.criteria[k], contract.criteria[j], Stored(day.evidence, pending);
            && Has(day, c, t) && SameBinding(c, d, Source(day, c, t), Source(day, d, t))
            && pending[k].ids[t] in stored && Carries(intent, contract, c, t, Source(day, d, t), stored[pending[k].ids[t]])
  {
    hide AllGood, Stored, Looked;
    var id := pending[k].ids[t];
    assert PendingCarries(intent, contract, day, contract.criteria[k], pending[k]);
    j := LastIsStored(day.evidence, pending, k, id);
    assert PendingCarries(intent, contract, day, contract.criteria[j], pending[j]);
    OnlyRequired(env, intent, contract, pending, j, t);
    var d := contract.criteria[j];
    forall i | j < i < |contract.criteria| && t in contract.criteria[i].required && Has(day, contract.criteria[i], t)
      ensures !SameBinding(d, contract.criteria[i], Source(day, d, t), Source(day, contract.criteria[i], t))
    {
      if contract.criteria[i].id == d.id {
        assert PendingCarries(intent, contract, day, contract.criteria[i], pending[i]);
        SameTypes(env, intent, contract, pending, j, i, t);
      }
    }
  }

  lemma OnlyRequired(env: Env, intent: RunIntent, contract: Contract, pending: seq<Pending>, k: nat, t: EvidenceType)
    requires AllGood(env, intent, contract, pending) && k < |pending|
    ensures t in pending[k].ids <==> t in contract.criteria[k].required && Looked(contract, contract.criteria[k].id, t)
  {
    assert GoodPending(env, intent, contract, contract.criteria[k], pending[k]);
  }

  lemma SameTypes(env: Env, intent: RunIntent, contract: Contract, pending: seq<Pending>, j: nat, i: nat, t: EvidenceType)
    requires AllGood(env, intent, contract, pending) && j < |pending| && i < |pending| && t in pending[j].ids
    requires contract.criteria[i].id == contract.criteria[j].id && t in contract.criteria[i].required
    ensures t in pending[i].ids
  {
    OnlyRequired(env, intent, contract, pending, j, t);
    OnlyRequired(env, intent, contract, pending, i, t);
  }

  // ----- an accepted bind -----

  lemma BindPieces(env: Env, w: World, run: Id, at: Time) returns (pending: seq<Pending>)
    requires StoreOk(w.store) && Bind(env, w, run, at).1 == Accepted
    ensures run in w.store.files && w.day.contract.Some? && w.day.runId == Some(run)
    ensures var intent, contract := w.store.files[run].intent, w.day.contract.value;
            && intent.runId == run && intent.selectedDay == contract.day && |pending| == |contract.criteria|
            && AllGood(env, intent, contract, pending) && AllCarry(intent, contract, w.day, pending)
            && Bind(env, w, run, at).0 == w.(day := BoundDay(w.day, contract, pending))
  {
    hide IsCurrent, FingerprintOf, AllGood, AllCarry, BoundDay, StoreOk, BindUpTo;
    StoredIdentity(w.store, run);
    SP.AcceptedBindChecks(env, w, run, at);
    var intent, contract := w.store.files[run].intent, w.day.contract.value;
    AcceptedBindCovers(env, intent, contract, w.day, |contract.criteria|, at);
    BindCarries(env, intent, contract, w.day, |contract.criteria|, at);
    pending := BindUpTo(env, intent, contract, w.day, |contract.criteria|, at).pending;
  }

  lemma BoundHas(day: DaySnapshot, contract: Contract, pending: seq<Pending>, k: nat)
    requires |pending| == |contract.criteria| && k < |pending|
    ensures var day' := BoundDay(day, contract, pending);
            && day'.evidence == Stored(day.evidence, pending) && day'.contract.Some?
            && |day'.contract.value.criteria| == |contract.criteria|
            && day'.contract.value.criteria[k] == contract.criteria[k].(recordIds := pending[k].ids, satisfied := true)
            && day'.contract.value.day == contract.day && day'.contract.value.version == contract.version
  {
  }

  /**
   * After an accepted bind the record of every required type that is not hidden carries its source, with value,
   * provider, fingerprint, file hashes and provenance.  When criteria share an id the source is that of the last
   * one bound under it; with distinct ids it is the criterion's own.
   */
  lemma BoundRecordCarriesItsSource(env: Env, w: World, run: Id, at: Time, k: nat, t: EvidenceType) returns (j: nat)
    requires StoreOk(w.store) && Bind(env, w, run, at).1 == Accepted && k < |w.day.contract.value.criteria|
    requires t in w.day.contract.value.criteria[k].required && Looked(w.day.contract.value, w.day.contract.value.criteria[k].id, t)
    ensures run in w.store.files && Bind(env, w, run, at).0.day.contract.Some?
    ensures |Bind(env, w, run, at).0.day.contract.value.criteria| == |w.day.contract.value.criteria| && k <= j < |w.day.contract.value.criteria|
    ensures var contract, day' := w.day.contract.value, Bind(env, w, run, at).0.day;
            var c, d, c' := contract.criteria[k], contract.criteria[j], day'.contract.value.criteria[k];
            && Has(w.day, c, t) && Has(w.day, d, t) && Has(day', c', t) && Decides(contract, w.day, j, t)
            && Carries(w.store.files[run].intent, contract, c, t, Source(w.day, d, t), Source(day', c', t))
            && SameBinding(c, d, Source(w.day, c, t), Source(w.day, d, t))
            && (Decides(contract, w.day, k, t) || DistinctCriteria(contract) ==> j == k)
  {
    hide Bind, BoundDay, AllGood, AllCarry, StoreOk, Looked;
    var pending := BindPieces(env, w, run, at);
    var intent, contract := w.store.files[run].intent, w.day.contract.value;
    OnlyRequired(env, intent, contract, pending, k, t);
    BoundHas(w.day, contract, pending, k);
    j := StoredCarries(env, intent, contract, w.day, pending, k, t);
  }

  // ----- changed files -----

  predicate Unchanged(files: Id -> Fingerprint, s: EvidenceRecord) {
    forall path :: path in s.sourceHashes ==> files(path) == s.sourceHashes[path]
  }

  /** No file hashed by a source that decides a bound record has changed. */
  ghost predicate SourcesUnchanged(day: DaySnapshot, contract: Contract, files: Id -> Fingerprint) {
    forall k, t :: 0 <= k < |contract.criteria| && t in contract.criteria[k].required && Decides(contract, day, k, t) ==>
      Unchanged(files, Source(day, contract.criteria[k], t))
  }

  /** Verification of one bound type with other files. */
  lemma SourceNoticesFiles(env: Env, files: Id -> Fingerprint, intent: RunIntent, contract: Contract, day: DaySnapshot, pending: seq<Pending>, k: nat, t: EvidenceType)
    requires AllGood(env, intent, contract, pending) && AllCarry(intent, contract, day, pending) && |pending| == |contract.criteria|
    requires k < |pending| && t in pending[k].ids && env.project == ADAPTER_PROJECT
    ensures var day' := BoundDay(day, contract, pending);
            var c' := day'.contract.value.criteria[k];
            && Has(day', c', t)
            && VerifySourceReason(env.(files := files), intent, day'.contract.value, day', c', t)
                 == if Unchanged(files, Source(day', c', t)) then None else Some(BoundEvidenceInvalid)
  {
    hide AllGood, AllCarry, BoundDay;
    BoundHas(day, contract, pending, k);
    var j := StoredCarries(env, intent, contract, day, pending, k, t);
    BoundSource(env, intent, contract, day, pending, k, t);
  }

  lemma {:induction false} FirstReason(env: Env, intent: RunIntent, contract: Contract, day: DaySnapshot, c: Criterion, j: nat)
    requires j <= |c.required|
    requires forall t :: t in c.required ==> VerifySourceReason(env, intent, contract, day, c, t) in {None, Some(BoundEvidenceInvalid)}
    ensures VerifySourcesReason(env, intent, contract, day, c, j) in {None, Some(BoundEvidenceInvalid)}
    decreases |c.required| - j
  {
    if j < |c.required| { FirstReason(env, intent, contract, day, c, j + 1); }
  }

  ghost predicate CriterionUnchanged(day: DaySnapshot, c: Criterion, files: Id -> Fingerprint) {
    forall t :: t in c.required && Has(day, c, t) ==> Unchanged(files, Source(day, c, t))
  }

  lemma CriterionNoticesFiles(env: Env, files: Id -> Fingerprint, intent: RunIntent, contract: Contract, day: DaySnapshot, pending: seq<Pending>, k: nat, at: Time)
    requires AllGood(env, intent, contract, pending) && AllCarry(intent, contract, day, pending) && |pending| == |contract.criteria|
    requires k < |pending| && env.project == ADAPTER_PROJECT && NoneHidden(contract, contract.criteria[k]) && intent.selectedDay == contract.day
    ensures var day' := BoundDay(day, contract, pending);
            && k < |day'.contract.value.criteria|
            && VerifyCriterionReason(env.(files := files), intent, day'.contract.value, day', day'.contract.value.criteria[k], at)
                 == if CriterionUnchanged(day', day'.contract.value.criteria[k], files) then None else Some(BoundEvidenceInvalid)
  {
    hide AllGood, AllCarry, BoundDay, VerifySourceReason, Looked, Unchanged;
    var day' := BoundDay(day, contract, pending);
    BoundHas(day, contract, pending, k);
    var contract', c', other := day'.contract.value, day'.contract.value.criteria[k], env.(files := files);
    var f' := LookedUpAgain(env, intent, contract, day, pending, k);
    CriterionVerifies(other, intent, contract', day', c', f', at);
    forall t | t in c'.required
      ensures Has(day', c', t) && VerifySourceReason(other, intent, contract', day', c', t)
                                    == if Unchanged(files, Source(day', c', t)) then None else Some(BoundEvidenceInvalid)
    {
      OnlyRequired(env, intent, contract, pending, k, t);
      SourceNoticesFiles(env, files, intent, contract, day, pending, k, t);
    }
    FirstReason(other, intent, contract', day', c', 0);
    VerifySourcesNone(other, intent, contract', day', c', 0);
    if CriterionUnchanged(day', c', files) {
      assert Verifies(other, intent, contract', day', c', f');
    } else {
      var t :| t in c'.required && Has(day', c', t) && !Unchanged(files, Source(day', c', t));
      var i :| 0 <= i < |c'.required| && c'.required[i] == t;
      assert VerifySourcesReason(other, intent, contract', day', c', 0) != None;
    }
  }

  ghost predicate BoundUnchanged(day: DaySnapshot, contract: Contract, files: Id -> Fingerprint, i: nat) {
    forall k :: i <= k < |contract.criteria| ==> CriterionUnchanged(day, contract.criteria[k], files)
  }

  lemma {:induction false} AllNoticeFiles(env: Env, files: Id -> Fingerprint, intent: RunIntent, contract: Contract, day: DaySnapshot, pending: seq<Pending>, i: nat, at: Time)
    requires AllGood(env, intent, contract, pending) && AllCarry(intent, contract, day, pending) && |pending| == |contract.criteria|
    requires i <= |pending| && env.project == ADAPTER_PROJECT && NothingHidden(contract) && intent.selectedDay == contract.day
    ensures var day' := BoundDay(day, contract, pending);
            && |day'.contract.value.criteria| == |contract.criteria|
            && VerifyReason(env.(files := files), intent, day'.contract.value, day', i, at)
                 == if BoundUnchanged(day', day'.contract.value, files, i) then None else Some(BoundEvidenceInvalid)
    decreases |pending| - i
  {
    hide AllGood, AllCarry, BoundDay, VerifyCriterionReason, NoneHidden, CriterionUnchanged;
    SP.BoundDayContract(day, contract, pending);
    if i < |pending| {
      CriterionNoticesFiles(env, files, intent, contract, day, pending, i, at);
      AllNoticeFiles(env, files, intent, contract, day, pending, i + 1, at);
    }
  }

  /** One bound record and its source. */
  lemma UnchangedSource(env: Env, files: Id -> Fingerprint, intent: RunIntent, contract: Contract, day: DaySnapshot, pending: seq<Pending>, k: nat, t: EvidenceType)
    requires AllGood(env, intent, contract, pending) && AllCarry(intent, contract, day, pending) && |pending| == |contract.criteria|
    requires NothingHidden(contract) && k < |contract.criteria| && t in contract.criteria[k].required
    ensures var day' := BoundDay(day, contract, pending);
            var c' := day'.contract.value.criteria[k];
            && c'.required == contract.criteria[k].required && Has(day', c', t)
            && (SourcesUnchanged(day, contract, files) ==> Unchanged(files, Source(day', c', t)))
            && (Decides(contract, day, k, t) ==> Unchanged(files, Source(day', c', t)) == Unchanged(files, Source(day, contract.criteria[k], t)))
  {
    hide AllGood, AllCarry, BoundDay, Unchanged, Looked;
    var day' := BoundDay(day, contract, pending);
    assert NoneHidden(contract, contract.criteria[k]);
    OnlyRequired(env, intent, contract, pending, k, t);
    BoundHas(day, contract, pending, k);
    var j := StoredCarries(env, intent, contract, day, pending, k, t);
    SameHashes(files, Source(day, contract.criteria[j], t), Source(day', day'.contract.value.criteria[k], t));
  }

  /** The bound records are unchanged exactly when the deciding sources are. */
  lemma UnchangedSources(env: Env, files: Id -> Fingerprint, intent: RunIntent, contract: Contract, day: DaySnapshot, pending: seq<Pending>)
    requires AllGood(env, intent, contract, pending) && AllCarry(intent, contract, day, pending) && |pending| == |contract.criteria|
    requires NothingHidden(contract)
    ensures var day' := BoundDay(day, contract, pending);
            BoundUnchanged(day', day'.contract.value, files, 0) <==> SourcesUnchanged(day, contract, files)
  {
    hide AllGood, AllCarry, BoundDay, Unchanged, NothingHidden, Has;
    var day' := BoundDay(day, contract, pending);
    SP.BoundDayContract(day, contract, pending);
    var criteria' := day'.contract.value.criteria;
    if BoundUnchanged(day', day'.contract.value, files, 0) {
      forall k, t | 0 <= k < |contract.criteria| && t in contract.criteria[k].required && Decides(contract, day, k, t)
        ensures Unchanged(files, Source(day, contract.criteria[k], t))
      {
        UnchangedSource(env, files, intent, contract, day, pending, k, t);
        assert CriterionUnchanged(day', criteria'[k], files);
      }
    }
    if SourcesUnchanged(day, contract, files) {
      forall k | 0 <= k < |criteria'| ensures CriterionUnchanged(day', criteria'[k], files) {
        BoundHas(day, contract, pending, k);
        forall t | t in criteria'[k].required && Has(day', criteria'[k], t) ensures Unchanged(files, Source(day', criteria'[k], t)) {
          UnchangedSource(env, files, intent, contract, day, pending, k, t);
        }
      }
    }
  }

  lemma SameHashes(files: Id -> Fingerprint, r: EvidenceRecord, s: EvidenceRecord)
    requires r.sourceHashes == s.sourceHashes
    ensures Unchanged(files, r) == Unchanged(files, s)
  {
  }

  /**
   * Verification is not a formality: with the adapter's project and nothing hidden, a bound snapshot is accepted
   * in an environment with other files exactly when no file hashed by a deciding source has changed, and is
   * otherwise refused as invalid evidence.
   */
  lemma VerificationNoticesFiles(env: Env, files: Id -> Fingerprint, w: World, run: Id, at: Time, later: Time)
    requires StoreOk(w.store) && Bind(env, w, run, at).1 == Accepted
    requires env.project == ADAPTER_PROJECT && NothingHidden(w.day.contract.value)
    ensures Verify(env.(files := files), Bind(env, w, run, at).0, run, later)
              == if SourcesUnchanged(w.day, w.day.contract.value, files) then Accepted else Rejected(BoundEvidenceInvalid)
  {
    hide Bind, BoundDay, AllGood, AllCarry, StoreOk, VerifyReason, BoundUnchanged, SourcesUnchanged, NothingHidden, IsCurrent, FingerprintOf;
    var pending := BindPieces(env, w, run, at);
    var record, contract, w' := w.store.files[run], w.day.contract.value, Bind(env, w, run, at).0;
    SP.AcceptedBindChecks(env, w, run, at);
    SP.StillCurrent(w, run, w'.day, contract, pending);
    SP.BoundDayContract(w.day, contract, pending);
    AllNoticeFiles(env, files, record.intent, contract, w.day, pending, 0, later);
    UnchangedSources(env, files, record.intent, contract, w.day, pending);
  }

  /** And so settling a COMPLETE run again, with its records in any order, notices every such file. */
  lemma ReplayNoticesFiles(env: Env, files: Id -> Fingerprint, p: Product, run: Id, a: seq<TaskRecord>, b: seq<TaskRecord>, at: Time, later: Time)
    requires StoreOk(p.world.store) && Settle(env, p, run, a, at).1.Projected? && multiset(a) == multiset(b)
    requires p.world.day.contract.Some? && env.project == ADAPTER_PROJECT && NothingHidden(p.world.day.contract.value)
    ensures var p' := Settle(env, p, run, a, at).0;
            Settle(env.(files := files), p', run, b, later)
              == (p', if SourcesUnchanged(p.world.day, p.world.day.contract.value, files) then AlreadyProjected
                      else Unsettled(EVIDENCE_REPLAY, Execution(Rejected(BoundEvidenceInvalid))))
  {
    hide StoreOk, IsCurrent, Bind, Project, Verify, Error, Summarises, RunTelemetry.Valid, SourcesUnchanged, NothingHidden;
    SP.SettledStages(env, p, run, a, at);
    var w1, intent := Bind(env, p.world, run, at).0, p.world.store.files[run].intent;
    SP.BindKeepsStore(env, p.world, run, at);
    SP.AcceptedProjection(w1, run, at);
    TelemetryIsDetermined(intent, a, b);
    VerificationNoticesFiles(env, files, p.world, run, at, later);
    SP.VerifyDependsOnDay(env.(files := files), w1, Settle(env, p, run, a, at).0.world, run, later);
  }
}
