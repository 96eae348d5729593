/** After a bind, re-evaluating the contract with unchanged files finds exactly the bound records again. */
module DayEvidenceProperties {
  import opened Prelude
  import opened DayModels
  import opened EvidenceCompletion
  import opened EvidenceBinding
  import opened BindingProperties
  import opened DayEvidence

  /** The records held ready for a criterion are the ones of its ids, all collected at the time of the bind. */
  ghost predicate CollectedAt(c: Criterion, p: Pending, at: Time) {
    forall id :: id in p.records ==>
      && id.StrictId? && id.criterionId == c.id && id.evidenceType in p.ids && p.ids[id.evidenceType] == id
      && p.records[id].collectedAt == at
  }

  ghost predicate AllCollectedAt(contract: Contract, pending: seq<Pending>, at: Time) {
    && |pending| <= |contract.criteria|
    && forall k :: 0 <= k < |pending| ==> CollectedAt(contract.criteria[k], pending[k], at)
  }

  lemma ReadyIsCollected(env: Env, intent: RunIntent, contract: Contract, day: DaySnapshot, k: nat, at: Time)
    requires k < |contract.criteria| && intent.selectedDay == contract.day
    requires BindCriterion(env, intent, contract, day, contract.criteria[k], at).Ready?
    ensures CollectedAt(contract.criteria[k], BindCriterion(env, intent, contract, day, contract.criteria[k], at).pending, at)
  {
    hide BindSourcesReason;
    var c := contract.criteria[k];
    FirstHasId(contract.criteria, k);
    var f := FirstCriterion(contract.criteria, c.id).value;
    var s := Selected(env, intent, f, ResultsOf(intent, day, c));
    RecordsRetain(intent, contract, f, s, at);
    assert BindCriterion(env, intent, contract, day, c, at).pending == Pending(IdsOf(intent, f, s), RecordsOf(intent, contract, f, s, at));
  }

  lemma {:induction false} BindCollects(env: Env, intent: RunIntent, contract: Contract, day: DaySnapshot, n: nat, at: Time)
    requires n <= |contract.criteria| && intent.selectedDay == contract.day
    ensures var r := BindUpTo(env, intent, contract, day, n, at);
            r.AllReady? ==> |r.pending| == n && AllCollectedAt(contract, r.pending, at)
  {
    hide BindCriterion, CollectedAt;
    if n > 0 {
      BindCollects(env, intent, contract, day, n - 1, at);
      if BindCriterion(env, intent, contract, day, contract.criteria[n - 1], at).Ready? {
        ReadyIsCollected(env, intent, contract, day, n - 1, at);
      }
    }
  }

  /** Where a record of the bound store comes from. */
  lemma {:induction false} StoredFrom(contract: Contract, evidence: map<RecordId, EvidenceRecord>, pending: seq<Pending>, at: Time, id: RecordId)
    requires AllCollectedAt(contract, pending, at) && id in Stored(evidence, pending)
    ensures var r := Stored(evidence, pending)[id];
            || (id in evidence && r == evidence[id] && forall k :: 0 <= k < |pending| ==> id !in pending[k].records)
            || (exists k :: 0 <= k < |pending| && id in pending[k].records && r.collectedAt == at)
  {
    hide CollectedAt;
    if pending != [] {
      var n := |pending| - 1;
      if id in pending[n].records {
        assert pending[n].records[id].collectedAt == at by { PendingCollected(contract.criteria[n], pending[n], at, id); }
      } else {
        StoredFrom(contract, evidence, pending[..n], at, id);
        if k :| 0 <= k < n && id in pending[..n][k].records && Stored(evidence, pending[..n])[id].collectedAt == at {
          assert id in pending[k].records;
        }
      }
    }
  }

  lemma PendingCollected(c: Criterion, p: Pending, at: Time, id: RecordId)
    requires CollectedAt(c, p, at) && id in p.records
    ensures p.records[id].collectedAt == at
  {
  }

  /** Whatever the resolver retained for a bound record it still retains. */
  ghost predicate RetainedHolds(stored: map<RecordId, EvidenceRecord>, p: Pending, inventory: Inventory) {
    forall t :: t in p.ids && p.ids[t] in stored && stored[p.ids[t]].provider == RETAINED_RESOLVER && inventory.retained.Some? ==>
      StillRetained(inventory.retained.value, t)
  }

  /** The records this run and criterion had before the bind, other than the bound ones, are older. */
  ghost predicate BoundLast(evidence: map<RecordId, EvidenceRecord>, run: Id, c: Criterion, p: Pending, at: Time) {
    forall id ::
      (id in evidence && Exact(Some(run), c, evidence[id]) && evidence[id].evidenceType in p.ids
       && id != p.ids[evidence[id].evidenceType]) ==>
        evidence[id].collectedAt < at
  }

  /** A bind, and a later evaluation of the same contract on the store that ingestion left. */
  datatype Reevaluation = Reevaluation(
    env: Env, intent: RunIntent, contract: Contract, day: DaySnapshot, pending: seq<Pending>, at: Time,
    inventory: Inventory, evidence: map<RecordId, EvidenceRecord>)
  {
    function StoredEvidence(): map<RecordId, EvidenceRecord> { Stored(day.evidence, pending) }

    ghost predicate Follows() {
      && |pending| == |contract.criteria| && AllGood(env, intent, contract, pending) && AllCollectedAt(contract, pending, at)
      && env.project == ADAPTER_PROJECT && contract.day != 1 && DistinctCriteria(contract)
      && (forall id :: id in day.evidence ==> day.evidence[id].recordId == id)
      && IngestKeeps(StoredEvidence(), evidence, contract, inventory)
      && (forall k :: 0 <= k < |pending| ==>
            && RetainedHolds(StoredEvidence(), pending[k], inventory)
            && BoundLast(day.evidence, intent.runId, contract.criteria[k], pending[k], at))
    }
  }

  lemma BoundIsInPool(e: Reevaluation, k: nat, t: EvidenceType)
    requires e.Follows() && k < |e.pending| && t in e.pending[k].ids
    ensures var id := e.pending[k].ids[t];
            && InPool(e.env, e.evidence, Some(e.intent.runId), e.contract, e.inventory, e.contract.criteria[k], t, id)
            && Exact(Some(e.intent.runId), e.contract.criteria[k], e.evidence[id])
            && e.evidence[id].recordId == id && e.evidence[id].collectedAt == e.at
  {
    hide AllGood, AllCollectedAt, BoundLast, Stored;
    var id := e.pending[k].ids[t];
    PendingOf(e, k);
    StoredProves(e.env, e.intent, e.contract, e.day.evidence, e.pending, k, id);
    StoredFrom(e.contract, e.day.evidence, e.pending, e.at, id);
    var r := e.StoredEvidence()[id];
    assert Proves(e.env, e.intent, e.contract, id, r);
    assert e.evidence[id] == AfterIngest(r, e.contract.day, e.inventory);
    assert e.evidence[id] == r by {
      if r.provider == RETAINED_RESOLVER && e.inventory.retained.Some? {
        assert RetainedHolds(e.StoredEvidence(), e.pending[k], e.inventory);
        assert StillRetained(e.inventory.retained.value, t);
      }
    }
  }

  lemma PendingOf(e: Reevaluation, k: nat)
    requires |e.pending| == |e.contract.criteria| && k < |e.pending|
    requires AllGood(e.env, e.intent, e.contract, e.pending) && AllCollectedAt(e.contract, e.pending, e.at)
    ensures GoodPending(e.env, e.intent, e.contract, e.contract.criteria[k], e.pending[k])
    ensures CollectedAt(e.contract.criteria[k], e.pending[k], e.at)
  {
  }

  /** Every other candidate bound to this run and criterion is older. */
  lemma OthersAreOlder(e: Reevaluation, k: nat, t: EvidenceType, id: RecordId)
    requires e.Follows() && k < |e.pending| && t in e.pending[k].ids && id != e.pending[k].ids[t]
    requires id in e.evidence && Exact(Some(e.intent.runId), e.contract.criteria[k], e.evidence[id]) && e.evidence[id].evidenceType == t
    ensures e.evidence[id].collectedAt < e.at
  {
    hide AllGood, AllCollectedAt, RetainedHolds, Stored, AfterIngest, EvidenceValid;
    var stored := e.StoredEvidence();
    assert id in stored && e.evidence[id] == stored[id].(compatible := e.evidence[id].compatible);
    StoredFrom(e.contract, e.day.evidence, e.pending, e.at, id);
    if id in e.day.evidence && stored[id] == e.day.evidence[id] && forall j :: 0 <= j < |e.pending| ==> id !in e.pending[j].records {
      assert BoundLast(e.day.evidence, e.intent.runId, e.contract.criteria[k], e.pending[k], e.at);
    } else {
      var j :| 0 <= j < |e.pending| && id in e.pending[j].records;
      PendingOf(e, j);
      StoredProves(e.env, e.intent, e.contract, e.day.evidence, e.pending, j, id);
      assert false;
    }
  }

  /**
   * Days 2 to 14, files and retained evidence unchanged: the evaluation after a bind, for instance on restart,
   * gives every criterion exactly the record ids that the bind gave it, and satisfies it.
   */
  lemma ReevaluationFindsTheBound(e: Reevaluation, k: nat, refs: map<EvidenceType, RecordId>)
    requires e.Follows() && k < |e.pending| && NoneHidden(e.contract, e.contract.criteria[k])
    requires References(e.env, e.evidence, Some(e.intent.runId), e.contract, e.inventory, e.contract.criteria[k], refs)
    ensures refs == e.pending[k].ids
    ensures |refs| == |e.contract.criteria[k].required| <==> Distinct(e.contract.criteria[k].required)
  {
    hide AllGood, AllCollectedAt, RetainedHolds, BoundLast, Stored;
    var run, c, ids := Some(e.intent.runId), e.contract.criteria[k], e.pending[k].ids;
    assert GoodPending(e.env, e.intent, e.contract, c, e.pending[k]) by { FollowsPending(e, k); }
    forall t ensures t in refs <==> t in ids {
      if t in ids { BoundIsInPool(e, k, t); }
    }
    forall t | t in refs ensures refs[t] == ids[t] {
      BoundIsInPool(e, k, t);
      var id :| Chosen(e.env, e.evidence, run, e.contract, e.inventory, c, t, id) && refs[t] == e.evidence[id].recordId;
      if id != ids[t] { OthersAreOlder(e, k, t, id); }
    }
    assert refs.Keys == ids.Keys;
    assert refs == ids;
    assert ids.Keys == Members(c.required);
    DistinctSize(c.required);
  }

  lemma FollowsPending(e: Reevaluation, k: nat)
    requires e.Follows() && k < |e.pending|
    ensures k < |e.contract.criteria| && GoodPending(e.env, e.intent, e.contract, e.contract.criteria[k], e.pending[k])
  {
    PendingOf(e, k);
  }

  function Members(s: seq<EvidenceType>): set<EvidenceType> { set t | t in s }

  predicate Distinct(s: seq<EvidenceType>) {
    forall i, j :: 0 <= i < j < |s| ==> s[i] != s[j]
  }

  lemma {:induction false} DistinctSize(s: seq<EvidenceType>)
    ensures |Members(s)| <= |s|
    ensures |Members(s)| == |s| <==> Distinct(s)
  {
    if s != [] {
      DistinctSize(s[1..]);
      assert Members(s) == Members(s[1..]) + {s[0]};
      if s[0] in s[1..] {
        assert Members(s) == Members(s[1..]);
        var j :| 0 <= j < |s| - 1 && s[1..][j] == s[0];
        assert s[0] == s[j + 1];
      } else {
        assert forall i, j :: 1 <= i < j < |s| ==> s[1..][i - 1] == s[i] && s[1..][j - 1] == s[j];
        assert Distinct(s[1..]) ==> Distinct(s);
      }
    }
  }
}
