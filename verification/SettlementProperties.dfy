/** Settling is exactly-once: what a settlement leaves behind, what may be retried, and when it replays. */
module SettlementProperties {
  import opened Prelude
  import opened DayModels
  import opened RunStore
  import opened EvidenceCompletion
  import opened EvidenceBinding
  import opened BindingProperties
  import opened RunWorld
  import opened RunProperties
  import opened RunProduct
  import opened TerminalTelemetry
  import opened TelemetryProperties
  import RC = ReviewControl

  /** The condition under which bound evidence stays usable; it depends on the configuration alone. */
  ghost predicate Rebindable(env: Env, contract: Contract) {
    env.project == ADAPTER_PROJECT && NothingHidden(contract)
  }

  ghost predicate RebindableAt(env: Env, contract: Contract, k: nat) {
    env.project == ADAPTER_PROJECT && (k < |contract.criteria| ==> NoneHidden(contract, contract.criteria[k]))
  }

  // ----- binding -----

  lemma {:induction false} VerifyAll(env: Env, intent: RunIntent, contract: Contract, day: DaySnapshot, pending: seq<Pending>, i: nat, at: Time)
    requires AllGood(env, intent, contract, pending) && |pending| == |contract.criteria| && i <= |pending|
    requires intent.selectedDay == contract.day
    ensures var day' := BoundDay(day, contract, pending);
            VerifyReason(env, intent, day'.contract.value, day', i, at) == None
            <==> forall k :: i <= k < |pending| ==> RebindableAt(env, contract, k)
    decreases |pending| - i
  {
    hide AllGood, BoundDay, VerifyCriterionReason;
    BoundDayContract(day, contract, pending);
    if i < |pending| {
      BoundCriterionVerifies(env, intent, contract, day, pending, i, at);
      VerifyAll(env, intent, contract, day, pending, i + 1, at);
      assert RebindableAt(env, contract, i) <==> env.project == ADAPTER_PROJECT && NoneHidden(contract, contract.criteria[i]);
    }
  }

  lemma BoundDayContract(day: DaySnapshot, contract: Contract, pending: seq<Pending>)
    requires |pending| == |contract.criteria|
    ensures BoundDay(day, contract, pending).contract.Some?
    ensures |BoundDay(day, contract, pending).contract.value.criteria| == |contract.criteria|
  {
  }

  lemma {:induction false} BindAllAgain(env: Env, intent: RunIntent, contract: Contract, day: DaySnapshot, pending: seq<Pending>, n: nat, at: Time)
    requires AllGood(env, intent, contract, pending) && |pending| == |contract.criteria| && n <= |pending|
    requires intent.selectedDay == contract.day
    ensures var day' := BoundDay(day, contract, pending);
            var r := BindUpTo(env, intent, day'.contract.value, day', n, at);
            && (r.AllReady? <==> forall k :: 0 <= k < n ==> RebindableAt(env, contract, k))
            && (r.AllReady? ==> |r.pending| == n && forall k :: 0 <= k < n ==> r.pending[k].ids == pending[k].ids)
  {
    hide AllGood, BoundDay, BindCriterion;
    BoundDayContract(day, contract, pending);
    if n > 0 {
      BindAllAgain(env, intent, contract, day, pending, n - 1, at);
      BoundCriterionBinds(env, intent, contract, day, pending, n - 1, at);
      assert RebindableAt(env, contract, n - 1) <==> env.project == ADAPTER_PROJECT && NoneHidden(contract, contract.criteria[n - 1]);
    }
  }

  /** The pending records of an accepted bind. */
  lemma AcceptedBind(env: Env, w: World, run: Id, at: Time) returns (pending: seq<Pending>)
    requires StoreOk(w.store) && Bind(env, w, run, at).1 == Accepted
    ensures run in w.store.files && IsCurrent(w.store, run) && w.day.runId == Some(run) && w.day.contract.Some?
    ensures var intent, contract := w.store.files[run].intent, w.day.contract.value;
            && intent.runId == run && contract.day == intent.selectedDay && FingerprintOf(contract) == intent.contractFingerprint
            && |pending| == |contract.criteria| && AllGood(env, intent, contract, pending)
            && Bind(env, w, run, at).0 == w.(day := BoundDay(w.day, contract, pending))
  {
    hide IsCurrent, FingerprintOf, AllGood, BoundDay, StoreOk, BindUpTo;
    StoredIdentity(w.store, run);
    var intent, contract := w.store.files[run].intent, w.day.contract.value;
    AcceptedBindCovers(env, intent, contract, w.day, |contract.criteria|, at);
    pending := BindUpTo(env, intent, contract, w.day, |contract.criteria|, at).pending;
  }

  /** A rejected bind changes nothing at all; an accepted one changes only the Day snapshot. */
  lemma BindIsAllOrNothing(env: Env, w: World, run: Id, at: Time)
    ensures Bind(env, w, run, at).1 != Accepted ==> Bind(env, w, run, at).0 == w
    ensures Bind(env, w, run, at).0 == w.(day := Bind(env, w, run, at).0.day)
  {
    hide IsCurrent, FingerprintOf, BindUpTo;
  }

  /** The identity checks still pass after a bind. */
  lemma StillCurrent(w: World, run: Id, day: DaySnapshot, contract: Contract, pending: seq<Pending>)
    requires run in w.store.files && w.store.files[run].intent.runId == run && w.day.contract == Some(contract)
    requires |pending| == |contract.criteria| && day == BoundDay(w.day, contract, pending)
    requires CurrentDayReason(w, w.store.files[run]) == None
    ensures CurrentDayReason(w.(day := day), w.store.files[run]) == None
    ensures day.contract.Some? && day.runId == w.day.runId && day.selectedDay == w.day.selectedDay && day.state == w.day.state
    ensures FingerprintOf(day.contract.value) == FingerprintOf(contract)
  {
    hide IsCurrent, FingerprintOf, Stored, Settled, Bindings;
    BoundContract(w.day, contract, pending);
    BoundDayKeeps(w.day, contract, pending);
  }

  lemma BoundDayKeeps(day: DaySnapshot, contract: Contract, pending: seq<Pending>)
    requires |pending| == |contract.criteria|
    ensures var day' := BoundDay(day, contract, pending);
            && day'.contract.Some? && day'.contract.value.day == contract.day
            && day'.runId == day.runId && day'.selectedDay == day.selectedDay && day'.state == day.state
  {
  }

  /**
   * The round trip: after an accepted bind, verification accepts and a second bind accepts exactly when the
   * program has the adapter's project and no criterion hides another; the second bind keeps every id.
   */
  lemma BindRoundTrip(env: Env, w: World, run: Id, at: Time, later: Time)
    requires StoreOk(w.store) && Bind(env, w, run, at).1 == Accepted && w.day.contract.value.criteria != []
    ensures var w' := Bind(env, w, run, at).0;
            && (Verify(env, w', run, later) == Accepted <==> Rebindable(env, w.day.contract.value))
            && (Bind(env, w', run, later).1 == Accepted <==> Rebindable(env, w.day.contract.value))
  {
    hide IsCurrent, FingerprintOf, AllGood, BoundDay, StoreOk, BindUpTo, VerifyReason, NoneHidden, CurrentDayReason;
    var pending := AcceptedBind(env, w, run, at);
    var record, contract := w.store.files[run], w.day.contract.value;
    AcceptedBindChecks(env, w, run, at);
    StillCurrent(w, run, Bind(env, w, run, at).0.day, contract, pending);
    VerifyAll(env, record.intent, contract, w.day, pending, 0, later);
    BindAllAgain(env, record.intent, contract, w.day, pending, |pending|, later);
    BoundDayContract(w.day, contract, pending);
    assert Rebindable(env, contract) <==>
           forall k :: 0 <= k < |pending| ==> RebindableAt(env, contract, k)
    by {
      assert !RebindableAt(env, contract, 0) ==> env.project != ADAPTER_PROJECT || !NoneHidden(contract, contract.criteria[0]);
      if forall k :: 0 <= k < |pending| ==> RebindableAt(env, contract, k) {
        assert RebindableAt(env, contract, 0);
        forall k | 0 <= k < |pending| ensures NoneHidden(contract, contract.criteria[k]) { assert RebindableAt(env, contract, k); }
      }
    }
  }

  lemma AcceptedBindChecks(env: Env, w: World, run: Id, at: Time)
    requires Bind(env, w, run, at).1 == Accepted
    ensures run in w.store.files && CurrentDayReason(w, w.store.files[run]) == None
  {
    hide IsCurrent, FingerprintOf, BindUpTo;
  }

  lemma RebindKeepsIds(env: Env, w: World, run: Id, at: Time, later: Time, k: nat)
    requires StoreOk(w.store) && Bind(env, w, run, at).1 == Accepted
    requires Bind(env, Bind(env, w, run, at).0, run, later).1 == Accepted
    requires k < |w.day.contract.value.criteria|
    ensures var once := Bind(env, w, run, at).0.day.contract;
            var twice := Bind(env, Bind(env, w, run, at).0, run, later).0.day.contract;
            && once.Some? && twice.Some? && |once.value.criteria| == |twice.value.criteria| == |w.day.contract.value.criteria|
            && twice.value.criteria[k].recordIds == once.value.criteria[k].recordIds
  {
    hide IsCurrent, FingerprintOf, AllGood, StoreOk, BindUpTo, CurrentDayReason, Stored, SatisfiedIds;
    var pending := AcceptedBind(env, w, run, at);
    var record, contract := w.store.files[run], w.day.contract.value;
    AcceptedBindChecks(env, w, run, at);
    StillCurrent(w, run, Bind(env, w, run, at).0.day, contract, pending);
    BindAllAgain(env, record.intent, contract, w.day, pending, |pending|, later);
    assert BoundDay(w.day, contract, pending).contract.value.criteria[k].recordIds == pending[k].ids;
  }

  lemma BoundIsReady(env: Env, w: World, run: Id, at: Time)
    requires StoreOk(w.store) && Bind(env, w, run, at).1 == Accepted && w.day.contract.value.criteria != []
    ensures CompletionReady(Bind(env, w, run, at).0, w.store.files[run])
  {
    hide IsCurrent, FingerprintOf, StoreOk, BindUpTo, Stored, SatisfiedIds, NoneHidden, Bind, AllGood, Proves;
    var pending := AcceptedBind(env, w, run, at);
    var intent, contract := w.store.files[run].intent, w.day.contract.value;
    BoundContract(w.day, contract, pending);
    var day' := BoundDay(w.day, contract, pending);
    var contract' := day'.contract.value;
    forall k | 0 <= k < |contract'.criteria| ensures contract'.criteria[k].recordIds == pending[k].ids && pending[k].ids != map[] {
      OneGood(env, intent, contract, pending, k);
    }
    assert contract'.criteria[0] in contract'.criteria;
    forall c, t | c in contract'.criteria && t in c.recordIds
      ensures c.recordIds[t] in day'.evidence && day'.evidence[c.recordIds[t]].runId == Some(intent.runId)
              && day'.evidence[c.recordIds[t]].validatorResult
    {
      var k :| 0 <= k < |contract'.criteria| && contract'.criteria[k] == c;
      OneGood(env, intent, contract, pending, k);
      StoredProves(env, intent, contract, w.day.evidence, pending, k, pending[k].ids[t]);
      ProvesRun(env, intent, contract, pending[k].ids[t], day'.evidence[pending[k].ids[t]]);
    }
  }

  lemma OneGood(env: Env, intent: RunIntent, contract: Contract, pending: seq<Pending>, k: nat)
    requires AllGood(env, intent, contract, pending) && k < |pending|
    ensures pending[k].ids != map[] && forall t :: t in pending[k].ids ==> pending[k].ids[t] in pending[k].records
  {
    assert GoodPending(env, intent, contract, contract.criteria[k], pending[k]);
  }

  lemma ProvesRun(env: Env, intent: RunIntent, contract: Contract, id: RecordId, r: EvidenceRecord)
    requires Proves(env, intent, contract, id, r)
    ensures r.runId == Some(intent.runId) && r.validatorResult
  {
  }

  // ----- settling -----

  /** An accepted projection appends one version, with the state of the Day, and keeps which run is current. */
  lemma AcceptedProjection(w: World, run: Id, at: Time)
    requires StoreOk(w.store) && Project(w, run, at).1 == Accepted
    ensures var s' := Project(w, run, at).0.store;
            && run in w.store.files && Project(w, run, at).0 == w.(store := s')
            && IsCurrent(w.store, run) && IsCurrent(s', run)
            && Only(w.store, s', run, w.day.state) && StoreOk(s')
            && s'.files[run].intent == w.store.files[run].intent
            && s'.Chain(run) == w.store.Chain(run) + [s'.files[run]]
  {
    hide CompletionReady, ReviewPending, FingerprintOf, StoreOk, IsCurrent;
    var record := w.store.files[run];
    var blocker := if w.day.authorityBlocker.Some? then w.day.authorityBlocker else w.day.stopReason;
    StoredIdentity(w.store, run);
    AdvanceStore(w.store, run, w.day.state, blocker, at);
    GrowsOk(w.store, UpdateSpec(w.store, Advanced(record, w.day.state, blocker, at), record.control.updatedAt));
    UpdateKeepsCurrent(w.store, Advanced(record, w.day.state, blocker, at), record.control.updatedAt, run);
  }

  lemma GrowsOk(a: Store, b: Store)
    requires StoreGrows(a, b)
    ensures StoreOk(b)
  {
  }

  lemma VerifyDependsOnDay(env: Env, a: World, b: World, run: Id, at: Time)
    requires a.day == b.day && IsCurrent(a.store, run) && IsCurrent(b.store, run) && StoreOk(a.store) && StoreOk(b.store)
    requires run in a.store.files && run in b.store.files && a.store.files[run].intent == b.store.files[run].intent
    ensures Verify(env, a, run, at) == Verify(env, b, run, at)
  {
    hide StoreOk, IsCurrent, FingerprintOf, VerifyReason;
    StoredIdentity(a.store, run);
    StoredIdentity(b.store, run);
  }

  /** The stages an accepted settlement went through. */
  lemma SettledStages(env: Env, p: Product, run: Id, records: seq<TaskRecord>, at: Time)
    requires StoreOk(p.world.store) && Settle(env, p, run, records, at).1.Projected?
    ensures p.world.day.state == COMPLETE && Bind(env, p.world, run, at).1 == Accepted && run in p.world.store.files
    ensures var w1 := Bind(env, p.world, run, at).0;
            var intent := p.world.store.files[run].intent;
            && Project(w1, run, at).1 == Accepted
            && Error(run, records) == None && intent.runId == run
            && (run in p.telemetry ==> p.telemetry[run] == TelemetryFor(intent, records))
            && Settle(env, p, run, records, at).0
                 == Product(Project(w1, run, at).0, p.telemetry[run := TelemetryFor(intent, records)])
  {
    hide StoreOk, IsCurrent, Bind, Project, Verify, Error, Summarises;
    BindKeepsStore(env, p.world, run, at);
    if run in p.world.store.files { StoredIdentity(p.world.store, run); }
    BindAccepts(env, p.world, run, at);
    if run in p.telemetry {
      assert p.telemetry == p.telemetry[run := p.telemetry[run]];
    }
  }

  lemma BindAccepts(env: Env, w: World, run: Id, at: Time)
    ensures Bind(env, w, run, at).1 == Accepted ==> run in w.store.files
  {
    hide IsCurrent, FingerprintOf, BindUpTo;
  }

  lemma BindKeepsStore(env: Env, w: World, run: Id, at: Time)
    ensures Bind(env, w, run, at).0 == w.(day := Bind(env, w, run, at).0.day)
    ensures Bind(env, w, run, at).0.day.state == w.day.state && Bind(env, w, run, at).0.day.runId == w.day.runId
    ensures Bind(env, w, run, at).0.day.selectedDay == w.day.selectedDay
  {
    hide IsCurrent, FingerprintOf, BindUpTo, Stored, Settled, Bindings;
  }

  /**
   * Exactly once.  A settlement that projects COMPLETE appends one version to the run and stores one valid
   * snapshot.  From then on settling the run with the same records, in any order and at any time, changes
   * nothing; it is accepted exactly when the bound evidence is still bindable under this configuration.
   */
  lemma SettlesExactlyOnce(env: Env, p: Product, run: Id, a: seq<TaskRecord>, b: seq<TaskRecord>, at: Time, later: Time)
    requires StoreOk(p.world.store) && Settle(env, p, run, a, at).1.Projected? && multiset(a) == multiset(b)
    requires p.world.day.contract.Some? && p.world.day.contract.value.criteria != []
    ensures var p' := Settle(env, p, run, a, at).0;
            && run in p.world.store.files && run in p'.world.store.files && run in p'.telemetry
            && p'.world.store.files[run].control.state == COMPLETE
            && p'.world.store.Chain(run) == p.world.store.Chain(run) + [p'.world.store.files[run]]
            && p'.telemetry[run].Valid()
            && Settle(env, p', run, b, later).0 == p'
            && (Settle(env, p', run, b, later).1 == AlreadyProjected <==> Rebindable(env, p.world.day.contract.value))
  {
    hide StoreOk, IsCurrent, Bind, Project, Verify, Error, Summarises, RunTelemetry.Valid, Rebindable;
    SettledStages(env, p, run, a, at);
    var w1 := Bind(env, p.world, run, at).0;
    var intent := p.world.store.files[run].intent;
    BindKeepsStore(env, p.world, run, at);
    AcceptedProjection(w1, run, at);
    var p' := Settle(env, p, run, a, at).0;
    AcceptedTelemetryIsValid(intent, a, TelemetryFor(intent, a));
    TelemetryIsDetermined(intent, a, b);
    BindRoundTrip(env, p.world, run, at, later);
    VerifyDependsOnDay(env, w1, p'.world, run, later);
  }

  /** Which snapshot a run has is never changed by settling; at most the settled run gains one. */
  lemma TelemetryIsWrittenOnce(env: Env, p: Product, run: Id, records: seq<TaskRecord>, at: Time)
    ensures var p' := Settle(env, p, run, records, at).0;
            && (forall r :: r in p.telemetry ==> r in p'.telemetry && p'.telemetry[r] == p.telemetry[r])
            && (forall r :: r in p'.telemetry && r != run ==> r in p.telemetry)
  {
    hide IsCurrent, Bind, Project, Verify, Error, Summarises;
  }

  /** A refused settlement leaves every run record as it was; before the projection stage, every snapshot too. */
  lemma RefusedSettlement(env: Env, p: Product, run: Id, records: seq<TaskRecord>, at: Time)
    requires StoreOk(p.world.store) && Settle(env, p, run, records, at).1.Unsettled?
    ensures var (p', r) := Settle(env, p, run, records, at);
            && p'.world == p.world.(day := p'.world.day)
            && (r.stage != PROJECTION ==> p'.telemetry == p.telemetry)
            && (r.stage != PROJECTION && r.stage != TELEMETRY ==> p' == p)
            && (r.stage == TELEMETRY || r.stage == PROJECTION ==>
                  Bind(env, p.world, run, at).1 == Accepted && p'.world == Bind(env, p.world, run, at).0)
  {
    hide StoreOk, IsCurrent, Bind, Project, Verify, Error, Summarises;
    BindKeepsStore(env, p.world, run, at);
    BindIsAllOrNothing(env, p.world, run, at);
    ProjectChanges(Bind(env, p.world, run, at).0, run, at);
  }

  lemma ProjectChanges(w: World, run: Id, at: Time)
    requires StoreOk(w.store)
    ensures Project(w, run, at).1 != Accepted ==> Project(w, run, at).0 == w
  {
    hide StoreOk, IsCurrent, CheckUpdate, UpdateSpec, ProjectReason, Advanced;
    if run in w.store.files {
      AdvanceStore(w.store, run, w.day.state, if w.day.authorityBlocker.Some? then w.day.authorityBlocker else w.day.stopReason, at);
    }
  }

  /** After an accepted bind of a COMPLETE Day, only an open review or a different Day can refuse the projection. */
  lemma ProjectionNeedsOnlyReview(env: Env, w: World, run: Id, at: Time, later: Time)
    requires StoreOk(w.store) && Bind(env, w, run, at).1 == Accepted && w.day.contract.value.criteria != []
    requires w.day.state == COMPLETE
    ensures var w1 := Bind(env, w, run, at).0;
            var r := Project(w1, run, later).1;
            && (r == Accepted <==> w.day.selectedDay == Some(w.store.files[run].intent.selectedDay)
                                   && !ReviewPending(w, w.store.files[run]))
            && (r != Accepted ==> r == Rejected(RequiredReviewUnverified) || r == Rejected(DayIdentity))
  {
    hide StoreOk, IsCurrent, CompletionReady, FingerprintOf, Bind, CheckUpdate, UpdateSpec, Advanced, AllGood, BoundDay;
    BoundIsReady(env, w, run, at);
    BindKeepsStore(env, w, run, at);
    var pending := AcceptedBind(env, w, run, at);
    AcceptedBindChecks(env, w, run, at);
    StillCurrent(w, run, Bind(env, w, run, at).0.day, w.day.contract.value, pending);
    SamePending(w, Bind(env, w, run, at).0, w.store.files[run]);
    AdvanceStore(w.store, run, w.day.state, if w.day.authorityBlocker.Some? then w.day.authorityBlocker else w.day.stopReason, later);
    BlockersKept(w.day, w.day.contract.value, pending);
  }

  lemma BlockersKept(day: DaySnapshot, contract: Contract, pending: seq<Pending>)
    requires |pending| == |contract.criteria|
    ensures var day' := BoundDay(day, contract, pending);
            day'.authorityBlocker == day.authorityBlocker && day'.stopReason == day.stopReason
  {
  }

  lemma SamePending(a: World, b: World, record: RunRecord)
    requires b == a.(day := b.day)
    ensures ReviewPending(a, record) == ReviewPending(b, record)
  {
  }

  lemma BindDependsOnDay(env: Env, a: World, b: World, run: Id, at: Time)
    requires a.day == b.day && IsCurrent(a.store, run) && IsCurrent(b.store, run) && StoreOk(a.store) && StoreOk(b.store)
    requires run in a.store.files && run in b.store.files && a.store.files[run].intent == b.store.files[run].intent
    ensures Bind(env, a, run, at).1 == Bind(env, b, run, at).1
    ensures Bind(env, a, run, at).0.day == Bind(env, b, run, at).0.day
  {
    hide StoreOk, IsCurrent, FingerprintOf, BindUpTo;
    StoredIdentity(a.store, run);
    StoredIdentity(b.store, run);
  }

  /** The same Day and the same snapshots, on a store that may have moved on without completing the run. */
  ghost predicate LaterAttempt(p: Product, q: Product, run: Id) {
    && q.world.day == p.world.day && q.telemetry == p.telemetry && StoreOk(q.world.store)
    && run in p.world.store.files && run in q.world.store.files
    && IsCurrent(q.world.store, run) && q.world.store.files[run].intent == p.world.store.files[run].intent
    && q.world.store.files[run].control.state != COMPLETE
  }

  /**
   * A settlement refused at the projection can be retried with the same records in any order: nothing is
   * recorded a second time, and it settles exactly when the evidence can be bound again, the Day is the
   * selected one and no review is open any more.
   */
  lemma RefusedProjectionCanBeRetried(env: Env, p: Product, q: Product, run: Id, a: seq<TaskRecord>, b: seq<TaskRecord>, at: Time, later: Time)
    requires StoreOk(p.world.store) && Settle(env, p, run, a, at).1.Unsettled? && Settle(env, p, run, a, at).1.stage == PROJECTION
    requires p.world.day.contract.Some? && p.world.day.contract.value.criteria != [] && multiset(a) == multiset(b)
    requires LaterAttempt(Settle(env, p, run, a, at).0, q, run)
    ensures Settle(env, q, run, b, later).0.telemetry == q.telemetry && run in q.telemetry
    ensures Settle(env, q, run, b, later).1 == Projected(true) <==>
              && Rebindable(env, p.world.day.contract.value)
              && q.world.day.selectedDay == Some(q.world.store.files[run].intent.selectedDay)
              && !ReviewPending(q.world, q.world.store.files[run])
  {
    hide StoreOk, IsCurrent, Bind, Project, Verify, Error, Summarises, Rebindable, ReviewPending;
    RefusedSettlement(env, p, run, a, at);
    RefusedAtProjection(env, p, run, a, at);
    var w1 := Bind(env, p.world, run, at).0;
    BindKeepsStore(env, p.world, run, at);
    BindRoundTrip(env, p.world, run, at, later);
    CurrentOfBind(env, p.world, run, at);
    BindDependsOnDay(env, w1, q.world, run, later);
    TelemetryIsDetermined(w1.store.files[run].intent, a, b);
    if Bind(env, q.world, run, later).1 == Accepted {
      BindKeepsStore(env, q.world, run, later);
      BoundCriteriaKept(env, p.world, run, at);
      ProjectionNeedsOnlyReview(env, q.world, run, later, later);
      StoredIdentity(q.world.store, run);
    }
  }

  /** These records can be the run's snapshot: they are accepted, and no other snapshot is stored. */
  ghost predicate Recordable(q: Product, run: Id, intent: RunIntent, records: seq<TaskRecord>) {
    && intent.runId == run && Error(run, records) == None
    && (run in q.telemetry ==> q.telemetry[run] == TelemetryFor(intent, records))
  }

  /**
   * A settlement refused at the telemetry, because its records were not acceptable or disagree with the stored
   * snapshot, has written nothing but the bound Day.  It can be retried with any records, and then settles
   * exactly when the evidence can be bound again, these records can be the run's snapshot, the Day is the
   * selected one and no review is open.
   */
  lemma RefusedTelemetryCanBeRetried(env: Env, p: Product, q: Product, run: Id, a: seq<TaskRecord>, b: seq<TaskRecord>, at: Time, later: Time)
    requires StoreOk(p.world.store) && Settle(env, p, run, a, at).1.Unsettled? && Settle(env, p, run, a, at).1.stage == TELEMETRY
    requires p.world.day.contract.Some? && p.world.day.contract.value.criteria != []
    requires LaterAttempt(Settle(env, p, run, a, at).0, q, run)
    ensures q.telemetry == p.telemetry && run in p.world.store.files && !Recordable(p, run, p.world.store.files[run].intent, a)
    ensures Settle(env, q, run, b, later).1.Projected? <==>
              && Rebindable(env, p.world.day.contract.value)
              && Recordable(q, run, q.world.store.files[run].intent, b)
              && q.world.day.selectedDay == Some(q.world.store.files[run].intent.selectedDay)
              && !ReviewPending(q.world, q.world.store.files[run])
    ensures Settle(env, q, run, b, later).1.Projected? ==>
              Settle(env, q, run, b, later).0.telemetry == q.telemetry[run := TelemetryFor(q.world.store.files[run].intent, b)]
  {
    hide StoreOk, IsCurrent, Bind, Project, Verify, Error, Summarises, Rebindable, ReviewPending;
    RefusedSettlement(env, p, run, a, at);
    RefusedAtTelemetry(env, p, run, a, at);
    var w1 := Bind(env, p.world, run, at).0;
    BindKeepsStore(env, p.world, run, at);
    BindRoundTrip(env, p.world, run, at, later);
    CurrentOfBind(env, p.world, run, at);
    BindDependsOnDay(env, w1, q.world, run, later);
    StoredIdentity(q.world.store, run);
    TelemetryNamesItsRun(q.world.store.files[run].intent, b);
    if Bind(env, q.world, run, later).1 == Accepted {
      BindKeepsStore(env, q.world, run, later);
      BoundCriteriaKept(env, p.world, run, at);
      ProjectionNeedsOnlyReview(env, q.world, run, later, later);
    }
    if Settle(env, q, run, b, later).1.Projected? { SettledStages(env, q, run, b, later); }
  }

  lemma TelemetryNamesItsRun(intent: RunIntent, records: seq<TaskRecord>)
    ensures Error(intent.runId, records) == None ==> TelemetryFor(intent, records).runId == intent.runId
  {
    hide Error;
  }

  lemma RefusedAtTelemetry(env: Env, p: Product, run: Id, records: seq<TaskRecord>, at: Time)
    requires StoreOk(p.world.store) && Settle(env, p, run, records, at).1.Unsettled? && Settle(env, p, run, records, at).1.stage == TELEMETRY
    ensures p.world.day.state == COMPLETE && run in p.world.store.files && p.world.day.runId == Some(run)
    ensures p.world.store.files[run].intent.runId == run && !Recordable(p, run, p.world.store.files[run].intent, records)
  {
    hide StoreOk, IsCurrent, Bind, Project, Verify, Error, Summarises;
    BindKeepsStore(env, p.world, run, at);
    BindAccepts(env, p.world, run, at);
    CurrentOfBind(env, p.world, run, at);
    if run in p.world.store.files { StoredIdentity(p.world.store, run); }
    BoundRun(env, p.world, run, at);
    TelemetryNamesItsRun(p.world.store.files[run].intent, records);
  }

  /** An accepted bind is for the run of the Day. */
  lemma BoundRun(env: Env, w: World, run: Id, at: Time)
    ensures Bind(env, w, run, at).1 == Accepted && StoreOk(w.store) ==> w.day.runId == Some(run)
  {
    hide StoreOk, IsCurrent, FingerprintOf, BindUpTo;
    if Bind(env, w, run, at).1 == Accepted && StoreOk(w.store) { StoredIdentity(w.store, run); }
  }

  lemma CurrentOfBind(env: Env, w: World, run: Id, at: Time)
    requires Bind(env, w, run, at).1 == Accepted
    ensures run in w.store.files && IsCurrent(w.store, w.store.files[run].intent.runId) && StoreOk(w.store) ==> IsCurrent(w.store, run)
    ensures StoreOk(w.store) ==> IsCurrent(w.store, run)
    ensures w.day.runId.Some?
  {
    AcceptedBindChecks(env, w, run, at);
    if StoreOk(w.store) { StoredIdentity(w.store, run); }
    hide StoreOk, IsCurrent, FingerprintOf, BindUpTo;
  }

  lemma BoundCriteriaKept(env: Env, w: World, run: Id, at: Time)
    requires StoreOk(w.store) && Bind(env, w, run, at).1 == Accepted && w.day.contract.value.criteria != []
    ensures Bind(env, w, run, at).0.day.contract.Some? && Bind(env, w, run, at).0.day.contract.value.criteria != []
  {
    hide StoreOk, IsCurrent, FingerprintOf, Bind, AllGood;
    var pending := AcceptedBind(env, w, run, at);
    BoundDayContract(w.day, w.day.contract.value, pending);
  }

  lemma RefusedAtProjection(env: Env, p: Product, run: Id, records: seq<TaskRecord>, at: Time)
    requires StoreOk(p.world.store) && Settle(env, p, run, records, at).1.Unsettled? && Settle(env, p, run, records, at).1.stage == PROJECTION
    ensures p.world.day.state == COMPLETE && run in p.world.store.files && Error(run, records) == None
    ensures p.world.store.files[run].intent.runId == run && p.world.day.runId == Some(run)
    ensures Settle(env, p, run, records, at).0.telemetry == p.telemetry[run := TelemetryFor(p.world.store.files[run].intent, records)]
  {
    hide StoreOk, IsCurrent, Bind, Project, Verify, Error, Summarises;
    BindKeepsStore(env, p.world, run, at);
    BindAccepts(env, p.world, run, at);
    if run in p.world.store.files { StoredIdentity(p.world.store, run); }
    if run in p.telemetry { assert p.telemetry == p.telemetry[run := p.telemetry[run]]; }
    ghost var pending := AcceptedBind(env, p.world, run, at);
  }

  // ----- a Day that ended otherwise -----

  /** The Day in memory is that of the current run: same run, same selected day, same contract. */
  predicate DayOfRun(w: World, run: Id) {
    && run in w.store.files && IsCurrent(w.store, run) && w.day.runId == Some(run)
    && w.day.selectedDay == Some(w.store.files[run].intent.selectedDay)
    && w.day.contract.Some? && FingerprintOf(w.day.contract.value) == w.store.files[run].intent.contractFingerprint
  }

  /** The run has one more version: the Day's state and blocker, and the state it had in its history. */
  predicate TookDayState(before: World, after: World, run: Id)
    requires run in before.store.files && run in after.store.files
  {
    var was, now := before.store.files[run], after.store.files[run];
    && now.intent == was.intent && now.control.state == before.day.state
    && now.control.history == was.control.history + [was.control.state]
    && now.control.blocker == (if before.day.authorityBlocker.Some? then before.day.authorityBlocker else before.day.stopReason)
    && now.control.resumesAtPreflight == now.control.blocker.Some? && now.control.updatedAt > was.control.updatedAt
  }

  /**
   * A Day that is not COMPLETE is projected as it is, unless its run already is: settling is accepted exactly
   * when the Day is that of the current run, and then the run takes over the Day's state and blocker.  The Day
   * and the telemetry stay as they were, and a rejection changes nothing.
   */
  lemma OtherDaysAreProjected(env: Env, p: Product, run: Id, records: seq<TaskRecord>, at: Time)
    requires StoreOk(p.world.store) && p.world.day.state != COMPLETE
    requires IsCurrent(p.world.store, run) && run in p.world.store.files ==> p.world.store.files[run].control.state != COMPLETE
    ensures var (p', r) := Settle(env, p, run, records, at);
            && (r == ProjectionOnly(Accepted) <==> DayOfRun(p.world, run))
            && (DayOfRun(p.world, run) ==>
                  && p' == p.(world := p.world.(store := p'.world.store)) && Only(p.world.store, p'.world.store, run, p.world.day.state)
                  && p'.world.store.Chain(run) == p.world.store.Chain(run) + [p'.world.store.files[run]]
                  && TookDayState(p.world, p'.world, run))
            && (!DayOfRun(p.world, run) ==>
                  p' == p && r.ProjectionOnly? && (r.reply == RunUnknown || r.reply.Rejected?))
  {
    hide StoreOk, IsCurrent, FingerprintOf, CheckUpdate, UpdateSpec, CompletionReady, ReviewPending;
    var w := p.world;
    var blocker := if w.day.authorityBlocker.Some? then w.day.authorityBlocker else w.day.stopReason;
    if IsCurrent(w.store, run) { CurrentIsStored(w.store, run); }
    if run in w.store.files {
      StoredIdentity(w.store, run);
      AdvanceStore(w.store, run, w.day.state, blocker, at);
      if DayOfRun(w, run) {
        AcceptedProjection(w, run, at);
        AcceptedVersion(w.store, Advanced(w.store.files[run], w.day.state, blocker, at), run);
      }
    }
  }

  lemma AcceptedVersion(s: Store, next: RunRecord, run: Id)
    requires run in s.files && next.intent.runId == run && CheckUpdate(s, next, s.files[run].control.updatedAt) == Updated
    ensures var s' := UpdateSpec(s, next, s.files[run].control.updatedAt); run in s'.files && s'.files[run] == next
  {
  }

  // ----- a run that is COMPLETE already, and telemetry by itself -----

  /** The telemetry of these records is the run's, and what is stored is exactly that. */
  ghost predicate SameTelemetry(p: Product, run: Id, records: seq<TaskRecord>)
    requires run in p.world.store.files
  {
    && Error(p.world.store.files[run].intent.runId, records) == None
    && run in p.telemetry && p.telemetry[run] == TelemetryFor(p.world.store.files[run].intent, records)
  }

  /** Settling a COMPLETE run writes nothing, and compares the Day's state, its evidence and its telemetry, in this order. */
  lemma CompleteRunIsCompared(env: Env, p: Product, run: Id, records: seq<TaskRecord>, at: Time)
    requires StoreOk(p.world.store) && IsCurrent(p.world.store, run)
    requires run in p.world.store.files && p.world.store.files[run].control.state == COMPLETE
    ensures var (p', r) := Settle(env, p, run, records, at);
            var verified := Verify(env, p.world, run, at);
            && p' == p
            && (r == AlreadyProjected <==> p.world.day.state == COMPLETE && verified == Accepted && SameTelemetry(p, run, records))
            && (r == Unsettled(STATE_REPLAY, CompletedDayConflict) <==> p.world.day.state != COMPLETE)
            && (r == Unsettled(EVIDENCE_REPLAY, Execution(verified)) <==> p.world.day.state == COMPLETE && verified != Accepted)
            && (p.world.day.state == COMPLETE && verified == Accepted && !SameTelemetry(p, run, records) ==>
                  r == Unsettled(TELEMETRY_REPLAY, if Error(run, records).Some? then TelemetryRefused(Error(run, records).value) else TelemetryConflict))
  {
    hide StoreOk, IsCurrent, Verify, Error, Summarises;
    StoredIdentity(p.world.store, run);
  }

  /** Telemetry is recorded exactly for the current run's own terminal Day, from acceptable records, and never against what is stored. */
  lemma RecordedExactly(p: Product, run: Id, records: seq<TaskRecord>)
    requires StoreOk(p.world.store)
    ensures var (p', r) := Reconcile(p, run, records);
            var may := && IsCurrent(p.world.store, run) && run in p.world.store.files && p.world.day.runId == Some(run)
                       && p.world.day.state in {COMPLETE, HUMAN_ACTION_REQUIRED, EXTERNAL_ACTION_REQUIRED, FAILED_UNRECOVERABLE, FAILED}
                       && Error(run, records) == None;
            && (r == RecordedNew <==> may && run !in p.telemetry)
            && (r == RecordedReplay <==> may && SameTelemetry(p, run, records))
            && p' == (if r == RecordedNew then p.(telemetry := p.telemetry[run := TelemetryFor(p.world.store.files[run].intent, records)]) else p)
  {
    hide StoreOk, IsCurrent, Error, Summarises;
    if IsCurrent(p.world.store, run) {
      CurrentIsStored(p.world.store, run);
      StoredIdentity(p.world.store, run);
      TelemetryNamesItsRun(p.world.store.files[run].intent, records);
    }
  }
}
