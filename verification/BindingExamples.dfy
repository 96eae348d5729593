/** Two snapshots whose bind is accepted and whose verification is then refused. */
module BindingExamples {
  import opened Prelude
  import opened DayModels
  import opened RunStore
  import opened EvidenceCompletion
  import opened EvidenceBinding
  import opened BindingProperties
  import opened RunWorld
  import opened RunProperties
  import opened SettlementProperties

  function LegacyRecord(project: Id, t: EvidenceType): EvidenceRecord {
    EvidenceRecord(LegacyId(project, 1, 0, t, 0, 0), None, None, project, 1, 0, t, 0, 0, 0, 0, true, true, true, 0, map[],
                   Provenance(0, 0, 0, 0), 0)
  }

  function LegacyIds(project: Id): map<EvidenceType, RecordId> {
    map[0 := LegacyRecord(project, 0).recordId, 1 := LegacyRecord(project, 1).recordId]
  }

  function ExampleEnv(project: Id): Env { Env(project, _ => 0, (_, _, _) => true) }

  /** One run on Day 1 whose snapshot holds an unbound record of type 0 and one of type 1. */
  function ExampleWorld(project: Id, criteria: seq<Criterion>): World {
    var contract := Contract(1, 0, 0, criteria, [], []);
    var intent := RunIntent(0, 1, 0, FingerprintOf(contract), 0, 0, 0, RunLimits(1, 1, 0));
    var day := DaySnapshot(Some(0), Some(1), COMPLETE, Some(contract),
                           map[LegacyRecord(project, 0).recordId := LegacyRecord(project, 0),
                               LegacyRecord(project, 1).recordId := LegacyRecord(project, 1)], None, None);
    World(Store(map[0 := AdmittedRecord(intent, ADMISSIBLE, 0)], map[]), day, map[], map[], map[], map[], map[], map[])
  }

  lemma ExampleStore(project: Id, criteria: seq<Criterion>)
    ensures var w := ExampleWorld(project, criteria);
            StoreOk(w.store) && IsCurrent(w.store, 0) && CurrentDayReason(w, w.store.files[0]) == None
  {
    hide FingerprintOf;
    var w := ExampleWorld(project, criteria);
    SingleVersionChain(w.store.files[0]);
    assert w.store.Chain(0) == [w.store.files[0]];
  }

  lemma ExampleCriterionBinds(project: Id, criteria: seq<Criterion>, k: nat)
    requires k < |criteria| && criteria[k].recordIds == LegacyIds(project)
    requires forall t :: t in criteria[k].required ==> t == 0 || t == 1
    requires FirstCriterion(criteria, criteria[k].id).Some? && CoversLooked(criteria[k], FirstCriterion(criteria, criteria[k].id).value)
    ensures var w := ExampleWorld(project, criteria);
            BindCriterion(ExampleEnv(project), w.store.files[0].intent, w.day.contract.value, w.day, criteria[k], 1).Ready?
  {
    hide FingerprintOf, BindCriterion;
    var w := ExampleWorld(project, criteria);
    FirstHasId(criteria, k);
    CriterionBinds(ExampleEnv(project), w.store.files[0].intent, w.day.contract.value, w.day, criteria[k],
                   FirstCriterion(criteria, criteria[k].id).value, 1);
  }

  /** Every criterion covers what is looked up for it with the two records there are. */
  predicate Bindable(project: Id, criteria: seq<Criterion>) {
    forall k :: 0 <= k < |criteria| ==>
      && criteria[k].recordIds == LegacyIds(project)
      && (forall t :: t in criteria[k].required ==> t == 0 || t == 1)
      && FirstCriterion(criteria, criteria[k].id).Some?
      && CoversLooked(criteria[k], FirstCriterion(criteria, criteria[k].id).value)
  }

  lemma {:induction false} ExampleReady(project: Id, criteria: seq<Criterion>, n: nat)
    requires Bindable(project, criteria) && n <= |criteria|
    ensures var w := ExampleWorld(project, criteria);
            BindUpTo(ExampleEnv(project), w.store.files[0].intent, w.day.contract.value, w.day, n, 1).AllReady?
  {
    hide FingerprintOf, BindCriterion;
    if n > 0 {
      ExampleReady(project, criteria, n - 1);
      ExampleCriterionBinds(project, criteria, n - 1);
    }
  }

  lemma ExampleBinds(project: Id, criteria: seq<Criterion>)
    requires Bindable(project, criteria)
    ensures Bind(ExampleEnv(project), ExampleWorld(project, criteria), 0, 1).1 == Accepted
  {
    hide FingerprintOf, BindUpTo, IsCurrent, CurrentDayReason, StoreOk, Bindable;
    ExampleStore(project, criteria);
    ExampleReady(project, criteria, |criteria|);
  }

  /** For any project but the adapter's, a bind is accepted once: neither a verification nor a second bind follows it. */
  lemma ForeignProjectBindsOnce(project: Id)
    requires project != ADAPTER_PROJECT
    ensures var c := Criterion(0, 0, [0], false, LegacyIds(project));
            var env, w := ExampleEnv(project), ExampleWorld(project, [c]);
            && Bind(env, w, 0, 1).1 == Accepted
            && Verify(env, Bind(env, w, 0, 1).0, 0, 2) != Accepted
            && Bind(env, Bind(env, w, 0, 1).0, 0, 2).1 != Accepted
  {
    hide FingerprintOf, BindCriterion, IsCurrent, Bind, Verify, StoreOk;
    var c := Criterion(0, 0, [0], false, LegacyIds(project));
    ExampleBinds(project, [c]);
    ExampleStore(project, [c]);
    BindRoundTrip(ExampleEnv(project), ExampleWorld(project, [c]), 0, 1, 2);
  }

  /** Two criteria of one id: the bind is accepted although the second criterion keeps a type without a record. */
  lemma DuplicateCriterionBindsOnce()
    ensures var p := ADAPTER_PROJECT;
            var criteria := [Criterion(0, 0, [0], false, LegacyIds(p)), Criterion(0, 0, [0, 1], false, LegacyIds(p))];
            var env, w := ExampleEnv(p), ExampleWorld(p, criteria);
            && Bind(env, w, 0, 1).1 == Accepted
            && Verify(env, Bind(env, w, 0, 1).0, 0, 2) != Accepted
  {
    hide FingerprintOf, BindCriterion, IsCurrent, Bind, Verify, StoreOk;
    var p := ADAPTER_PROJECT;
    var criteria := [Criterion(0, 0, [0], false, LegacyIds(p)), Criterion(0, 0, [0, 1], false, LegacyIds(p))];
    ExampleBinds(p, criteria);
    ExampleStore(p, criteria);
    BindRoundTrip(ExampleEnv(p), ExampleWorld(p, criteria), 0, 1, 2);
    assert 1 in criteria[1].required && !Looked(ExampleWorld(p, criteria).day.contract.value, 0, 1);
    assert !NoneHidden(ExampleWorld(p, criteria).day.contract.value, criteria[1]);
  }
}
