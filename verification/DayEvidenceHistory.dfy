/** The evidence of a Day over any sequence of evaluations, recorded actions, binds and runs. */
module DayEvidenceHistory {
  import opened Prelude
  import opened DayModels
  import opened EvidenceCompletion
  import opened EvidenceBinding
  import opened BindingProperties
  import opened DayEvidence

  /**
   * `RecordAction`: an action, a repair or a resolver leaves records that are bound to no run.  `BindTo`: the
   * Day's evidence is bound to the run of the snapshot.  `TakeRun`: a start or a resume gives a Day to a run.
   */
  datatype Step =
    | Evaluate(inventory: Inventory)
    | RecordAction(evidence: map<RecordId, EvidenceRecord>)
    | BindTo(intent: RunIntent, at: Time)
    | TakeRun(run: Option<Id>, contract: Option<Contract>)

  /** Known records change at most their compatibility, and new ones are bound to nothing. */
  ghost predicate OnlyRecords(before: map<RecordId, EvidenceRecord>, after: map<RecordId, EvidenceRecord>) {
    && before.Keys <= after.Keys
    && (forall id :: id in before ==> after[id] == before[id].(compatible := after[id].compatible))
    && (forall id :: id in after && id !in before ==> after[id].recordId == id && Unbound(after[id]))
  }

  ghost predicate Follows(env: Env, day: DaySnapshot, s: Step, day': DaySnapshot) {
    match s
    case Evaluate(inventory) =>
      && day.contract.Some? && day'.contract.Some?
      && Evaluates(env, day, day'.(contract := day.contract), day.contract.value, day'.contract.value, inventory)
    case RecordAction(evidence) => OnlyRecords(day.evidence, evidence) && day' == day.(evidence := evidence)
    case BindTo(intent, at) =>
      && day.contract.Some? && day.runId == Some(intent.runId) && day.contract.value.day == intent.selectedDay
      && (var contract := day.contract.value;
          var r := BindUpTo(env, intent, contract, day, |contract.criteria|, at);
          r.AllReady? && |r.pending| == |contract.criteria| && day' == BoundDay(day, contract, r.pending))
    case TakeRun(run, contract) => day' == day.(runId := run, contract := contract)
  }

  datatype History = History(days: seq<DaySnapshot>, steps: seq<Step>)

  ghost predicate StepAt(env: Env, h: History, i: nat) {
    i < |h.steps| && i + 1 < |h.days| && Follows(env, h.days[i], h.steps[i], h.days[i + 1])
  }

  ghost predicate IsHistory(env: Env, h: History) {
    && |h.days| == |h.steps| + 1 && Filed(h.days[0].evidence)
    && forall i: nat :: i < |h.steps| ==> StepAt(env, h, i)
  }

  /** Every record is filed under its own id. */
  ghost predicate Filed(evidence: map<RecordId, EvidenceRecord>) {
    forall id :: id in evidence ==> evidence[id].recordId == id
  }

  /** The Day was evaluated or bound since it was last given to a run. */
  predicate Evaluated(steps: seq<Step>, n: nat)
    requires n <= |steps|
  {
    n > 0 && (match steps[n - 1]
              case Evaluate(_) => true
              case BindTo(_, _) => true
              case RecordAction(_) => Evaluated(steps, n - 1)
              case TakeRun(_, _) => false)
  }

  /** A record of exactly this run and criterion, or of none. */
  predicate OwnRecord(run: Option<Id>, criterion: Id, r: EvidenceRecord) {
    Unbound(r) || (r.runId == run && r.criterionId == Some(criterion))
  }

  ghost predicate Own(day: DaySnapshot) {
    day.contract.Some? ==>
      forall c, t :: c in day.contract.value.criteria && t in c.recordIds ==>
        c.recordIds[t] in day.evidence && OwnRecord(day.runId, c.id, day.evidence[c.recordIds[t]])
  }

  lemma EvaluationIsOwn(env: Env, day: DaySnapshot, s: Step, day': DaySnapshot)
    requires s.Evaluate? && Follows(env, day, s, day') && Filed(day.evidence)
    ensures Filed(day'.evidence) && Own(day')
  {
    hide References, Settled;
    var contract, contract' := day.contract.value, day'.contract.value;
    assert Filed(day'.evidence);
    forall c', t | c' in contract'.criteria && t in c'.recordIds
      ensures c'.recordIds[t] in day'.evidence && OwnRecord(day'.runId, c'.id, day'.evidence[c'.recordIds[t]])
    {
      var k :| 0 <= k < |contract'.criteria| && contract'.criteria[k] == c';
      NeverForeign(env, day'.evidence, day'.runId, contract, s.inventory, contract.criteria[k], c'.recordIds, t);
    }
  }

  lemma RecordingStaysOwn(env: Env, day: DaySnapshot, s: Step, day': DaySnapshot)
    requires s.RecordAction? && Follows(env, day, s, day') && Filed(day.evidence)
    ensures Filed(day'.evidence) && (Own(day) ==> Own(day'))
  {
  }

  lemma BindingIsOwn(env: Env, day: DaySnapshot, s: Step, day': DaySnapshot)
    requires s.BindTo? && Follows(env, day, s, day') && Filed(day.evidence)
    ensures Filed(day'.evidence) && Own(day')
  {
    hide BindUpTo, BoundDay, AllGood, FingerprintOf;
    var contract := day.contract.value;
    var pending := BindUpTo(env, s.intent, contract, day, |contract.criteria|, s.at).pending;
    AcceptedBindCovers(env, s.intent, contract, day, |contract.criteria|, s.at);
    BoundEvidence(day, contract, pending);
    StoredGrows(env, s.intent, contract, day.evidence, pending);
    forall k, t | 0 <= k < |contract.criteria| && t in day'.contract.value.criteria[k].recordIds
      ensures var c := day'.contract.value.criteria[k];
              c.recordIds[t] in day'.evidence && OwnRecord(day'.runId, c.id, day'.evidence[c.recordIds[t]])
    {
      BoundSource(env, s.intent, contract, day, pending, k, t);
      BoundCriterionIds(day, contract, pending, k);
    }
  }

  lemma BoundEvidence(day: DaySnapshot, contract: Contract, pending: seq<Pending>)
    requires |pending| == |contract.criteria|
    ensures var day' := BoundDay(day, contract, pending);
            && day'.evidence == Stored(day.evidence, pending) && day'.runId == day.runId
            && day'.contract.Some? && |day'.contract.value.criteria| == |contract.criteria|
  {
  }

  lemma BoundCriterionIds(day: DaySnapshot, contract: Contract, pending: seq<Pending>, k: nat)
    requires |pending| == |contract.criteria| && k < |pending|
    ensures BoundDay(day, contract, pending).contract.value.criteria[k].recordIds == pending[k].ids
  {
  }

  lemma {:induction false} HistoryStaysFiled(env: Env, h: History, n: nat)
    requires IsHistory(env, h) && n <= |h.steps|
    ensures Filed(h.days[n].evidence) && (Evaluated(h.steps, n) ==> Own(h.days[n]))
  {
    hide Follows, Own, Filed;
    if n > 0 {
      HistoryStaysFiled(env, h, n - 1);
      assert StepAt(env, h, n - 1);
      StepStaysFiled(env, h.days[n - 1], h.steps[n - 1], h.days[n]);
    }
  }

  lemma StepStaysFiled(env: Env, day: DaySnapshot, s: Step, day': DaySnapshot)
    requires Follows(env, day, s, day') && Filed(day.evidence)
    ensures Filed(day'.evidence)
    ensures s.Evaluate? || s.BindTo? || (s.RecordAction? && Own(day)) ==> Own(day')
  {
    hide Evaluates, OnlyRecords, BindUpTo, BoundDay, Own, Filed;
    match s
    case Evaluate(_) => EvaluationIsOwn(env, day, s, day');
    case RecordAction(_) => RecordingStaysOwn(env, day, s, day');
    case BindTo(_, _) => BindingIsOwn(env, day, s, day');
    case TakeRun(_, _) =>
  }

  /**
   * Whatever runs the Day was given to before, and whatever they bound: once it was evaluated or bound for its
   * present run, every record a criterion references is in the store and was bound to exactly this run and this
   * criterion, or to none.
   */
  lemma ReferencesAreOwn(env: Env, h: History, n: nat, c: Criterion, t: EvidenceType)
    requires IsHistory(env, h) && n <= |h.steps| && Evaluated(h.steps, n)
    requires h.days[n].contract.Some? && c in h.days[n].contract.value.criteria && t in c.recordIds
    ensures c.recordIds[t] in h.days[n].evidence
    ensures var r := h.days[n].evidence[c.recordIds[t]];
            r.recordId == c.recordIds[t] && ((r.runId == None && r.criterionId == None) || (r.runId == h.days[n].runId && r.criterionId == Some(c.id)))
  {
    HistoryStaysFiled(env, h, n);
  }
}
