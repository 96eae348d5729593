/** What every step of the run controllers keeps, and the only way a run becomes COMPLETE. */
module RunProperties {
  import opened Prelude
  import opened DayModels
  import opened RunStore
  import opened EvidenceCompletion
  import opened EvidenceBinding
  import opened RunWorld
  import RR = RepairRecovery
  import RC = ReviewControl
  import RN = ReviewContinuation
  import HD = HumanDecision

  // ----- the store is never asked for anything it refuses -----

  ghost predicate WorldOk(w: World) {
    && StoreOk(w.store)
    && forall run :: run in w.repairs ==> RepairBound(w, run)
  }

  ghost predicate RepairBound(w: World, run: Id)
    requires run in w.repairs
  {
    && run in w.store.files
    && w.repairs[run].record.intent == w.store.files[run].intent
    && w.repairs[run].record.SameIdentity()
  }

  lemma StoredIdentity(s: Store, run: Id)
    requires StoreOk(s) && run in s.files
    ensures s.files[run].SameIdentity() && s.files[run].intent.runId == run
  {
    var chain := s.Chain(run);
    assert chain[|chain| - 1] == s.files[run];
  }

  /** A record built on the stored one, one step later, is always accepted. */
  lemma NextVersionAccepted(s: Store, run: Id, record: RunRecord)
    requires StoreOk(s) && run in s.files && record.SameIdentity() && record.intent == s.files[run].intent
    requires s.files[run].control.updatedAt < record.control.updatedAt
    requires record.control.history == s.files[run].control.history + [s.files[run].control.state]
    ensures CheckUpdate(s, record, s.files[run].control.updatedAt) == Updated
    ensures var s' := UpdateSpec(s, record, s.files[run].control.updatedAt);
            && StoreOk(s') && s'.files == s.files[run := record]
            && forall r :: r in s.files ==> Extends(s, s', r)
  {
    StoredIdentity(s, run);
    UpdateAccepted(s, record, s.files[run].control.updatedAt);
    UpdateKeepsStore(s, record, s.files[run].control.updatedAt);
  }

  /** What one step may do to the store: keep it, add a first version, or add the next version of one run. */
  ghost predicate StoreGrows(before: Store, after: Store) {
    && StoreOk(after)
    && (forall run :: run in before.files ==> run in after.files && Extends(before, after, run))
  }

  ghost predicate Extends(before: Store, after: Store, run: Id)
    requires run in before.files && run in after.files
  {
    before.Chain(run) <= after.Chain(run) && after.files[run].intent == before.files[run].intent
  }

  ghost predicate Only(before: Store, after: Store, run: Id, state: DayState) {
    && run in before.files && run in after.files && after.files == before.files[run := after.files[run]]
    && after.files[run].control.state == state
  }

  lemma StoreStays(s: Store)
    requires StoreOk(s)
    ensures StoreGrows(s, s)
  {
  }

  lemma AdvanceStore(s: Store, run: Id, state: DayState, blocker: Option<Blocker>, now: Time)
    requires StoreOk(s) && run in s.files
    ensures var next := Advanced(s.files[run], state, blocker, now);
            var expected := s.files[run].control.updatedAt;
            && CheckUpdate(s, next, expected) == Updated
            && StoreGrows(s, UpdateSpec(s, next, expected)) && Only(s, UpdateSpec(s, next, expected), run, state)
  {
    StoredIdentity(s, run);
    NextVersionAccepted(s, run, Advanced(s.files[run], state, blocker, now));
  }

  lemma AdjustedStore(s: Store, run: Id, controller: RunRecord, now: Time)
    requires StoreOk(s) && run in s.files && controller.SameIdentity() && controller.intent == s.files[run].intent
    ensures var next := Adjusted(controller, s.files[run], now);
            var expected := s.files[run].control.updatedAt;
            && next.SameIdentity() && next.intent == controller.intent
            && CheckUpdate(s, next, expected) == Updated
            && StoreGrows(s, UpdateSpec(s, next, expected)) && Only(s, UpdateSpec(s, next, expected), run, controller.control.state)
            && UpdateSpec(s, next, expected).files[run] == next
  {
    StoredIdentity(s, run);
    NextVersionAccepted(s, run, Adjusted(controller, s.files[run], now));
  }

  lemma PersistStep(w: World, run: Id, after: RR.Repair, now: Time, status: RR.Status)
    requires WorldOk(w) && run in w.repairs
    requires after.record.intent == w.repairs[run].record.intent && after.record.SameIdentity()
    ensures RepairAdvances(w, Persist(w, run, w.repairs[run], after, now, status).0,
                           Persist(w, run, w.repairs[run], after, now, status).1, run, after.record.control.state)
    ensures Persist(w, run, w.repairs[run], after, now, status).0.store != w.store ==>
              after.record.control != w.repairs[run].record.control
  {
    hide CheckUpdate, UpdateSpec, StoreOk, StoreGrows, Only, Adjusted;
    assert RepairBound(w, run);
    StoredIdentity(w.store, run);
    StoreStays(w.store);
    if after.record.control != w.repairs[run].record.control {
      AdjustedStore(w.store, run, after.record, now);
    }
  }

  lemma RepairsStayBound(w: World, w': World, run: Id)
    requires WorldOk(w) && StoreGrows(w.store, w'.store)
    requires w'.repairs.Keys == w.repairs.Keys + {run} && RepairBound(w', run)
    requires forall r :: r in w.repairs && r != run ==> w'.repairs[r] == w.repairs[r]
    ensures WorldOk(w')
  {
    forall r | r in w'.repairs ensures RepairBound(w', r) {
      if r != run { assert RepairBound(w, r); }
    }
  }

  lemma SameRepairs(w: World, w': World)
    requires WorldOk(w) && StoreGrows(w.store, w'.store) && w'.repairs == w.repairs
    ensures WorldOk(w')
  {
    forall r | r in w'.repairs ensures RepairBound(w', r) { assert RepairBound(w, r); }
  }

  /** What a controller can have changed in its own record. */
  lemma AttemptMoves(before: RR.Repair, attempt: RR.Attempt, at: Time)
    requires before.record.SameIdentity()
    ensures var after := RR.AttemptRecorded(before, attempt, at).0;
            && after.record.intent == before.record.intent && after.record.SameIdentity()
            && (after.record.control != before.record.control ==>
                  after.record.control.state in {REVALIDATING, HUMAN_ACTION_REQUIRED, DIAGNOSING_GAP})
  {
  }

  lemma ReviewMoves(before: RR.Repair, review: RR.Review, at: Time)
    requires before.record.SameIdentity()
    ensures var after := RR.ReviewApplied(before, review, at).0;
            && after.record.intent == before.record.intent && after.record.SameIdentity()
            && (after.record.control != before.record.control ==> after.record.control.state == PREFLIGHT)
  {
  }

  predicate IsRepair(s: Step) { s.BeginRepairStep? || s.RecordRepairStep? || s.ReviewRepairStep? }

  /** The states each kind of step can write into a run record. */
  predicate Writes(w: World, s: Step, run: Id, state: DayState) {
    match s
    case GoStep(_, _, _) => false
    case DayWorks(_) => false
    case ProjectStep(r, _) => run == r && state == w.day.state && r in w.store.files && ProjectReason(w, w.store.files[r]) == None
    case EvaluateStep(_, _, _, _) => false
    case BindStep(_, _) => false
    case BeginRepairStep(_, _) => false
    case RecordRepairStep(r, _, _, _) => run == r && state in {REVALIDATING, HUMAN_ACTION_REQUIRED, DIAGNOSING_GAP}
    case ReviewRepairStep(r, _, _, _) => run == r && state == PREFLIGHT
    case RequestReviewStep(r, _, _, _) => run == r && state == HUMAN_ACTION_REQUIRED
    case RespondReviewStep(r, _, _, _, _) => run == r && state == PREFLIGHT
    case BindHumanStep(r, _, _) => run == r && state == HUMAN_ACTION_REQUIRED
    case HumanStep(r, _, _) => run == r && state == PREFLIGHT
  }

  ghost predicate StepChanges(w: World, s: Step, w': World) {
    && (forall run :: run in w.store.files ==>
          run in w'.store.files && (w'.store.files[run] == w.store.files[run] || Writes(w, s, run, w'.store.files[run].control.state)))
    && (forall run :: run in w'.store.files && run !in w.store.files ==>
          s.GoStep? && w'.store.files[run].control.state in {PREFLIGHT, HUMAN_ACTION_REQUIRED, EXTERNAL_ACTION_REQUIRED})
  }

  ghost predicate StepOk(w: World, s: Step, w': World, r: Reply) {
    WorldOk(w') && StoreGrows(w.store, w'.store) && !r.StoreRefused? && StepChanges(w, s, w')
  }

  ghost predicate Advances(w: World, w': World, r: Reply, run: Id, state: DayState) {
    && w'.repairs == w.repairs && !r.StoreRefused? && StoreGrows(w.store, w'.store)
    && (w'.store == w.store || Only(w.store, w'.store, run, state))
  }

  lemma AdvancesOk(w: World, s: Step, w': World, r: Reply, run: Id, state: DayState)
    requires WorldOk(w) && Advances(w, w', r, run, state) && Writes(w, s, run, state)
    ensures StepOk(w, s, w', r)
  {
    hide StoreOk, Extends, RepairBound, Writes;
    SameRepairs(w, w');
  }

  lemma SameStoreOk(w: World, s: Step, w': World, r: Reply)
    requires WorldOk(w) && w'.store == w.store && w'.repairs == w.repairs && !r.StoreRefused?
    ensures StepOk(w, s, w', r)
  {
    SameRepairs(w, w');
  }

  lemma ProjectStepOk(w: World, run: Id, now: Time)
    requires StoreOk(w.store)
    ensures Advances(w, Project(w, run, now).0, Project(w, run, now).1, run, w.day.state)
  {
    hide CheckUpdate, UpdateSpec, StoreOk, StoreGrows, Only, Advanced, ProjectReason;
    StoreStays(w.store);
    if run in w.store.files {
      AdvanceStore(w.store, run, w.day.state, if w.day.authorityBlocker.Some? then w.day.authorityBlocker else w.day.stopReason, now);
    }
  }

  lemma RequestStepOk(w: World, run: Id, report: Id, at: Time, now: Time)
    requires StoreOk(w.store)
    ensures Advances(w, RequestReview(w, run, report, at, now).0, RequestReview(w, run, report, at, now).1, run, HUMAN_ACTION_REQUIRED)
  {
    hide CheckUpdate, UpdateSpec, StoreOk, StoreGrows, Only, Advanced, RC.Sent, IsCurrent, ReviewOf;
    StoreStays(w.store);
    if run in w.store.files {
      AdvanceStore(w.store, run, HUMAN_ACTION_REQUIRED, Some(ReviewResponseRequired), now);
      if !(report in w.reportOwners && w.reportOwners[report] != run) {
        var sent := RC.Sent(ReviewOf(w, run), report, at);
        if sent.1 == RC.Accepted {
        }
      }
    }
  }

  lemma RespondStepOk(w: World, run: Id, response: RC.Response, at: Time, effect: Effect, now: Time)
    requires StoreOk(w.store)
    ensures Advances(w, RespondReview(w, run, response, at, effect, now).0, RespondReview(w, run, response, at, effect, now).1, run, PREFLIGHT)
  {
    hide CheckUpdate, UpdateSpec, StoreOk, StoreGrows, Only, Advanced, ContinuationOf, RC.Received, RC.Applied, RC.Verified;
    StoreStays(w.store);
    if run in w.store.files { AdvanceStore(w.store, run, PREFLIGHT, None, now); }
  }

  lemma BindHumanStepOk(w: World, run: Id, request: HD.Request, now: Time)
    requires StoreOk(w.store)
    ensures Advances(w, BindHuman(w, run, request, now).0, BindHuman(w, run, request, now).1, run, HUMAN_ACTION_REQUIRED)
  {
    hide CheckUpdate, UpdateSpec, StoreOk, StoreGrows, Only, Advanced;
    StoreStays(w.store);
    if run in w.store.files { AdvanceStore(w.store, run, HUMAN_ACTION_REQUIRED, Some(HumanDecisionRequired), now); }
  }

  lemma HumanStepOk(w: World, run: Id, event: HD.Event, now: Time)
    requires StoreOk(w.store)
    ensures Advances(w, Human(w, run, event, now).0, Human(w, run, event, now).1, run, PREFLIGHT)
  {
    hide CheckUpdate, UpdateSpec, StoreOk, StoreGrows, Only, Advanced, HD.After, HD.OutcomeOf;
    StoreStays(w.store);
    if run in w.store.files { AdvanceStore(w.store, run, PREFLIGHT, None, now); }
  }

  /** These steps touch only the Day snapshot. */
  lemma DayStep(env: Env, w: World, s: Step)
    requires s.DayWorks? || s.EvaluateStep? || s.BindStep?
    ensures var (w', r) := After(env, w, s); w' == w.(day := w'.day) && !r.StoreRefused?
  {
    hide BindUpTo, EvaluationOf, DayReason, IsCurrent;
  }

  lemma OtherStepOk(env: Env, w: World, s: Step)
    requires WorldOk(w) && !IsRepair(s) && !s.GoStep?
    ensures StepOk(w, s, After(env, w, s).0, After(env, w, s).1)
    ensures After(env, w, s).0.repairs == w.repairs
  {
    hide CheckUpdate, UpdateSpec, StoreOk, Project, RequestReview, RespondReview, BindHuman, Human, Bind, Evaluate, StepOk, StoreGrows;
    var (w', r) := After(env, w, s);
    match s
    case DayWorks(_) => DayStep(env, w, s); SameStoreOk(w, s, w', r);
    case EvaluateStep(_, _, _, _) => DayStep(env, w, s); SameStoreOk(w, s, w', r);
    case BindStep(_, _) => DayStep(env, w, s); SameStoreOk(w, s, w', r);
    case ProjectStep(run, now) =>
      ProjectStepOk(w, run, now);
      if run in w.store.files && ProjectReason(w, w.store.files[run]) == None {
        AdvancesOk(w, s, w', r, run, w.day.state);
      } else {
        ProjectRefused(w, run, now);
        SameStoreOk(w, s, w', r);
      }
    case RequestReviewStep(run, report, at, now) =>
      RequestStepOk(w, run, report, at, now);
      AdvancesOk(w, s, w', r, run, HUMAN_ACTION_REQUIRED);
    case RespondReviewStep(run, response, at, effect, now) =>
      RespondStepOk(w, run, response, at, effect, now);
      AdvancesOk(w, s, w', r, run, PREFLIGHT);
    case BindHumanStep(run, request, now) =>
      BindHumanStepOk(w, run, request, now);
      AdvancesOk(w, s, w', r, run, HUMAN_ACTION_REQUIRED);
    case HumanStep(run, event, now) =>
      HumanStepOk(w, run, event, now);
      AdvancesOk(w, s, w', r, run, PREFLIGHT);
  }

  lemma ProjectRefused(w: World, run: Id, now: Time)
    requires !(run in w.store.files && ProjectReason(w, w.store.files[run]) == None)
    ensures Project(w, run, now).0 == w && !Project(w, run, now).1.StoreRefused? && Project(w, run, now).1 != Accepted
  {
  }

  ghost predicate RepairAdvances(w: World, w': World, r: Reply, run: Id, state: DayState) {
    && !r.StoreRefused? && StoreGrows(w.store, w'.store)
    && run in w'.repairs && RepairBound(w', run) && w'.repairs == w.repairs[run := w'.repairs[run]]
    && (w'.store == w.store || Only(w.store, w'.store, run, state))
  }

  lemma RepairAdvancesOk(w: World, s: Step, w': World, r: Reply, run: Id, state: DayState)
    requires WorldOk(w) && RepairAdvances(w, w', r, run, state) && (w'.store == w.store || Writes(w, s, run, state))
    ensures StepOk(w, s, w', r)
  {
    hide StoreOk, Extends, RepairBound, Writes;
    RepairsStayBound(w, w', run);
  }

  lemma BeginStepOk(w: World, run: Id, allowed: set<Id>)
    requires WorldOk(w) && run in w.store.files
    ensures var (w', r) := BeginRepair(w, run, allowed); RepairAdvances(w, w', r, run, PREFLIGHT) && w'.store == w.store
  {
    StoredIdentity(w.store, run);
  }

  lemma RecordStepOk(w: World, run: Id, attempt: RR.Attempt, at: Time, now: Time)
    requires WorldOk(w) && run in w.repairs
    ensures var (w', r) := RecordRepair(w, run, attempt, at, now);
            exists state :: state in {REVALIDATING, HUMAN_ACTION_REQUIRED, DIAGNOSING_GAP, w.repairs[run].record.control.state}
                            && RepairAdvances(w, w', r, run, state)
                            && (w'.store == w.store || state in {REVALIDATING, HUMAN_ACTION_REQUIRED, DIAGNOSING_GAP})
  {
    hide StoreOk, StoreGrows, Persist, RR.AttemptRecorded;
    assert RepairBound(w, run);
    AttemptMoves(w.repairs[run], attempt, at);
    var (after, status) := RR.AttemptRecorded(w.repairs[run], attempt, at);
    PersistStep(w, run, after, now, status);
    assert RepairAdvances(w, RecordRepair(w, run, attempt, at, now).0, RecordRepair(w, run, attempt, at, now).1, run, after.record.control.state);
  }

  lemma ReviewStepOk(w: World, run: Id, review: RR.Review, at: Time, now: Time)
    requires WorldOk(w) && run in w.repairs
    ensures var (w', r) := ReviewRepair(w, run, review, at, now); RepairAdvances(w, w', r, run, PREFLIGHT)
  {
    hide StoreOk, StoreGrows, Persist, RR.ReviewApplied;
    assert RepairBound(w, run);
    ReviewMoves(w.repairs[run], review, at);
    var (after, status) := RR.ReviewApplied(w.repairs[run], review, at);
    PersistStep(w, run, after, now, status);
  }

  lemma RepairStepOk(env: Env, w: World, s: Step)
    requires WorldOk(w) && IsRepair(s)
    ensures StepOk(w, s, After(env, w, s).0, After(env, w, s).1)
  {
    hide StoreOk, StoreGrows, RepairAdvances, StepOk, Persist, RR.AttemptRecorded, RR.ReviewApplied;
    var (w', r) := After(env, w, s);
    match s
    case BeginRepairStep(run, allowed) =>
      if run in w.store.files {
        BeginStepOk(w, run, allowed);
        RepairAdvancesOk(w, s, w', r, run, PREFLIGHT);
      } else {
        SameStoreOk(w, s, w', r);
      }
    case RecordRepairStep(run, attempt, at, now) =>
      if run in w.repairs {
        RecordStepOk(w, run, attempt, at, now);
        var state :| RepairAdvances(w, w', r, run, state)
                     && (w'.store == w.store || state in {REVALIDATING, HUMAN_ACTION_REQUIRED, DIAGNOSING_GAP});
        RepairAdvancesOk(w, s, w', r, run, state);
      } else {
        SameStoreOk(w, s, w', r);
      }
    case ReviewRepairStep(run, review, at, now) =>
      if run in w.repairs {
        ReviewStepOk(w, run, review, at, now);
        RepairAdvancesOk(w, s, w', r, run, PREFLIGHT);
      } else {
        SameStoreOk(w, s, w', r);
      }
  }

  lemma CreateGrows(s: Store, record: RunRecord)
    requires StoreOk(s) && record.control.history == []
    ensures StoreGrows(s, CreateSpec(s, record))
    ensures forall run :: run in s.files ==> CreateSpec(s, record).files[run] == s.files[run]
    ensures forall run :: run in CreateSpec(s, record).files && run !in s.files ==> CreateSpec(s, record).files[run] == record
  {
    hide StoreOk, VersionChain;
    CreateKeepsStore(s, record);
    var s' := CreateSpec(s, record);
    forall run | run in s.files ensures run in s'.files && Extends(s, s', run) {
      assert s.Chain(run) == s'.Chain(run);
    }
  }

  lemma GoStepOk(env: Env, w: World, s: Step)
    requires WorldOk(w) && s.GoStep?
    ensures StepOk(w, s, After(env, w, s).0, After(env, w, s).1)
  {
    hide StoreOk, StoreGrows, CreateSpec, Busy;
    if Busy(w.store) {
      SameStoreOk(w, s, w, Accepted);
    } else {
      CreateGrows(w.store, AdmittedRecord(s.intent, s.admission, s.now));
      SameRepairs(w, After(env, w, s).0);
      StoreGrowsKeys(w.store, After(env, w, s).0.store);
    }
  }

  lemma StoreGrowsKeys(before: Store, after: Store)
    requires StoreGrows(before, after)
    ensures before.files.Keys <= after.files.Keys && StoreOk(after)
  {
  }

  /** No step is ever refused by the store, and every step only appends versions. */
  lemma StepKeepsWorld(env: Env, w: World, s: Step)
    requires WorldOk(w)
    ensures StepOk(w, s, After(env, w, s).0, After(env, w, s).1)
  {
    hide StepOk, WorldOk, After;
    if s.GoStep? { GoStepOk(env, w, s); }
    else if IsRepair(s) { RepairStepOk(env, w, s); }
    else { OtherStepOk(env, w, s); }
  }
}
