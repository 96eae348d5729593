/** What the Day worker diagnoses, what it chooses to do about it, and what it records of what it did. */
module DayLoopDiagnosis {
  import opened Prelude
  import opened DayModels
  import opened DayStateMachine
  import opened DayLoop
  import opened DayLoopProperties
  import opened DayLoopOutcome

  // ----- diagnoses -----

  /** Attempt `k` is the last of this template on these inputs. */
  predicate LastAttempt(attempts: seq<Attempt>, template: Id, input: Fingerprint, k: nat) {
    && k < |attempts| && attempts[k].template == template && attempts[k].input == input
    && forall j :: k < j < |attempts| ==> attempts[j].template != template || attempts[j].input != input
  }

  lemma {:induction false} PreviousIsLast(attempts: seq<Attempt>, template: Option<Id>, input: Fingerprint)
    ensures var a := Previous(attempts, template, input);
            && (a.Some? ==> template.Some? && exists k: nat :: LastAttempt(attempts, template.value, input, k) && attempts[k] == a.value)
            && (a == None ==> forall k :: 0 <= k < |attempts| ==> Some(attempts[k].template) != template || attempts[k].input != input)
  {
    if attempts != [] {
      var n := |attempts| - 1;
      if Some(attempts[n].template) == template && attempts[n].input == input {
        assert LastAttempt(attempts, template.value, input, n);
      } else {
        PreviousIsLast(attempts[..n], template, input);
        if a :| Previous(attempts, template, input) == Some(a) {
          var k: nat :| LastAttempt(attempts[..n], template.value, input, k) && attempts[..n][k] == a;
          assert LastAttempt(attempts, template.value, input, k) by { assert forall j :: k < j < n ==> attempts[j] == attempts[..n][j]; }
        }
      }
    }
  }

  /** What the last attempt on the same inputs says about a gap. */
  function Lesson(a: Attempt): Classification {
    match a.observed
    case None => ENGINEERING_REPAIR
    case Some(c) => (if c == INSUFFICIENT_EVIDENCE then ENGINEERING_REPAIR else c)
  }

  /** The gap's registered strategy, classified by the last attempt on the same inputs if there was one. */
  ghost predicate DiagnosedAs(cfg: Config, attempts: seq<Attempt>, gap: Gap, input: Fingerprint, d: Diagnosis) {
    && gap.evidenceType in cfg.strategies && d.gap == gap && d.input == input && d.strategy == cfg.strategies[gap.evidenceType]
    && d.action.criterion == gap.criterion && d.action.evidenceType == gap.evidenceType && d.action.input == input
    && d.action.strategy == d.strategy.id && d.action.template == TemplateId(d.strategy)
    && (if d.strategy.template.Some? && exists k: nat :: LastAttempt(attempts, d.strategy.template.value.id, input, k)
        then exists k: nat :: LastAttempt(attempts, d.strategy.template.value.id, input, k) && d.classification == Lesson(attempts[k])
        else d.classification == d.strategy.classification)
  }

  /** Every gap is diagnosed, in its order, or some gap has no registered strategy. */
  lemma {:induction false} DiagnosesExactly(cfg: Config, attempts: seq<Attempt>, gaps: seq<Gap>, input: Fingerprint)
    ensures var all := Diagnoses(cfg, attempts, gaps, input);
            && (all.Some? <==> forall k :: 0 <= k < |gaps| ==> gaps[k].evidenceType in cfg.strategies)
            && (all.Some? ==> |all.value| == |gaps| && forall k :: 0 <= k < |gaps| ==> DiagnosedAs(cfg, attempts, gaps[k], input, all.value[k]))
  {
    hide DiagnosisOf, DiagnosedAs;
    if gaps != [] {
      var n := |gaps| - 1;
      DiagnosesExactly(cfg, attempts, gaps[..n], input);
      if gaps[n].evidenceType in cfg.strategies { OneDiagnosis(cfg, attempts, gaps[n], input); }
    }
  }

  lemma OneDiagnosis(cfg: Config, attempts: seq<Attempt>, gap: Gap, input: Fingerprint)
    requires gap.evidenceType in cfg.strategies
    ensures DiagnosedAs(cfg, attempts, gap, input, DiagnosisOf(cfg, attempts, gap, input))
  {
    hide Previous;
    PreviousIsLast(attempts, TemplateId(cfg.strategies[gap.evidenceType]), input);
  }

  // ----- what may be done, and what is done first -----

  /** The one action that may run again on the same inputs: the Day 1 checkpoint, once its paths are approved. */
  lemma RetryExactly(cfg: Config, attempts: seq<Attempt>, d: Diagnosis, approvedPaths: bool)
    ensures RetryAuthorized(cfg, attempts, d, approvedPaths) <==>
              && cfg.day == 1 && approvedPaths && d.gap.evidenceType == COMMIT_REF
              && d.strategy.template.Some? && d.strategy.template.value.id == DAY_ONE_CHECKPOINT
              && (exists k :: 0 <= k < |attempts| && attempts[k].template == DAY_ONE_CHECKPOINT && attempts[k].outcome == HUMAN_REQUIRED && attempts[k].unapprovedPaths)
              && (forall k :: 0 <= k < |attempts| && attempts[k].template == DAY_ONE_CHECKPOINT ==> attempts[k].outcome != COMPLETED)
  {
    if a :| a in attempts && a.template == DAY_ONE_CHECKPOINT && a.outcome == HUMAN_REQUIRED && a.unapprovedPaths {
      var k :| 0 <= k < |attempts| && attempts[k] == a;
    }
    if a :| a in attempts && a.template == DAY_ONE_CHECKPOINT && a.outcome == COMPLETED {
      var k :| 0 <= k < |attempts| && attempts[k] == a;
    }
  }

  /** A gap has something to do: its template's inputs are no gaps themselves, and it was not done on these inputs, or may be again. */
  lemma CandidateExactly(cfg: Config, attempts: seq<Attempt>, all: seq<Diagnosis>, d: Diagnosis, approvedPaths: bool)
    ensures Candidate(cfg, attempts, all, d, approvedPaths) <==>
              && d.strategy.template.Some?
              && (forall k :: 0 <= k < |all| ==> all[k].gap.evidenceType !in d.strategy.template.value.inputs)
              && (RetryAuthorized(cfg, attempts, d, approvedPaths)
                  || forall k :: 0 <= k < |attempts| ==>
                       attempts[k].action != d.action && !(attempts[k].template == d.strategy.template.value.id && attempts[k].input == d.input))
  {
    hide RetryAuthorized;
    if d.strategy.template.Some? {
      forall k | 0 <= k < |attempts| ensures attempts[k] in attempts {}
      forall k | 0 <= k < |all| ensures all[k] in all {}
    }
  }

  /** Reading first, then the checkpoint, then any other work. */
  function Kind(m: Mode): nat {
    if m == READ_ONLY then 0 else if m == BASELINE_CHECKPOINT then 1 else 2
  }

  /** What is selected reads if any candidate reads, is the checkpoint if none reads and one is; then the least strategy, then the least criterion. */
  lemma SelectionOrder(cfg: Config, attempts: seq<Attempt>, all: seq<Diagnosis>, approvedPaths: bool, k: nat)
    requires k < |all| && Candidate(cfg, attempts, all, all[k], approvedPaths)
    ensures var selected := Selected(cfg, attempts, all, approvedPaths);
            && selected.Some? && selected.value in all && Candidate(cfg, attempts, all, selected.value, approvedPaths)
            && var d, x := selected.value, all[k];
               && Kind(d.strategy.template.value.mode) <= Kind(x.strategy.template.value.mode)
               && (Kind(d.strategy.template.value.mode) == Kind(x.strategy.template.value.mode) ==>
                     d.strategy.id < x.strategy.id || (d.strategy.id == x.strategy.id && d.gap.criterion <= x.gap.criterion))
  {
    hide RetryAuthorized, Tried, Best;
    var i := SelectionIsFirst(cfg, attempts, all, approvedPaths);
    assert i < k || k < i || i == k;
  }

  // ----- blockers -----

  /** Which authority a classification waits for; anything else cannot be recovered. */
  lemma TerminalExactly(c: Classification)
    ensures TerminalFor(c) == EXTERNAL_ACTION_REQUIRED <==> c == MISSING_EXTERNAL_AUTHORITY || c == EXTERNAL_AUTHORITY_REQUIRED
    ensures TerminalFor(c) == HUMAN_ACTION_REQUIRED <==> c == HUMAN_PRODUCT_DECISION_REQUIRED
    ensures TerminalFor(c) in {EXTERNAL_ACTION_REQUIRED, HUMAN_ACTION_REQUIRED, FAILED_UNRECOVERABLE}
  {
  }

  /** What a Day that waits for an authority has on record: who is asked, and about which template; none for a repair. */
  ghost predicate BlockedFor(work: Work, w: Worker, c: Cycle, b: Option<AuthorityBlocker>, who: Classification) {
    && b.Some? && b.value.classification == who
    && (OrdersRepair(w, work, c) ==> b.value.template == None)
    && (!OrdersRepair(w, work, c) && (work.Act? || work.Await? || work.Route?) ==> b.value.template == TemplateId(work.d.strategy))
  }

  predicate Waiting(s: DayState) { s == EXTERNAL_ACTION_REQUIRED || s == HUMAN_ACTION_REQUIRED }

  function WhoFor(s: DayState): Classification {
    if s == EXTERNAL_ACTION_REQUIRED then EXTERNAL_AUTHORITY_REQUIRED else HUMAN_PRODUCT_DECISION_REQUIRED
  }

  ghost predicate Recorded(w: Worker, work: Work, c: Cycle, after: Worker) {
    Waiting(after.state) ==> BlockedFor(work, w, c, after.blocker, WhoFor(after.state))
  }

  lemma BlockRecords(w: Worker, c: Classification, t: Option<Id>)
    requires Blockable(w.state)
    ensures Block(w, c, t).blocker == Some(AuthorityBlocker(c, t)) && Block(w, c, t).state == TerminalFor(c)
  {
  }

  lemma RaisedKeepsBlocker(w: Worker)
    requires Active(w.state)
    ensures Raised(w).blocker == w.blocker && Raised(w).state == FAILED_UNRECOVERABLE
  {
  }

  lemma IngestRecords(w: Worker, d: Diagnosis, r: ActionResult, c: Cycle)
    requires w.state == DIAGNOSING_GAP || w.state == COLLECTING_EVIDENCE || w.state == EXECUTING_DAY_WORK
    ensures var after := Ingested(w, d, r, c);
            Waiting(after.state) ==>
              && after.blocker.Some? && after.blocker.value.classification == WhoFor(after.state)
              && after.blocker.value.template == if IsAuthority(r.classification) then TemplateId(d.strategy) else None
  {
    hide Block, Move, Raised;
    RaisedKeepsBlocker(w);
    BlockRecords(w, r.classification, TemplateId(d.strategy));
    Moves(w, REPAIR_SUPERVISOR);
    var recorded := Move(w, REPAIR_SUPERVISOR).(repaired := w.repaired + [d.strategy.id]);
    RaisedKeepsBlocker(recorded);
    BlockRecords(recorded, if c.reviewUnavailable then EXTERNAL_AUTHORITY_REQUIRED else HUMAN_PRODUCT_DECISION_REQUIRED, None);
  }

  lemma ResumeRecords(w: Worker, c: Cycle)
    requires w.state == DIAGNOSING_GAP
    ensures Recorded(w, Resume, c, RepairResumed(w, c).worker)
  {
    hide Block, Move, Raised, Revalidated;
    Moves(w, REPAIR_SUPERVISOR);
    var supervised := Move(w, REPAIR_SUPERVISOR).(pendingRepair := false);
    RaisedSettles(supervised);
    BlockRecords(supervised, if c.reviewUnavailable then EXTERNAL_AUTHORITY_REQUIRED else HUMAN_PRODUCT_DECISION_REQUIRED, None);
    Moves(supervised, REVALIDATING);
    RevalidatedOutcome(Move(supervised, REVALIDATING), c, []);
  }

  lemma ActRecords(w: Worker, d: Diagnosis, retry: bool, c: Cycle)
    requires w.state == DIAGNOSING_GAP && d.strategy.template.Some?
    ensures Recorded(w, Act(d), c, Executed(w, d, retry, c).worker)
  {
    hide Ingested, Started, WithResult, Move, Raised, Revalidated, ResultOf;
    StartedEnds(w, d);
    var started, result := Started(w, d), ResultOf(d.strategy.template.value, c);
    ResultEnds(started, result);
    RaisedSettles(started);
    var reported := WithResult(started, result);
    IngestOutcome(reported, d, result, c);
    IngestRecords(reported, d, result, c);
    var after := Ingested(reported, d, result, c);
    if Active(after.state) {
      Moves(after, REVALIDATING);
      RevalidatedOutcome(Move(after, REVALIDATING), c, [Effect(d.strategy.template.value.id, d.input, retry)]);
    }
  }

  lemma RouteRecords(w: Worker, d: Diagnosis, c: Cycle)
    requires w.state == DIAGNOSING_GAP
    ensures Recorded(w, Route(d), c, (if Active(Routed(w, d, c).state) then Revalidated(Routed(w, d, c), c, []) else Returns(Routed(w, d, c), [])).worker)
  {
    hide Ingested, Block, Move, Raised, Revalidated;
    BlockRecords(w, HUMAN_PRODUCT_DECISION_REQUIRED, TemplateId(d.strategy));
    if !NotRepairable(w, d) {
      var result := ActionResult(OTHER_OUTCOME, ENGINEERING_REPAIR, false, d.strategy.template.value.orderValid);
      IngestOutcome(w, d, result, c);
      IngestRecords(w, d, result, c);
      var after := Ingested(w, d, result, c);
      if Active(after.state) { Moves(after, REVALIDATING); }
    }
    var routed := Routed(w, d, c);
    if Active(routed.state) { RevalidatedOutcome(routed, c, []); }
  }

  /** A Day that comes to wait for an authority in a cycle has on record who is asked, and about what. */
  lemma CycleRecords(cfg: Config, w: Worker, c: Cycle, work: Work)
    requires w.state == VALIDATING && SetsOut(cfg, w, c, work)
    ensures Recorded(w, work, c, RunCycle(cfg, w, c).worker)
  {
    hide Worked, RepairResumed, Diagnoses, Move, Raised, Selected, FirstAt, Recorded, RunCycle, AsksFor, Breaks;
    CycleOutcome(cfg, w, c, work);
    if HasGaps(c) {
      GapsRecord(cfg, w, c, work);
    } else {
      NoGapsRecord(w, work, c, RunCycle(cfg, w, c).worker);
    }
  }

  lemma NoGapsRecord(w: Worker, work: Work, c: Cycle, after: Worker)
    requires !Waiting(after.state)
    ensures Recorded(w, work, c, after)
  {
  }

  lemma SameRecord(w: Worker, w': Worker, work: Work, c: Cycle, after: Worker)
    requires w'.repaired == w.repaired
    ensures Recorded(w, work, c, after) == Recorded(w', work, c, after)
  {
  }

  lemma GapsRecord(cfg: Config, w: Worker, c: Cycle, work: Work)
    requires w.state == VALIDATING && SetsOut(cfg, w, c, work) && HasGaps(c)
    ensures Recorded(w, work, c, RunCycle(cfg, w, c).worker)
  {
    hide Worked, RepairResumed, Diagnoses, Move, Raised, Selected, FirstAt, Recorded;
    Moves(w, DIAGNOSING_GAP);
    var diagnosing := Move(w, DIAGNOSING_GAP);
    var taken := w.(stale := false);
    Moves(taken, DIAGNOSING_GAP);
    var all := Diagnoses(cfg, w.attempts, c.gaps, c.input);
    if w.stale {
      StaleRefused(taken);
      NoGapsRecord(w, work, c, Guarded(taken, Block(taken, EXTERNAL_AUTHORITY_REQUIRED, None)));
      ResumeRecords(Move(taken, DIAGNOSING_GAP), c);
      SameRecord(w, Move(taken, DIAGNOSING_GAP), work, c, RunCycle(cfg, w, c).worker);
    } else {
      RaisedSettles(diagnosing);
      if all == None { NoGapsRecord(w, work, c, Raised(diagnosing)); }
      if all.Some? {
        SameSetOut(cfg, w, diagnosing, c, work);
        WorkRecords(cfg, diagnosing, all.value, c, work);
      }
      SameRecord(w, diagnosing, work, c, RunCycle(cfg, w, c).worker);
    }
  }

  lemma WorkRecords(cfg: Config, w: Worker, all: seq<Diagnosis>, c: Cycle, work: Work)
    requires w.state == DIAGNOSING_GAP && !w.stale && Diagnosed(cfg, w, c, all) && SetsOut(cfg, w, c, work)
    ensures Recorded(w, work, c, Worked(cfg, w, all, c).worker)
  {
    hide Routed, Executed, RepairResumed, Best, RetryAuthorized, Block, Raised, Revalidated, Recorded, FirstAt, Diagnoses;
    ResumeRecords(w, c);
    AuthorityIsFirst(all);
    RaisedSettles(w);
    NoGapsRecord(w, work, c, Raised(w));
    match work
    case Resume =>
    case Act(d) => ActRecords(w, d, RetryAuthorized(cfg, w.attempts, d, c.approvedPaths), c);
    case Await(d) =>
      AwaitsTheFirst(all, d);
      AwaitIsAuthority(all, d);
      AwaitRecords(w, d, c);
    case Route(d) => RouteRecords(w, d, c);
    case Nothing =>
  }

  lemma AwaitRecords(w: Worker, d: Diagnosis, c: Cycle)
    requires w.state == DIAGNOSING_GAP && IsAuthority(d.classification)
    ensures Recorded(w, Await(d), c, Block(w, d.classification, TemplateId(d.strategy)))
  {
    hide Block;
    BlockRecords(w, d.classification, TemplateId(d.strategy));
  }

  // ----- the log of attempts -----

  /** The log of an action: what was tried on which inputs, and, unless it raised, its outcome and classification. */
  lemma AttemptIsLogged(w: Worker, d: Diagnosis, retry: bool, c: Cycle)
    requires w.state == DIAGNOSING_GAP && d.strategy.template.Some?
    ensures var t, after, n := d.strategy.template.value, Executed(w, d, retry, c).worker.attempts, |w.attempts|;
            var a := Attempt(d.action, d.gap.criterion, d.gap.evidenceType, t.id, d.input, STARTED, None, false);
            && |after| == n + 1 && after[..n] == w.attempts
            && after[n] ==
                 if c.trouble == RaiseOnWork then a
                 else if t.mode != BASELINE_CHECKPOINT then
                   a.(outcome := c.result.outcome, observed := Some(c.result.classification), unapprovedPaths := c.result.unapprovedPaths)
                 else if c.checkpointed then a.(outcome := COMPLETED, observed := Some(INSUFFICIENT_EVIDENCE))
                 else a.(outcome := HUMAN_REQUIRED, observed := Some(HUMAN_PRODUCT_DECISION_REQUIRED), unapprovedPaths := c.result.unapprovedPaths)
  {
    hide Ingested, Move, Raised, Revalidated;
    Moves(w, if d.strategy.template.value.mode == READ_ONLY then COLLECTING_EVIDENCE else EXECUTING_DAY_WORK);
    StartedEnds(w, d);
    var started, result := Started(w, d), ResultOf(d.strategy.template.value, c);
    ResultEnds(started, result);
    RaisedSettles(started);
    var reported := WithResult(started, result);
    IngestEnds(reported, d, result, c);
    var after := Ingested(reported, d, result, c);
    if Active(after.state) {
      Moves(after, REVALIDATING);
      RevalidatedEnds(Move(after, REVALIDATING), c, [Effect(d.strategy.template.value.id, d.input, retry)]);
    }
  }
}
