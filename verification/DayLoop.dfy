/**
 * The Day worker's control loop: what one cycle does to the Day, for any answers of its environment.
 *
 * `refused` counts transition requests the guard refused; each of them raises, and the handler of the loop
 * fails the Day.  `history` is every state entered, oldest first.
 */
module DayLoop {
  import opened Prelude
  import opened DayModels
  import opened DayStateMachine

  // ----- strategies -----

  datatype Mode = READ_ONLY | BASELINE_CHECKPOINT | ENGINEERING_WORKTREE | RESEARCH_RUN | DECISION_OR_DOCUMENTATION_WORKTREE

  function Priority(m: Mode): nat {
    match m
    case READ_ONLY => 0
    case BASELINE_CHECKPOINT => 1
    case _ => 2
  }

  datatype Classification =
    | ENGINEERING_REPAIR | COLLECT_EVIDENCE | CORRECT_REPOSITORY_STATE | IMPLEMENTATION_DEFECT | TEST_OR_CONTRACT_DEFECT
    | MODEL_QUALITY_FINDING | EXPERIMENT_CONFIGURATION_ISSUE | MISSING_EXTERNAL_AUTHORITY | EXTERNAL_AUTHORITY_REQUIRED
    | HUMAN_PRODUCT_DECISION_REQUIRED | INSUFFICIENT_EVIDENCE | PRODUCE_DAY_EVIDENCE | EXPERIMENT_CONFIGURATION_REPAIR

  /**
   * `hasTests`: the output scope holds a test file.  `orderValid`: the repair order built from the template's
   * scopes passes the validator of dynamic work orders.
   */
  datatype Template = Template(id: Id, mode: Mode, inputs: seq<EvidenceType>, hasTests: bool, orderValid: bool)

  datatype Strategy = Strategy(id: Id, classification: Classification, template: Option<Template>)

  /** The strategies of the selected Day. */
  datatype Config = Config(day: nat, strategies: map<EvidenceType, Strategy>)

  const DAY_ONE_CHECKPOINT: Id := 1
  const COMMIT_REF: EvidenceType := 1

  // ----- attempts and diagnoses -----

  /** The digest of criterion, type, template (or strategy without one) and inputs. */
  datatype ActionFingerprint = ActionFingerprint(criterion: Id, evidenceType: EvidenceType, template: Option<Id>, strategy: Id, input: Fingerprint)

  datatype AttemptOutcome = STARTED | COMPLETED | COMPLETED_NO_CHANGE | HUMAN_REQUIRED | OTHER_OUTCOME

  datatype Attempt = Attempt(
    action: ActionFingerprint, criterion: Id, evidenceType: EvidenceType, template: Id, input: Fingerprint,
    outcome: AttemptOutcome, observed: Option<Classification>, unapprovedPaths: bool)

  datatype Gap = Gap(criterion: Id, evidenceType: EvidenceType)

  datatype Diagnosis = Diagnosis(
    gap: Gap, classification: Classification, input: Fingerprint, action: ActionFingerprint, strategy: Strategy)

  datatype AuthorityBlocker = AuthorityBlocker(classification: Classification, template: Option<Id>)

  /** `stale`: an operator asked for a repair retry that the loop has not taken up yet.  `pendingRepair`: the last
      repair episode was interrupted and is not final. */
  datatype Worker = Worker(
    state: DayState, history: seq<DayState>, refused: nat, attempts: seq<Attempt>, repaired: seq<Id>,
    blocker: Option<AuthorityBlocker>, stale: bool, pendingRepair: bool)

  datatype ActionResult = ActionResult(
    outcome: AttemptOutcome, classification: Classification, unapprovedPaths: bool, orderValid: bool)

  /** Where an exception escapes: evaluating, working or resuming a repair, ingesting a result, supervising its
      repair, or collecting the inventory again. */
  datatype Trouble = NoTrouble | RaiseOnEvaluate | RaiseOnWork | RaiseOnIngest | RaiseInRepair | RaiseAfterWork

  /** What the environment answers during one cycle; `checkpointed`: a requested checkpoint was made. */
  datatype Cycle = Cycle(
    stop: bool, trouble: Trouble, complete: bool, gaps: seq<Gap>, input: Fingerprint, approvedPaths: bool,
    resumeMatches: bool, itemFound: bool, result: ActionResult, checkpointed: bool, repairSucceeds: bool,
    reviewUnavailable: bool)

  datatype Effect = Effect(template: Id, input: Fingerprint, retry: bool)

  datatype CycleEnd = Continues(worker: Worker, effects: seq<Effect>) | Returns(worker: Worker, effects: seq<Effect>)

  // ----- transitions and failures -----

  function Move(w: Worker, to: DayState): Worker {
    if ValidTransition(w.state, to) then w.(state := to, history := w.history + [to]) else w.(refused := w.refused + 1)
  }

  function TerminalFor(c: Classification): DayState {
    if c == MISSING_EXTERNAL_AUTHORITY || c == EXTERNAL_AUTHORITY_REQUIRED then EXTERNAL_ACTION_REQUIRED
    else if c == HUMAN_PRODUCT_DECISION_REQUIRED then HUMAN_ACTION_REQUIRED
    else FAILED_UNRECOVERABLE
  }

  function Fail(w: Worker, c: Classification): Worker {
    if w.state == TerminalFor(c) then w else Move(w, TerminalFor(c))
  }

  /** The handler of the loop. */
  function Raised(w: Worker): Worker { Fail(w, ENGINEERING_REPAIR) }

  function Block(w: Worker, c: Classification, template: Option<Id>): Worker {
    Fail(w.(blocker := Some(AuthorityBlocker(c, template))), c)
  }

  function TemplateId(s: Strategy): Option<Id> {
    if s.template.Some? then Some(s.template.value.id) else None
  }

  // ----- diagnosis and selection -----

  /** The latest attempt of this template on these inputs. */
  function Previous(attempts: seq<Attempt>, template: Option<Id>, input: Fingerprint): Option<Attempt> {
    if attempts == [] then None
    else
      var last := attempts[|attempts| - 1];
      if Some(last.template) == template && last.input == input then Some(last)
      else Previous(attempts[..|attempts| - 1], template, input)
  }

  function DiagnosisOf(cfg: Config, attempts: seq<Attempt>, gap: Gap, input: Fingerprint): Diagnosis
    requires gap.evidenceType in cfg.strategies
  {
    var s := cfg.strategies[gap.evidenceType];
    var previous := Previous(attempts, TemplateId(s), input);
    var classification :=
      if previous == None then s.classification
      else if previous.value.observed == None || previous.value.observed == Some(INSUFFICIENT_EVIDENCE) then ENGINEERING_REPAIR
      else previous.value.observed.value;
    Diagnosis(gap, classification, input,
              ActionFingerprint(gap.criterion, gap.evidenceType, TemplateId(s), s.id, input), s)
  }

  /** `None` when a gap has no registered strategy, which raises. */
  function Diagnoses(cfg: Config, attempts: seq<Attempt>, gaps: seq<Gap>, input: Fingerprint): Option<seq<Diagnosis>> {
    if gaps == [] then Some([])
    else
      var before := Diagnoses(cfg, attempts, gaps[..|gaps| - 1], input);
      var gap := gaps[|gaps| - 1];
      if before == None || gap.evidenceType !in cfg.strategies then None
      else Some(before.value + [DiagnosisOf(cfg, attempts, gap, input)])
  }

  predicate RetryAuthorized(cfg: Config, attempts: seq<Attempt>, d: Diagnosis, approvedPaths: bool) {
    && cfg.day == 1 && approvedPaths
    && TemplateId(d.strategy) == Some(DAY_ONE_CHECKPOINT) && d.gap.evidenceType == COMMIT_REF
    && (exists a :: a in attempts && a.template == DAY_ONE_CHECKPOINT && a.outcome == HUMAN_REQUIRED && a.unapprovedPaths)
    && !(exists a :: a in attempts && a.template == DAY_ONE_CHECKPOINT && a.outcome == COMPLETED)
  }

  predicate Tried(attempts: seq<Attempt>, template: Id, input: Fingerprint) {
    exists a :: a in attempts && a.template == template && a.input == input
  }

  predicate Candidate(cfg: Config, attempts: seq<Attempt>, all: seq<Diagnosis>, d: Diagnosis, approvedPaths: bool) {
    && d.strategy.template.Some?
    && (RetryAuthorized(cfg, attempts, d, approvedPaths)
        || (!(exists a :: a in attempts && a.action == d.action) && !Tried(attempts, d.strategy.template.value.id, d.input)))
    && !(exists g :: g in all && g.gap.evidenceType in d.strategy.template.value.inputs)
  }

  predicate Before(a: Diagnosis, b: Diagnosis)
    requires a.strategy.template.Some? && b.strategy.template.Some?
  {
    var p, q := Priority(a.strategy.template.value.mode), Priority(b.strategy.template.value.mode);
    p < q || (p == q && (a.strategy.id < b.strategy.id
                         || (a.strategy.id == b.strategy.id && a.gap.criterion < b.gap.criterion)))
  }

  /** The first candidate, among the first `n` diagnoses, that no other comes before. */
  function Best(cfg: Config, attempts: seq<Attempt>, all: seq<Diagnosis>, n: nat, approvedPaths: bool): (r: Option<Diagnosis>)
    requires n <= |all|
    ensures r.Some? ==> r.value in all && Candidate(cfg, attempts, all, r.value, approvedPaths)
  {
    if n == 0 then None
    else
      var best, d := Best(cfg, attempts, all, n - 1, approvedPaths), all[n - 1];
      if Candidate(cfg, attempts, all, d, approvedPaths) && (best == None || Before(d, best.value)) then Some(d) else best
  }

  function Selected(cfg: Config, attempts: seq<Attempt>, all: seq<Diagnosis>, approvedPaths: bool): Option<Diagnosis> {
    Best(cfg, attempts, all, |all|, approvedPaths)
  }

  function FirstAuthority(all: seq<Diagnosis>): Option<Diagnosis> {
    if all == [] then None
    else if all[0].classification == EXTERNAL_AUTHORITY_REQUIRED || all[0].classification == HUMAN_PRODUCT_DECISION_REQUIRED then Some(all[0])
    else FirstAuthority(all[1..])
  }

  // ----- one cycle -----

  /** The blocker of a repair that was not verified. */
  function RepairBlocked(w: Worker, c: Cycle): Worker {
    Block(w, if c.reviewUnavailable then EXTERNAL_AUTHORITY_REQUIRED else HUMAN_PRODUCT_DECISION_REQUIRED, None)
  }

  function Ingested(w: Worker, d: Diagnosis, r: ActionResult, c: Cycle): Worker {
    if c.trouble == RaiseOnIngest then Raised(w)
    else if r.classification == EXTERNAL_AUTHORITY_REQUIRED || r.classification == HUMAN_PRODUCT_DECISION_REQUIRED then
      Block(w, r.classification, TemplateId(d.strategy))
    else if r.outcome != COMPLETED && r.outcome != COMPLETED_NO_CHANGE
            && (r.classification == IMPLEMENTATION_DEFECT || r.classification == ENGINEERING_REPAIR) then
      var supervised := Move(w, REPAIR_SUPERVISOR);
      if !r.orderValid then supervised
      else
        var recorded := supervised.(repaired := supervised.repaired + [d.strategy.id]);
        if c.trouble == RaiseInRepair then Raised(recorded)
        else if c.repairSucceeds then recorded else RepairBlocked(recorded, c)
    else w
  }

  function Routed(w: Worker, d: Diagnosis, c: Cycle): Worker {
    var t := d.strategy.template;
    if d.classification == MODEL_QUALITY_FINDING
       || t == None || t.value.mode != ENGINEERING_WORKTREE || !t.value.hasTests
       || d.strategy.id in w.repaired then
      Block(w, HUMAN_PRODUCT_DECISION_REQUIRED, TemplateId(d.strategy))
    else
      var after := Ingested(w, d, ActionResult(OTHER_OUTCOME, ENGINEERING_REPAIR, false, t.value.orderValid), c);
      if Active(after.state) then Move(after, REVALIDATING) else after
  }

  function Started(w: Worker, d: Diagnosis): Worker
    requires d.strategy.template.Some?
  {
    var t := d.strategy.template.value;
    var moved := Move(w, if t.mode == READ_ONLY then COLLECTING_EVIDENCE else EXECUTING_DAY_WORK);
    moved.(attempts := moved.attempts + [Attempt(d.action, d.gap.criterion, d.gap.evidenceType, t.id, d.input, STARTED, None, false)])
  }

  function WithResult(w: Worker, r: ActionResult): Worker
    requires w.attempts != []
  {
    var n := |w.attempts| - 1;
    w.(attempts := w.attempts[n := w.attempts[n].(outcome := r.outcome, observed := Some(r.classification),
                                                  unapprovedPaths := r.unapprovedPaths)])
  }

  /** Collecting inventory again, then validating. */
  function Revalidated(w: Worker, c: Cycle, effects: seq<Effect>): CycleEnd {
    if c.trouble == RaiseAfterWork then Returns(Raised(w), effects) else Continues(Move(w, VALIDATING), effects)
  }

  /** A repair episode taken up again: after an operator request, or because it was interrupted. */
  function RepairResumed(w: Worker, c: Cycle): CycleEnd {
    var supervised := Move(w, REPAIR_SUPERVISOR).(pendingRepair := false);
    if c.trouble == RaiseOnWork then Returns(Raised(supervised), [])
    else if !c.repairSucceeds then Returns(RepairBlocked(supervised, c), [])
    else Revalidated(Move(supervised, REVALIDATING), c, [])
  }

  /** A checkpoint is made or asks for a human decision; every other action may report anything. */
  function ResultOf(t: Template, c: Cycle): ActionResult {
    if t.mode != BASELINE_CHECKPOINT then c.result
    else if c.checkpointed then ActionResult(COMPLETED, INSUFFICIENT_EVIDENCE, false, false)
    else ActionResult(HUMAN_REQUIRED, HUMAN_PRODUCT_DECISION_REQUIRED, c.result.unapprovedPaths, false)
  }

  function Executed(w: Worker, d: Diagnosis, retry: bool, c: Cycle): CycleEnd
    requires d.strategy.template.Some?
  {
    var started := Started(w, d);
    var effects := [Effect(d.strategy.template.value.id, d.input, retry)];
    if c.trouble == RaiseOnWork then Returns(Raised(started), effects)
    else
      var result := ResultOf(d.strategy.template.value, c);
      var after := Ingested(WithResult(started, result), d, result, c);
      if !Active(after.state) then Returns(after, effects) else Revalidated(Move(after, REVALIDATING), c, effects)
  }

  /** The part of a cycle after the gaps are diagnosed. */
  function Worked(cfg: Config, w: Worker, all: seq<Diagnosis>, c: Cycle): CycleEnd {
    if w.pendingRepair then
      if c.itemFound then RepairResumed(w, c) else Returns(Raised(w), [])
    else
      var selected := Selected(cfg, w.attempts, all, c.approvedPaths);
      if selected.Some? then
        Executed(w, selected.value, RetryAuthorized(cfg, w.attempts, selected.value, c.approvedPaths), c)
      else
        var authority := FirstAuthority(all);
        if authority.Some? then Returns(Block(w, authority.value.classification, TemplateId(authority.value.strategy)), [])
        else if all == [] then Returns(Raised(w), [])
        else
          var routed := Routed(w, all[0], c);
          if Active(routed.state) then Revalidated(routed, c, []) else Returns(routed, [])
  }

  /** A request the guard refused raises. */
  function Guarded(before: Worker, after: Worker): Worker {
    if after.refused > before.refused then Raised(after) else after
  }

  function RunCycle(cfg: Config, w: Worker, c: Cycle): CycleEnd {
    if c.stop then Returns(Move(w, STOPPED), [])
    else if c.trouble == RaiseOnEvaluate then Returns(Raised(w), [])
    else if c.complete then Returns(Move(w, COMPLETE), [])
    else if w.stale then
      var taken := w.(stale := false);
      if !c.resumeMatches then Returns(Guarded(taken, Block(taken, EXTERNAL_AUTHORITY_REQUIRED, None)), [])
      else RepairResumed(Move(taken, DIAGNOSING_GAP), c)
    else
      var diagnosing := Move(w, DIAGNOSING_GAP);
      var all := Diagnoses(cfg, w.attempts, c.gaps, c.input);
      if all == None then Returns(Raised(diagnosing), []) else Worked(cfg, diagnosing, all.value, c)
  }

  // ----- from PREFLIGHT to the loop, and the loop -----

  /** `raises`: before the blocker is looked at; `ingestRaises`: after the inventory was taken. */
  datatype Preflight = Preflight(raises: bool, blockerResolved: bool, retryEligible: bool, sourcesMissing: bool, ingestRaises: bool)

  /** The checks before the loop; the loop is entered in state VALIDATING. */
  function Preflighted(w: Worker, p: Preflight): Worker {
    if p.raises then Raised(w)
    else if w.blocker.Some? && !p.blockerResolved && !p.retryEligible then Fail(w, w.blocker.value.classification)
    else
      var cleared := w.(blocker := None);
      if p.sourcesMissing then Block(cleared, EXTERNAL_AUTHORITY_REQUIRED, None)
      else
        var taken := Move(Move(cleared, LOADING_CONTRACT), INVENTORY);
        if p.ingestRaises then Raised(taken) else Move(taken, VALIDATING)
  }

  /** The run of the worker over these cycles: it has returned, or the cycles ran out while it was looping. */
  function Looped(cfg: Config, w: Worker, cycles: seq<Cycle>): CycleEnd
    decreases |cycles|
  {
    if cycles == [] then Continues(w, [])
    else
      var first := RunCycle(cfg, w, cycles[0]);
      if first.Returns? then first
      else
        var rest := Looped(cfg, first.worker, cycles[1..]);
        if rest.Returns? then Returns(rest.worker, first.effects + rest.effects)
        else Continues(rest.worker, first.effects + rest.effects)
  }

  function Execute(cfg: Config, w: Worker, p: Preflight, cycles: seq<Cycle>): CycleEnd {
    var ready := Preflighted(w, p);
    if ready.state != VALIDATING then Returns(ready, []) else Looped(cfg, ready, cycles)
  }
}
