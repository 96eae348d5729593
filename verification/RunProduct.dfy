/** Settling a terminal run: bind its evidence, record its telemetry once, project its state. */
module RunProduct {
  import opened Prelude
  import opened DayModels
  import opened RunStore
  import opened EvidenceBinding
  import opened RunWorld
  import opened RunProperties
  import opened RunExecution
  import opened TerminalTelemetry
  import opened TelemetryProperties

  datatype Product = Product(world: World, telemetry: map<Id, RunTelemetry>)

  datatype Why =
    | NotCurrent | SnapshotOfOtherRun | DayNotTerminal | TelemetryOfOtherRun | TelemetryConflict
    | CompletedDayConflict | TelemetryRefused(error: TelemetryError) | Execution(reply: Reply)

  datatype Recorded = RecordedNew | RecordedReplay | NotRecorded(why: Why)

  datatype Stage = STATE_REPLAY | EVIDENCE_REPLAY | TELEMETRY_REPLAY | EVIDENCE | TELEMETRY | PROJECTION

  datatype Settlement =
    | AlreadyProjected
    | Projected(replay: bool)
    | Unsettled(stage: Stage, why: Why)
    | ProjectionOnly(reply: Reply)

  predicate TerminalDay(s: DayState) {
    s == COMPLETE || s == HUMAN_ACTION_REQUIRED || s == EXTERNAL_ACTION_REQUIRED || s == FAILED_UNRECOVERABLE || s == FAILED
  }

  function Record(p: Product, run: Id, t: RunTelemetry): (Product, Recorded) {
    if !IsCurrent(p.world.store, run) then (p, NotRecorded(NotCurrent))
    else if t.runId != run then (p, NotRecorded(TelemetryOfOtherRun))
    else if run in p.telemetry then (p, if p.telemetry[run] == t then RecordedReplay else NotRecorded(TelemetryConflict))
    else (p.(telemetry := p.telemetry[run := t]), RecordedNew)
  }

  ghost function Reconcile(p: Product, run: Id, records: seq<TaskRecord>): (Product, Recorded) {
    if !IsCurrent(p.world.store, run) then (p, NotRecorded(NotCurrent))
    else if p.world.day.runId != Some(run) then (p, NotRecorded(SnapshotOfOtherRun))
    else if !TerminalDay(p.world.day.state) then (p, NotRecorded(DayNotTerminal))
    else
      var intent := p.world.store.files[run].intent;
      var error := Error(intent.runId, records);
      if error.Some? then (p, NotRecorded(TelemetryRefused(error.value)))
      else Record(p, run, TelemetryFor(intent, records))
  }

  /** Settling a run that is already COMPLETE: everything is compared again and nothing is written. */
  ghost function Replay(env: Env, p: Product, run: Id, records: seq<TaskRecord>, at: Time): Settlement
    requires run in p.world.store.files
  {
    if p.world.day.state != COMPLETE then Unsettled(STATE_REPLAY, CompletedDayConflict)
    else
      var verified := Verify(env, p.world, run, at);
      if verified != Accepted then Unsettled(EVIDENCE_REPLAY, Execution(verified))
      else
        var intent := p.world.store.files[run].intent;
        var error := Error(intent.runId, records);
        if error.Some? then Unsettled(TELEMETRY_REPLAY, TelemetryRefused(error.value))
        else if !(run in p.telemetry && p.telemetry[run] == TelemetryFor(intent, records)) then
          Unsettled(TELEMETRY_REPLAY, TelemetryConflict)
        else AlreadyProjected
  }

  predicate AlreadyComplete(p: Product, run: Id) {
    IsCurrent(p.world.store, run) && p.world.store.files[run].control.state == COMPLETE
  }

  ghost function Settle(env: Env, p: Product, run: Id, records: seq<TaskRecord>, at: Time): (Product, Settlement) {
    if AlreadyComplete(p, run) then (p, Replay(env, p, run, records, at))
    else if p.world.day.state != COMPLETE then
      (p.(world := Project(p.world, run, at).0), ProjectionOnly(Project(p.world, run, at).1))
    else
      var bound := Bind(env, p.world, run, at);
      if bound.1 != Accepted then (p.(world := bound.0), Unsettled(EVIDENCE, Execution(bound.1)))
      else SettleBound(p.(world := bound.0), run, records, at)
  }

  /** The two stages after an accepted bind. */
  ghost function SettleBound(p: Product, run: Id, records: seq<TaskRecord>, at: Time): (Product, Settlement) {
    var recorded := Reconcile(p, run, records);
    if recorded.1.NotRecorded? then (recorded.0, Unsettled(TELEMETRY, recorded.1.why))
    else
      var projected := Project(p.world, run, at);
      (recorded.0.(world := projected.0),
       if projected.1 != Accepted then Unsettled(PROJECTION, Execution(projected.1)) else Projected(recorded.1 == RecordedReplay))
  }

  class RunProductComposition {
    const execution: RunExecutionComposition
    var telemetry: map<Id, RunTelemetry>

    function State(): Product reads this, execution, execution.store { Product(execution.State(), telemetry) }

    constructor (execution: RunExecutionComposition)
      ensures this.execution == execution && telemetry == map[]
    {
      this.execution, telemetry := execution, map[];
    }

    method RecordTelemetry(run: Id, t: RunTelemetry) returns (recorded: Recorded)
      requires StoreOk(execution.store.State())
      modifies this
      ensures (State(), recorded) == Record(old(State()), run, t)
    {
      hide StoreOk, IsCurrent;
      var current := execution.IsCurrentRun(run);
      if !current { return NotRecorded(NotCurrent); }
      if t.runId != run { return NotRecorded(TelemetryOfOtherRun); }
      if run in telemetry {
        return if telemetry[run] == t then RecordedReplay else NotRecorded(TelemetryConflict);
      }
      telemetry := telemetry[run := t];
      return RecordedNew;
    }

    method ReconcileTerminalTelemetry(run: Id, records: seq<TaskRecord>) returns (recorded: Recorded)
      requires StoreOk(execution.store.State())
      modifies this
      ensures (State(), recorded) == Reconcile(old(State()), run, records)
    {
      hide StoreOk, Error, Summarises;
      var current := execution.IsCurrentRun(run);
      if !current { return NotRecorded(NotCurrent); }
      if execution.day.runId != Some(run) { return NotRecorded(SnapshotOfOtherRun); }
      if !TerminalDay(execution.day.state) { return NotRecorded(DayNotTerminal); }
      var intent := execution.store.files[run].intent;
      var built := BuildTelemetry(intent, records);
      TelemetryIsDetermined(intent, records, records);
      if built.BadRecords? { return NotRecorded(TelemetryRefused(built.error)); }
      recorded := RecordTelemetry(run, built.telemetry);
    }

    /** Reconciles one terminal Day without repeating an effect. */
    method SettleTerminalRun(run: Id, records: seq<TaskRecord>, at: Time) returns (settlement: Settlement)
      requires StoreOk(execution.store.State())
      modifies this, execution`day, execution.store
      ensures (State(), settlement) == Settle(execution.env, old(State()), run, records, at)
    {
      hide StoreOk, Error, Summarises, Bind, Project, Verify;
      var current := execution.IsCurrentRun(run);
      if current { CurrentIsStored(execution.store.State(), run); }
      if current && execution.store.files[run].control.state == COMPLETE {
        if execution.day.state != COMPLETE { return Unsettled(STATE_REPLAY, CompletedDayConflict); }
        var verified := execution.VerifyBoundDayEvidence(run, at);
        if verified != Accepted { return Unsettled(EVIDENCE_REPLAY, Execution(verified)); }
        var intent := execution.store.files[run].intent;
        var built := BuildTelemetry(intent, records);
        TelemetryIsDetermined(intent, records, records);
        if built.BadRecords? { return Unsettled(TELEMETRY_REPLAY, TelemetryRefused(built.error)); }
        if run !in telemetry || telemetry[run] != built.telemetry { return Unsettled(TELEMETRY_REPLAY, TelemetryConflict); }
        return AlreadyProjected;
      }
      if execution.day.state != COMPLETE {
        var projected := execution.ProjectDayState(run, at);
        return ProjectionOnly(projected);
      }
      var bound := execution.BindDayEvidence(run, at);
      if bound != Accepted { return Unsettled(EVIDENCE, Execution(bound)); }
      var recorded := ReconcileTerminalTelemetry(run, records);
      if recorded.NotRecorded? { return Unsettled(TELEMETRY, recorded.why); }
      var projected := execution.ProjectDayState(run, at);
      if projected != Accepted { return Unsettled(PROJECTION, Execution(projected)); }
      return Projected(recorded == RecordedReplay);
    }
  }

  lemma CurrentIsStored(s: Store, run: Id)
    requires IsCurrent(s, run)
    ensures run in s.files
  {
  }
}
