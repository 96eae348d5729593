/**
 * Entities shared by the run store, the execution controllers and the Day worker.
 *
 * Identifiers, fingerprints and digests are opaque naturals: only their equality (and, for run
 * identifiers, their order) is ever used.  Times are integers on one clock.  A derived record
 * identifier or contract fingerprint is the tuple of its inputs, so it is injective.
 */
module DayModels {
  import opened Prelude

  type Id = nat
  type Fingerprint = nat
  type Time = int
  type EvidenceType = nat
  type Value = nat

  datatype DayState =
    | IDLE | PREFLIGHT | LOADING_CONTRACT | INVENTORY | VALIDATING | DIAGNOSING_GAP
    | COLLECTING_EVIDENCE | EXECUTING_DAY_WORK | CORRECTIVE_WORK | REPAIR_SUPERVISOR
    | REVALIDATING | RUNNING | PAUSED | COMPLETE | HUMAN_ACTION_REQUIRED
    | EXTERNAL_ACTION_REQUIRED | FAILED_UNRECOVERABLE | FAILED | STOPPED

  // ----- runs -----

  datatype RunLimits = RunLimits(activeWorkSeconds: nat, maxAttempts: nat, currency: Id)

  datatype RunIntent = RunIntent(
    runId: Id, selectedDay: nat, goAt: Time, contractFingerprint: ContractFingerprint,
    policyFingerprint: Fingerprint, configFingerprint: Fingerprint, gitFingerprint: Fingerprint,
    limits: RunLimits)

  datatype Blocker =
    | ReviewResponseRequired | HumanDecisionRequired | RepeatedFailureAttemptLimit
    | OtherBlocker(reason: Id)

  datatype RunControl = RunControl(
    runId: Id, selectedDay: nat, contractFingerprint: ContractFingerprint,
    state: DayState, history: seq<DayState>, blocker: Option<Blocker>, resumesAtPreflight: bool,
    updatedAt: Time)

  datatype RunRecord = RunRecord(intent: RunIntent, control: RunControl) {
    /** The model validator of a run record: control and intent name the same run. */
    predicate SameIdentity() {
      && intent.runId == control.runId
      && intent.selectedDay == control.selectedDay
      && intent.contractFingerprint == control.contractFingerprint
    }
  }

  // ----- Day contracts and evidence -----

  datatype Criterion = Criterion(
    id: Id, statement: Id, required: seq<EvidenceType>, satisfied: bool,
    recordIds: map<EvidenceType, RecordId>)

  /** `definition` stands for title, objective, constraints and authoritative sources. */
  datatype Contract = Contract(
    day: nat, version: Id, definition: Id, criteria: seq<Criterion>,
    satisfiedCriteria: seq<Id>, remainingGaps: seq<Id>)

  datatype CriterionIdentity = CriterionIdentity(id: Id, statement: Id, required: multiset<EvidenceType>)

  datatype ContractFingerprint = ContractFingerprint(
    day: nat, version: Id, definition: Id, criteria: multiset<CriterionIdentity>)

  function IdentityOf(c: Criterion): CriterionIdentity {
    CriterionIdentity(c.id, c.statement, multiset(c.required))
  }

  function Identities(criteria: seq<Criterion>): seq<CriterionIdentity> {
    seq(|criteria|, i requires 0 <= i < |criteria| => IdentityOf(criteria[i]))
  }

  /** The fingerprint ignores evidence references, satisfied flags and remaining gaps. */
  function FingerprintOf(c: Contract): ContractFingerprint {
    ContractFingerprint(c.day, c.version, c.definition, multiset(Identities(c.criteria)))
  }

  datatype RecordId =
    | StrictId(runId: Id, criterionId: Id, evidenceType: EvidenceType, provider: Id,
               source: Fingerprint, value: Value)
    | LegacyId(project: Id, day: nat, version: Id, evidenceType: EvidenceType, value: Value,
               observed: Fingerprint)

  /** Everything an evidence record carries that no decision reads. */
  datatype Provenance = Provenance(providerVersion: Id, paths: Id, revision: Id, artifact: Id)

  datatype EvidenceRecord = EvidenceRecord(
    recordId: RecordId, runId: Option<Id>, criterionId: Option<Id>, project: Id, day: nat,
    version: Id, evidenceType: EvidenceType, provider: Id, sourceFingerprint: Fingerprint,
    configFingerprint: Fingerprint, value: Value, statusValid: bool, validatorResult: bool,
    compatible: bool, observedAs: Fingerprint, sourceHashes: map<Id, Fingerprint>,
    provenance: Provenance, collectedAt: Time)

  datatype DaySnapshot = DaySnapshot(
    runId: Option<Id>, selectedDay: Option<nat>, state: DayState, contract: Option<Contract>,
    evidence: map<RecordId, EvidenceRecord>, authorityBlocker: Option<Blocker>,
    stopReason: Option<Blocker>)

  /** What the Day program is configured with and what it reads: the project, the files, and the validators. */
  datatype Env = Env(
    project: Id, files: Id -> Fingerprint, validates: (EvidenceType, Value, Id) -> bool)

  /** The project every adapted record is written for, whatever project the Day program has. */
  const ADAPTER_PROJECT: Id := 1

  /** Whether a retained record still proves its evidence type, with the files as they are now. */
  predicate EvidenceValid(env: Env, t: EvidenceType, r: EvidenceRecord) {
    && r.evidenceType == t && r.validatorResult && r.compatible && r.statusValid
    && r.project == env.project
    && (forall path :: path in r.sourceHashes ==> env.files(path) == r.sourceHashes[path])
    && env.validates(t, r.value, r.provider)
  }
}
