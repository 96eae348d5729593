/** Reports on the reviewer bus, as the watcher's registry keeps them, and the comments it reads. */
module ReviewerReports {
  import opened Prelude
  import opened DayModels

  /** A repair's report id is a digest of the report it replaces and that report's request commit. */
  datatype ReportId = Own(id: Id) | RepairOf(parent: ReportId, commit: Id)

  datatype ReportState =
    | QUEUED | WAITING_RESPONSE | RESPONSE_RECEIVED | APPLYING | APPLIED | ACKNOWLEDGED | NOT_REQUIRED
    | HUMAN_REQUIRED | CONTINUATION_FAILED | CONFIRMATION_BLOCKED | NON_CONTROLLING | HISTORICAL_NOT_REPLAYED
    | RESOLVED_BY_CONFIRMATION | FILE_RESPONSE_INVALIDATED

  datatype Phase = DETECTED | PREPARING | POSTING | AWAITING | RECEIVED | RESOLVED | ESCALATED

  datatype RejectReason = AuthorityRecordMismatch | OtherReason(reason: Id)

  /** The type line of a report; only the three named ones are registered. */
  datatype ReportType = PROGRESS_UPDATE | DECISION_REQUEST | COMPLETION_REPORT | Unlisted(name: Id)

  /** The correlation fields of a file request; `others` stands for the ones nothing is decided on one by one. */
  datatype Binding = Binding(
    commit: Id, authority: Option<Id>, reviewedCommit: Option<Id>, reportType: Option<ReportType>, path: Id, others: Id)

  datatype Trigger = Trigger(reportId: ReportId, recoveryOf: ReportId, commit: Id)

  datatype Recovery = Recovery(
    phase: Phase, reason: RejectReason, deadline: Time, attempts: nat, child: Option<ReportId>, trigger: Option<Trigger>)
  {
    predicate Terminal() { phase == RESOLVED || phase == ESCALATED }
  }
}
