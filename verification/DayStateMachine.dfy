/** The transition table of the Day worker and its guard. */
module DayStateMachine {
  import opened DayModels

  predicate Active(s: DayState) {
    match s
    case PREFLIGHT | LOADING_CONTRACT | INVENTORY | VALIDATING | DIAGNOSING_GAP | COLLECTING_EVIDENCE
      | EXECUTING_DAY_WORK | CORRECTIVE_WORK | REPAIR_SUPERVISOR | REVALIDATING => true
    case _ => false
  }

  /** An action by a person or an outside party is required. */
  predicate Authority(s: DayState) { s == HUMAN_ACTION_REQUIRED || s == EXTERNAL_ACTION_REQUIRED }

  /** The table before every active state is also allowed to pause, stop or fail. */
  predicate InTable(before: DayState, after: DayState) {
    match before
    case IDLE => after == PREFLIGHT
    case PREFLIGHT => after == LOADING_CONTRACT || Authority(after)
    case LOADING_CONTRACT => after == INVENTORY
    case INVENTORY => after == VALIDATING
    case VALIDATING => after == COMPLETE || after == DIAGNOSING_GAP
    case DIAGNOSING_GAP =>
      || after == COLLECTING_EVIDENCE || after == EXECUTING_DAY_WORK || after == CORRECTIVE_WORK
      || after == REPAIR_SUPERVISOR || after == REVALIDATING || Authority(after)
    case COLLECTING_EVIDENCE | EXECUTING_DAY_WORK | CORRECTIVE_WORK =>
      after == REVALIDATING || after == REPAIR_SUPERVISOR || Authority(after)
    case REPAIR_SUPERVISOR => after == REVALIDATING || Authority(after)
    case REVALIDATING => after == VALIDATING
    case PAUSED | STOPPED | HUMAN_ACTION_REQUIRED | EXTERNAL_ACTION_REQUIRED | FAILED_UNRECOVERABLE => after == PREFLIGHT
    case COMPLETE | RUNNING | FAILED => false
  }

  /** False exactly when the guard raises. */
  predicate ValidTransition(before: DayState, after: DayState) {
    && before != after
    && (InTable(before, after)
        || (Active(before) && (after == PAUSED || after == STOPPED || after == FAILED_UNRECOVERABLE)))
  }

  /** The table by where it leads to: what may come before each state. */
  lemma EnteredFrom(before: DayState, after: DayState)
    ensures ValidTransition(before, after) <==>
              match after
              case PREFLIGHT => before in {IDLE, PAUSED, STOPPED, HUMAN_ACTION_REQUIRED, EXTERNAL_ACTION_REQUIRED, FAILED_UNRECOVERABLE}
              case LOADING_CONTRACT => before == PREFLIGHT
              case INVENTORY => before == LOADING_CONTRACT
              case VALIDATING => before in {INVENTORY, REVALIDATING}
              case COMPLETE | DIAGNOSING_GAP => before == VALIDATING
              case COLLECTING_EVIDENCE | EXECUTING_DAY_WORK | CORRECTIVE_WORK => before == DIAGNOSING_GAP
              case REPAIR_SUPERVISOR => before in {DIAGNOSING_GAP, COLLECTING_EVIDENCE, EXECUTING_DAY_WORK, CORRECTIVE_WORK}
              case REVALIDATING => before in {DIAGNOSING_GAP, COLLECTING_EVIDENCE, EXECUTING_DAY_WORK, CORRECTIVE_WORK, REPAIR_SUPERVISOR}
              case HUMAN_ACTION_REQUIRED | EXTERNAL_ACTION_REQUIRED =>
                before in {PREFLIGHT, DIAGNOSING_GAP, COLLECTING_EVIDENCE, EXECUTING_DAY_WORK, CORRECTIVE_WORK, REPAIR_SUPERVISOR}
              case PAUSED | STOPPED | FAILED_UNRECOVERABLE => Active(before)
              case IDLE | RUNNING | FAILED => false
  {
  }
}
