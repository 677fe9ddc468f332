/**
 * The console's session states and the transitions its data model allows
 * (wacp-console/crates/console-core/src/session_state.rs).
 */
module SessionState {
  import opened Options

  datatype State =
    | Configuring
    | Validating
    | Launching
    | Active
    | Completed
    | Failed
    | Cancelled

  predicate IsTerminal(s: State) {
    s.Completed? || s.Failed? || s.Cancelled?
  }

  /** `validate_transition(from, to).is_ok()`. */
  predicate ValidTransition(from: State, to: State) {
    match from
    case Configuring => to.Validating? || to.Cancelled?
    case Validating => to.Configuring? || to.Launching? || to.Cancelled?
    case Launching => to.Active? || to.Failed? || to.Cancelled?
    case Active => to.Completed? || to.Failed? || to.Cancelled?
    case _ => false
  }

  datatype CancelAction = NoOp | BestEffortAbort | AbortWorkspace

  function CancelActionFor(s: State): Option<CancelAction> {
    match s
    case Configuring => Some(NoOp)
    case Validating => Some(NoOp)
    case Launching => Some(BestEffortAbort)
    case Active => Some(AbortWorkspace)
    case _ => None
  }

  /** How many transitions can still follow once a session is past validation. */
  function Rank(s: State): nat {
    match s
    case Launching => 2
    case Active => 1
    case _ => 0
  }
}
