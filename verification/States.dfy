/** Remediation statuses and the transition table. */
module RemediationStates {

  datatype Status =
    | Proposed | PolicyBlocked | AwaitingApproval | Approved | Rejected | Queued | Running
    | Succeeded | Failed | TimedOut | Cancelled

  predicate IsTerminal(s: Status) {
    s in {PolicyBlocked, Rejected, Succeeded, Failed, TimedOut, Cancelled}
  }

  /** The table also lists failed -> approved, although failed counts as terminal. */
  predicate CanTransition(from: Status, to: Status) {
    from == to ||
    match from
    case Proposed => to in {PolicyBlocked, AwaitingApproval, Approved, Cancelled}
    case AwaitingApproval => to in {Approved, Rejected, TimedOut, Cancelled}
    case Approved => to in {Queued, Cancelled}
    case Queued => to in {Running, Succeeded, Failed, TimedOut, Cancelled}
    case Running => to in {Succeeded, Failed, TimedOut}
    case Failed => to == Approved
    case _ => false
  }

  /** A job can be sent, or sent again, for a remediation in this status. */
  predicate Dispatchable(s: Status) { s == Queued || s == Running }
}
