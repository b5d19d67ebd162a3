/** What the gateway does with one correlated message, as a function of the durable
    status it read: the branches of event handling, result handling and expiry. */
module AgentProtocol {
  import opened ToolLifecycle
  import opened Options
  import opened ToolRepository

  /** The gateway's answer to one event. */
  datatype Script =
    | Reject                        // correlation error, raised to the socket
    | Ignore                        // accepted without a durable change
    | Hangup                        // the client reports its own disconnection
    | ApproveThenQueue              // the approval path, which needs a waiter
    | Act(ops: seq<Operation>, waiter: bool, finish: Option<Status>)

  /** Operations that close a call the client could not finish. */
  function FailureOperation(kind: EventType, outcome: nat): (Operation, Status) {
    match kind
    case CancelledEvent => (Cancel, Cancelled)
    case TimedOutEvent => (TimeOut, TimedOut)
    case _ => (Fail(outcome), Failed)
  }

  function EventScript(kind: EventType, current: Status, outcome: nat): Script {
    match kind
    case ProposedEvent => Reject
    case RequestEvent => Reject
    case ApprovalRequiredEvent => Reject
    case QueuedEvent => Reject
    case ApprovedEvent =>
      if current in {Queued, Running} then Ignore
      else if current !in {AwaitingApproval, Approved} then Reject
      else ApproveThenQueue
    case DeniedEvent =>
      if current == Denied then Ignore
      else if current != AwaitingApproval then Reject
      else Act([Deny], true, Some(Denied))
    case StartedEvent =>
      if current == Running then Ignore else Act([Start], false, None)
    case ProgressEvent => Act([Report], false, None)
    case ClientDisconnectedEvent => Hangup
    case CompletedEvent => if current != Running then Reject else Ignore
    case _ =>
      if current == AwaitingApproval then
        if kind == TimedOutEvent then Act([TimeOut], true, Some(TimedOut))
        else Act([Deny], true, Some(Denied))
      else
        var (op, status) := FailureOperation(kind, outcome);
        Act((if current == Queued && kind != CancelledEvent then [Start] else []) + [op], false, Some(status))
  }

  /** The operations for a tool.result, or None when it arrived before execution. */
  function ResultScript(status: Status, current: Status, outcome: nat): Option<seq<Operation>> {
    var prefix := if current == Queued && status != Cancelled then [Start] else [];
    var reached := if prefix == [] then current else Running;
    match status
    case Completed => Some(prefix + [Complete(outcome)])
    case Failed => Some(prefix + [Fail(outcome)])
    case Cancelled => Some(prefix + [Cancel])
    case TimedOut => Some(prefix + [TimeOut])
    case _ => if reached != Running then None else Some(prefix + [Fail(outcome)])
  }

  /** The operations of a deadline that fires. */
  function ExpireScript(awaiting: bool, current: Status): seq<Operation> {
    if awaiting || current == AwaitingApproval then [TimeOut]
    else if current == Queued then [Start, TimeOut]
    else [TimeOut]
  }
}
