/** The durable life cycle of one tool call: the thirteen statuses, the legal
    changes between them, and what every legal run looks like as a whole. */
module ToolLifecycle {

  datatype Status =
    | Proposed | Validated | AwaitingApproval | Approved | Queued | Running
    | Completed | ValidationFailed | Denied | Failed | Cancelled | TimedOut | ClientDisconnected

  datatype EventType =
    | ProposedEvent | ValidationFailedEvent | RequestEvent | ApprovalRequiredEvent | ApprovedEvent
    | DeniedEvent | QueuedEvent | StartedEvent | ProgressEvent | CompletedEvent | FailedEvent
    | CancelledEvent | TimedOutEvent | ClientDisconnectedEvent

  predicate IsTerminal(s: Status) {
    s in {Completed, ValidationFailed, Denied, Failed, Cancelled, TimedOut, ClientDisconnected}
  }

  function LegalTargets(s: Status): set<Status> {
    match s
    case Proposed => {Validated, ValidationFailed, ClientDisconnected}
    case Validated => {AwaitingApproval, Queued, ClientDisconnected}
    case AwaitingApproval => {Approved, Denied, TimedOut, ClientDisconnected}
    case Approved => {Queued, ClientDisconnected}
    case Queued => {Running, Cancelled, ClientDisconnected}
    case Running => {Completed, Failed, Cancelled, TimedOut, ClientDisconnected}
    case _ => {}
  }

  predicate Legal(current: Status, target: Status) {
    target in LegalTargets(current)
  }

  /** The status an event announces. */
  function EventStatus(e: EventType): Status {
    match e
    case ProposedEvent => Proposed
    case ValidationFailedEvent => ValidationFailed
    case RequestEvent => Validated
    case ApprovalRequiredEvent => AwaitingApproval
    case ApprovedEvent => Approved
    case DeniedEvent => Denied
    case QueuedEvent => Queued
    case StartedEvent => Running
    case ProgressEvent => Running
    case CompletedEvent => Completed
    case FailedEvent => Failed
    case CancelledEvent => Cancelled
    case TimedOutEvent => TimedOut
    case ClientDisconnectedEvent => ClientDisconnected
  }

  /** The event that the log records for a status. */
  function EventOf(s: Status): EventType {
    match s
    case Proposed => ProposedEvent
    case Validated => RequestEvent
    case AwaitingApproval => ApprovalRequiredEvent
    case Approved => ApprovedEvent
    case Queued => QueuedEvent
    case Running => StartedEvent
    case Completed => CompletedEvent
    case ValidationFailed => ValidationFailedEvent
    case Denied => DeniedEvent
    case Failed => FailedEvent
    case Cancelled => CancelledEvent
    case TimedOut => TimedOutEvent
    case ClientDisconnected => ClientDisconnectedEvent
  }

  /** The two tables are inverse to each other, except for progress, which the log never
      records as a change. */
  lemma EventTypesRoundTrip(s: Status, e: EventType)
    ensures EventStatus(EventOf(s)) == s && EventOf(s) != ProgressEvent
    ensures e != ProgressEvent ==> EventOf(EventStatus(e)) == e
    ensures EventStatus(ProgressEvent) == Running
  {
  }

  /** The graph read backwards: from where each status can be reached. */
  lemma WaysInto(a: Status)
    ensures !Legal(a, Proposed)
    ensures Legal(a, Validated) <==> a == Proposed
    ensures Legal(a, ValidationFailed) <==> a == Proposed
    ensures Legal(a, AwaitingApproval) <==> a == Validated
    ensures Legal(a, Approved) <==> a == AwaitingApproval
    ensures Legal(a, Denied) <==> a == AwaitingApproval
    ensures Legal(a, Queued) <==> a in {Validated, Approved}
    ensures Legal(a, Running) <==> a == Queued
    ensures Legal(a, Completed) <==> a == Running
    ensures Legal(a, Failed) <==> a == Running
    ensures Legal(a, Cancelled) <==> a in {Queued, Running}
    ensures Legal(a, TimedOut) <==> a in {AwaitingApproval, Running}
    ensures Legal(a, ClientDisconnected) <==> !IsTerminal(a)
  {
  }

  /** validate_tool_event_transition: does it return rather than raise? */
  predicate EventAccepted(previous: Status, e: EventType) {
    (e == ProgressEvent && previous == Running) || Legal(previous, EventStatus(e))
  }

  ghost predicate LegalRun(run: seq<Status>) {
    && |run| > 0
    && forall i | 0 <= i < |run| - 1 :: Legal(run[i], run[i + 1])
  }

  /** How far along a status is; every legal change moves strictly forward. */
  function Rank(s: Status): (r: nat)
    ensures r == 6 <==> IsTerminal(s)
    ensures r <= 6
  {
    match s
    case Proposed => 0
    case Validated => 1
    case AwaitingApproval => 2
    case Approved => 3
    case Queued => 4
    case Running => 5
    case _ => 6
  }

  lemma LegalAdvances(a: Status, b: Status)
    requires Legal(a, b)
    ensures Rank(a) < Rank(b)
  {
  }

  lemma {:induction false} RunRanks(run: seq<Status>, i: nat, j: nat)
    requires LegalRun(run) && i <= j < |run|
    ensures Rank(run[j]) >= Rank(run[i]) + (j - i)
    decreases j - i
  {
    if i < j {
      RunRanks(run, i, j - 1);
      LegalAdvances(run[j - 1], run[j]);
    }
  }

  /** No legal run makes more than six changes, and none visits a status twice. */
  lemma RunIsBounded(run: seq<Status>)
    requires LegalRun(run)
    ensures |run| - 1 <= 6 - Rank(run[0])
    ensures forall i, j | 0 <= i < j < |run| :: run[i] != run[j]
  {
    RunRanks(run, 0, |run| - 1);
    forall i, j | 0 <= i < j < |run| ensures run[i] != run[j] {
      RunRanks(run, i, j);
    }
  }

  /** Terminal statuses are exactly the dead ends, so a run can only end in one. */
  lemma TerminalIsAbsorbing(run: seq<Status>, i: nat)
    requires LegalRun(run) && i < |run| && IsTerminal(run[i])
    ensures i == |run| - 1
    ensures forall s: Status :: IsTerminal(s) <==> LegalTargets(s) == {}
  {
    RunRanks(run, i, |run| - 1);
    forall s: Status ensures IsTerminal(s) <==> LegalTargets(s) == {} {
      if !IsTerminal(s) {
        assert ClientDisconnected in LegalTargets(s);
      }
    }
  }

  /** Once a run asks for approval, the only way to Running is APPROVED then QUEUED. */
  lemma ApprovalPrecedesRunning(run: seq<Status>, i: nat, j: nat)
    requires LegalRun(run) && i < j < |run|
    requires run[i] == AwaitingApproval && run[j] == Running
    ensures j == i + 3 && run[i + 1] == Approved && run[i + 2] == Queued
  {
    RunRanks(run, i, j);
    RunRanks(run, i + 1, j);
    assert Legal(run[i], run[i + 1]);
    RunRanks(run, i + 2, j);
    assert Legal(run[i + 1], run[i + 2]);
  }

  /** The statuses a stream of accepted events walks through, starting at `start`. */
  function EventWalk(start: Status, events: seq<EventType>): (walk: seq<Status>)
    ensures |walk| == |events| + 1 && walk[0] == start
    decreases |events|
  {
    if events == [] then [start]
    else [start] + EventWalk(EventStatus(events[0]), events[1..])
  }

  ghost predicate AcceptedStream(start: Status, events: seq<EventType>)
    decreases |events|
  {
    events == [] ||
    (EventAccepted(start, events[0]) && AcceptedStream(EventStatus(events[0]), events[1..]))
  }

  /** Drop immediate repetitions. */
  function Collapse(walk: seq<Status>): (run: seq<Status>)
    requires |walk| > 0
    ensures 0 < |run| <= |walk| && run[0] == walk[0]
  {
    if |walk| == 1 then walk
    else
      var rest := Collapse(walk[1..]);
      if walk[0] == walk[1] then rest else [walk[0]] + rest
  }

  function CountProgressAtRunning(start: Status, events: seq<EventType>): nat
    decreases |events|
  {
    if events == [] then 0
    else (if events[0] == ProgressEvent && start == Running then 1 else 0)
         + CountProgressAtRunning(EventStatus(events[0]), events[1..])
  }

  /** Progress while running is pure stuttering: removing it from any accepted
      stream leaves a legal run, and nothing else stutters. */
  lemma {:induction false} ProgressOnlyStutters(start: Status, events: seq<EventType>)
    requires AcceptedStream(start, events)
    ensures LegalRun(Collapse(EventWalk(start, events)))
    ensures |Collapse(EventWalk(start, events))| + CountProgressAtRunning(start, events) == |events| + 1
    decreases |events|
  {
    if events != [] {
      var next := EventStatus(events[0]);
      var rest := EventWalk(next, events[1..]);
      assert EventWalk(start, events)[1..] == rest;
      ProgressOnlyStutters(next, events[1..]);
      var tail := Collapse(rest);
      if start == next {
        assert !Legal(start, next);
      } else {
        assert Legal(start, next);
        var run := [start] + tail;
        assert Collapse(EventWalk(start, events)) == run;
        forall i | 0 <= i < |run| - 1 ensures Legal(run[i], run[i + 1]) {
          if i > 0 {
            assert run[i] == tail[i - 1] && run[i + 1] == tail[i];
          }
        }
      }
    }
  }

  /** At most six events of an accepted stream from PROPOSED are not progress
      reports on a running call. */
  lemma EventStreamIsBounded(events: seq<EventType>)
    requires AcceptedStream(Proposed, events)
    ensures |events| - CountProgressAtRunning(Proposed, events) <= 6
  {
    ProgressOnlyStutters(Proposed, events);
    RunIsBounded(Collapse(EventWalk(Proposed, events)));
  }

  /** Exactly when tool.progress is accepted, and exactly when it keeps the state:
      the code also accepts it as the QUEUED to RUNNING change. */
  lemma ProgressAcceptance(previous: Status)
    ensures EventAccepted(previous, ProgressEvent) <==> previous in {Queued, Running}
    ensures EventAccepted(previous, ProgressEvent) && EventStatus(ProgressEvent) == previous
            <==> previous == Running
  {
    if previous == Queued {
      assert Running in LegalTargets(previous);
    }
  }
}
