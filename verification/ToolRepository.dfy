/** The durable record of one tool call and the orchestrator's operations on it.
    Each operation is one database transaction: it changes the record, finds the
    record already there, or refuses (raises). */
module ToolRepository {
  import opened Options
  import opened ToolLifecycle

  /** One (client, session) pair. */
  datatype Key = Key(client: nat, session: nat)

  /** A row of tool_calls with its event log. `log` is the sequence of to_status
      values; `outcome` stands for the (error code, duration, summary) written by
      record_result, absent when another operation closed the call. */
  datatype Row = Row(
    request: nat,
    key: Key,
    tool: nat,
    approvalRequired: bool,
    log: seq<Status>,
    outcome: Option<nat>
  ) {
    ghost predicate Valid() {
      LegalRun(log) && log[0] == Proposed
    }

    function Current(): Status
      requires |log| > 0
    {
      log[|log| - 1]
    }

    function Advance(to: Status): Row {
      this.(log := log + [to])
    }
  }

  datatype Operation =
    | Approve | Deny | Queue | Start | Report | Cancel | TimeOut
    | Complete(outcome: nat) | Fail(outcome: nat)

  datatype Reply = Changed | Unchanged | Refused

  /** What an operation finds outside the row: is the exact session's capability
      live, and is the client below its parallel-call limit? */
  datatype World = World(live: bool, slots: bool)

  function Transition(row: Row, to: Status): (Row, Reply)
    requires |row.log| > 0
  {
    if row.Current() == to then (row, Unchanged)
    else if !Legal(row.Current(), to) then (row, Refused)
    else (row.Advance(to), Changed)
  }

  function RecordApproval(row: Row, destination: Status): (Row, Reply)
    requires |row.log| > 0
  {
    if destination in row.log then (row, Unchanged) else Transition(row, destination)
  }

  function RecordResult(row: Row, status: Status, outcome: nat): (Row, Reply)
    requires |row.log| > 0
  {
    if IsTerminal(row.Current()) then
      (row, if row.Current() == status && row.outcome == Some(outcome) then Unchanged else Refused)
    else if !Legal(row.Current(), status) then (row, Refused)
    else (row.Advance(status).(outcome := Some(outcome)), Changed)
  }

  /** A capability that is gone closes a live call before the operation raises. */
  function LoseCapability(row: Row): (Row, Reply)
    requires |row.log| > 0
  {
    (Disconnected(row), Refused)
  }

  /** disconnect_session, seen from one of its rows. */
  function Disconnected(row: Row): Row
    requires |row.log| > 0
  {
    if IsTerminal(row.Current()) then row else row.Advance(ClientDisconnected)
  }

  function QueueCall(row: Row, world: World): (Row, Reply)
    requires |row.log| > 0
  {
    if row.Current() == Validated && row.approvalRequired then (row, Refused)
    else if !world.live then LoseCapability(row)
    else if row.Current() == Queued then (row, Unchanged)
    else if !world.slots then (row, Refused)
    else Transition(row, Queued)
  }

  function StartCall(row: Row, world: World): (Row, Reply)
    requires |row.log| > 0
  {
    if !world.live then LoseCapability(row) else Transition(row, Running)
  }

  function Perform(row: Row, op: Operation, world: World): (Row, Reply)
    requires |row.log| > 0
  {
    match op
    case Approve => RecordApproval(row, Approved)
    case Deny => RecordApproval(row, Denied)
    case Queue => QueueCall(row, world)
    case Start => StartCall(row, world)
    case Report => (row, if row.Current() == Running then Changed else Refused)
    case Cancel => Transition(row, Cancelled)
    case TimeOut => Transition(row, TimedOut)
    case Complete(outcome) => RecordResult(row, Completed, outcome)
    case Fail(outcome) => RecordResult(row, Failed, outcome)
  }

  /** The status an operation aims at. */
  function Target(op: Operation): Status {
    match op
    case Approve => Approved
    case Deny => Denied
    case Queue => Queued
    case Start => Running
    case Report => Running
    case Cancel => Cancelled
    case TimeOut => TimedOut
    case Complete(_) => Completed
    case Fail(_) => Failed
  }

  lemma AdvanceIsValid(row: Row, to: Status)
    requires row.Valid() && Legal(row.Current(), to)
    ensures row.Advance(to).Valid()
  {
    var log := row.Advance(to).log;
    forall i | 0 <= i < |log| - 1 ensures Legal(log[i], log[i + 1]) {
      if i < |row.log| - 1 {
        assert Legal(row.log[i], row.log[i + 1]);
      }
    }
  }

  lemma DisconnectedIsValid(row: Row)
    requires row.Valid()
    ensures Disconnected(row).Valid() && IsTerminal(Disconnected(row).Current())
  {
    if !IsTerminal(row.Current()) {
      AdvanceIsValid(row, ClientDisconnected);
    }
  }

  /** Every operation keeps the event log a legal run, only ever extends it by one
      status, and never touches a closed call; an operation that does not refuse
      leaves its target in the log, and one that refuses changes nothing unless
      the session's capability was lost. */
  lemma PerformIsSafe(row: Row, op: Operation, world: World)
    requires row.Valid()
    ensures var (after, reply) := Perform(row, op, world);
            && after.Valid()
            && row.log <= after.log
            && |after.log| <= |row.log| + 1
            && after == row.(log := after.log, outcome := after.outcome)
            && (IsTerminal(row.Current()) ==> after == row)
            && (reply != Refused ==> Target(op) in after.log)
            && (reply == Changed && op != Report ==> after.log == row.log + [Target(op)])
            && (reply == Refused && after != row ==> after == Disconnected(row) && !world.live)
  {
    forall to | Legal(row.Current(), to) ensures row.Advance(to).Valid() {
      AdvanceIsValid(row, to);
    }
    DisconnectedIsValid(row);
    if IsTerminal(row.Current()) {
      TerminalIsAbsorbing([row.Current()], 0);
    }
  }

  /** An operation that finds its work done, does it, or refuses it without a change. */
  predicate Steps(row: Row, answer: (Row, Reply), to: Status, done: bool, may: bool) {
    answer == if done then (row, Unchanged)
              else if may then (row.(log := row.log + [to]), Changed)
              else (row, Refused)
  }

  /** The capability is gone: the call is closed, unless it was, and nothing is done. */
  predicate Loses(row: Row, answer: (Row, Reply))
    requires |row.log| > 0
  {
    answer.1 == Refused
    && answer.0 == if IsTerminal(row.Current()) then row else row.(log := row.log + [ClientDisconnected])
  }

  /** What each operation does in each status. */
  lemma DecisionExactly(row: Row, world: World)
    requires row.Valid()
    ensures Steps(row, Perform(row, Approve, world), Approved, Approved in row.log, row.Current() == AwaitingApproval)
    ensures Steps(row, Perform(row, Deny, world), Denied, Denied in row.log, row.Current() == AwaitingApproval)
  {
    assert row.log[|row.log| - 1] == row.Current();
  }

  lemma ClosureExactly(row: Row, world: World)
    requires row.Valid()
    ensures var now := row.Current();
            && Steps(row, Perform(row, Cancel, world), Cancelled, now == Cancelled, now in {Queued, Running})
            && Steps(row, Perform(row, TimeOut, world), TimedOut, now == TimedOut, now in {AwaitingApproval, Running})
            && Perform(row, Report, world) == (row, if now == Running then Changed else Refused)
  {
  }

  lemma StartExactly(row: Row, world: World)
    requires row.Valid()
    ensures var now := row.Current();
            && (if world.live then Steps(row, Perform(row, Start, world), Running, now == Running, now == Queued)
                else Loses(row, Perform(row, Start, world)))
            && (if now == Validated && row.approvalRequired then Perform(row, Queue, world) == (row, Refused)
                else if !world.live then Loses(row, Perform(row, Queue, world))
                else Steps(row, Perform(row, Queue, world), Queued, now == Queued, world.slots && now in {Validated, Approved}))
  {
  }

  lemma ResultExactly(row: Row, outcome: nat, world: World)
    requires row.Valid()
    ensures Perform(row, Complete(outcome), world)
            == if row.Current() == Running then (row.(log := row.log + [Completed], outcome := Some(outcome)), Changed)
               else (row, if row.Current() == Completed && row.outcome == Some(outcome) then Unchanged else Refused)
    ensures Perform(row, Fail(outcome), world)
            == if row.Current() == Running then (row.(log := row.log + [Failed], outcome := Some(outcome)), Changed)
               else (row, if row.Current() == Failed && row.outcome == Some(outcome) then Unchanged else Refused)
  {
  }
}
