/** What the handler of each kind of event is for, when nobody disturbs it: which
    statuses it adds to the log, what becomes of the waiter, and who learns of it. */
module GatewayEvents {
  import opened ToolLifecycle
  import opened Options
  import opened ToolRepository
  import opened AgentProtocol
  import opened OrderedTable
  import opened GatewayMachine
  import opened GatewayAlone
  import opened GatewayUndisturbed

  /** An event from the live session about one of its calls. */
  ghost predicate EventStands(s: State, t: nat, h: Handle, ev: Event, row: Row) {
    && t in s.tasks && s.tasks[t] == Handling(h, ev, EventLock) && Alone(s, t, DispatchLock)
    && LiveSession(s, h) && ev.key == h.key
    && ev.call in s.rows && s.rows[ev.call] == row && |row.log| > 0
    && row.request == ev.request && row.key == h.key
  }

  lemma EventReads(cfg: Config, s: State, t: nat, free: bool, h: Handle, ev: Event, row: Row)
    requires EventStands(s, t, h, ev, row)
    ensures ComesTo(Turn(cfg, t, free), s, At(s, t, Handling(h, ev, EventDecide(row.Current()))))
  {
    assert At(s, t, Handling(h, ev, EventLock)) == s;
    StepsOn(Turn(cfg, t, free), s);
    Moves(cfg, s, s, t, free, Handling(h, ev, EventLock), Handling(h, ev, EventEnter));
    Moves(cfg, s, s, t, free, Handling(h, ev, EventEnter), Handling(h, ev, EventRead));
    Moves(cfg, s, s, t, free, Handling(h, ev, EventRead), Handling(h, ev, EventDecide(row.Current())));
  }

  lemma EventDecides(cfg: Config, s: State, t: nat, free: bool, h: Handle, ev: Event, row: Row,
                     ops: seq<Operation>, waiter: bool, finish: Option<Status>)
    requires EventStands(s, t, h, ev, row) && (waiter ==> HasWaiter(s, ev))
    requires EventScript(ev.kind, row.Current(), ev.outcome) == Act(ops, waiter, finish)
    ensures ComesTo(Turn(cfg, t, free), s, At(s, t, Handling(h, ev, EventRun(ops, finish))))
  {
    EventReads(cfg, s, t, free, h, ev, row);
    Moves(cfg, s, s, t, free, Handling(h, ev, EventDecide(row.Current())), Handling(h, ev, EventRun(ops, finish)));
  }

  lemma EventOperates(cfg: Config, start: State, s: State, t: nat, free: bool, h: Handle, ev: Event,
                      op: Operation, rest: seq<Operation>, finish: Option<Status>, row: Row)
    requires t in s.tasks && ev.call in s.rows && |s.rows[ev.call].log| > 0
    requires Perform(s.rows[ev.call], op, World(true, free)) == (row, Changed)
    requires ComesTo(Turn(cfg, t, free), start, At(s, t, Handling(h, ev, EventRun([op] + rest, finish))))
    ensures ComesTo(Turn(cfg, t, free), start, At(WithRow(s, ev.call, row), t, Handling(h, ev, EventRun(rest, finish))))
  {
    assert ([op] + rest)[1..] == rest;
    Transacts(cfg, start, s, t, free, Handling(h, ev, EventRun([op] + rest, finish)), ev.call, op, row,
              Handling(h, ev, EventRun(rest, finish)), None);
  }

  // ------------------------------------------------------- events that end the call

  /** What an event that ends the call adds to its log; None if it comes too early. */
  function EventLog(kind: EventType, current: Status): Option<seq<Status>> {
    if current == AwaitingApproval then
      if kind == TimedOutEvent then Some([TimedOut])
      else if kind in {DeniedEvent, ValidationFailedEvent, FailedEvent, CancelledEvent} then Some([Denied])
      else None
    else if current == Queued then
      if kind == CancelledEvent then Some([Cancelled])
      else if kind == TimedOutEvent then Some([Running, TimedOut])
      else if kind in {ValidationFailedEvent, FailedEvent} then Some([Running, Failed])
      else None
    else if current == Running then
      if kind == CancelledEvent then Some([Cancelled])
      else if kind == TimedOutEvent then Some([TimedOut])
      else if kind in {ValidationFailedEvent, FailedEvent} then Some([Failed])
      else None
    else None
  }

  /** The operation that adds the last of them. */
  function EventOperation(kind: EventType, current: Status, outcome: nat): Operation {
    if kind == TimedOutEvent then TimeOut
    else if current == AwaitingApproval then Deny
    else if kind == CancelledEvent then Cancel
    else Fail(outcome)
  }

  lemma EventScriptIs(kind: EventType, current: Status, outcome: nat)
    requires EventLog(kind, current).Some?
    ensures var added := EventLog(kind, current).value;
            EventScript(kind, current, outcome)
            == Act((if |added| == 2 then [Start] else []) + [EventOperation(kind, current, outcome)], current == AwaitingApproval,
                   Some(added[|added| - 1]))
  {
    assert [] + [EventOperation(kind, current, outcome)] == [EventOperation(kind, current, outcome)];
  }

  lemma EventFinal(cfg: Config, start: State, s: State, t: nat, free: bool, h: Handle, ev: Event, row: Row, last: Status)
    requires t in s.tasks && ev.call in s.rows && s.rows[ev.call] == row && |row.log| > 0 && Denied !in row.log
    requires EventLog(ev.kind, row.Current()) == Some([last])
    requires ComesTo(Turn(cfg, t, free), start,
                     At(s, t, Handling(h, ev, EventRun([EventOperation(ev.kind, row.Current(), ev.outcome)], Some(last)))))
    ensures ComesTo(Turn(cfg, t, free), start,
                    At(WithRow(s, ev.call, Concluded(row, [last], ev.outcome)), t, Handling(h, ev, EventRun([], Some(last)))))
  {
    var op := EventOperation(ev.kind, row.Current(), ev.outcome);
    assert [op] + [] == [op];
    EventOperates(cfg, start, s, t, free, h, ev, op, [], Some(last), Concluded(row, [last], ev.outcome));
  }

  lemma EventStartsFirst(cfg: Config, s: State, t: nat, free: bool, h: Handle, ev: Event, row: Row, last: Status)
    requires t in s.tasks && ev.call in s.rows && s.rows[ev.call] == row && |row.log| > 0 && Denied !in row.log
    requires row.Current() == Queued && EventLog(ev.kind, Running) == Some([last])
    requires ComesTo(Turn(cfg, t, free), s,
                     At(s, t, Handling(h, ev, EventRun([Start] + [EventOperation(ev.kind, Running, ev.outcome)], Some(last)))))
    ensures ComesTo(Turn(cfg, t, free), s,
                    At(WithRow(s, ev.call, Concluded(row, [Running, last], ev.outcome)), t, Handling(h, ev, EventRun([], Some(last)))))
  {
    var row1 := Logged(row, [Running]);
    EventOperates(cfg, s, s, t, free, h, ev, Start, [EventOperation(ev.kind, Running, ev.outcome)], Some(last), row1);
    EventFinal(cfg, s, WithRow(s, ev.call, row1), t, free, h, ev, row1, last);
    ConcludedTwice(s, ev.call, row, last, ev.outcome);
  }

  lemma EventCloses(cfg: Config, s: State, t: nat, free: bool, h: Handle, ev: Event, row: Row)
    requires EventStands(s, t, h, ev, row) && EventLog(ev.kind, row.Current()).Some? && Denied !in row.log
    requires row.Current() == AwaitingApproval ==> HasWaiter(s, ev)
    ensures var added := EventLog(ev.kind, row.Current()).value;
            ComesTo(Turn(cfg, t, free), s,
                    At(WithRow(s, ev.call, Concluded(row, added, ev.outcome)), t, Handling(h, ev, EventRun([], Some(added[|added| - 1])))))
  {
    var added := EventLog(ev.kind, row.Current()).value;
    var op, last := EventOperation(ev.kind, row.Current(), ev.outcome), added[|added| - 1];
    EventScriptIs(ev.kind, row.Current(), ev.outcome);
    if |added| == 2 {
      EventDecides(cfg, s, t, free, h, ev, row, [Start] + [op], false, Some(last));
      EventStartsFirst(cfg, s, t, free, h, ev, row, last);
    } else {
      assert [] + [op] == [op];
      EventDecides(cfg, s, t, free, h, ev, row, [op], row.Current() == AwaitingApproval, Some(last));
      EventFinal(cfg, s, s, t, free, h, ev, row, last);
    }
  }

  /** An event that ends the call closes its row, is remembered, and fails its caller. */
  lemma EventConcludes(cfg: Config, s: State, t: nat, free: bool, h: Handle, ev: Event, row: Row) returns (s': State)
    requires EventStands(s, t, h, ev, row) && EventLog(ev.kind, row.Current()).Some? && Denied !in row.log
    requires row.Current() == AwaitingApproval ==> HasWaiter(s, ev)
    ensures ComesTo(Turn(cfg, t, free), s, s')
    ensures var added := EventLog(ev.kind, row.Current()).value;
            && s'.rows == s.rows[ev.call := Concluded(row, added, ev.outcome)]
            && Settles(cfg, s, s', t, ev.call, Record(None, ev.request, h.key, added[|added| - 1]), ByFailure, None)
  {
    var added := EventLog(ev.kind, row.Current()).value;
    EventCloses(cfg, s, t, free, h, ev, row);
    s' := EventFinishes(cfg, s, t, free, h, ev, Concluded(row, added, ev.outcome), added[|added| - 1]);
  }

  lemma EventFinishes(cfg: Config, s: State, t: nat, free: bool, h: Handle, ev: Event, closed: Row, last: Status) returns (s': State)
    requires t in s.tasks
    requires ComesTo(Turn(cfg, t, free), s, At(WithRow(s, ev.call, closed), t, Handling(h, ev, EventRun([], Some(last)))))
    ensures ComesTo(Turn(cfg, t, free), s, s') && s'.rows == s.rows[ev.call := closed]
    ensures Settles(cfg, s, s', t, ev.call, Record(None, ev.request, h.key, last), ByFailure, None)
  {
    var pc, record := Handling(h, ev, EventRun([], Some(last))), Record(None, ev.request, h.key, last);
    FinishIsSettling(cfg, s, t, pc, ev.call, closed, record, ByFailure, None);
    var s1 := At(WithRow(s, ev.call, closed), t, pc);
    s' := Settled(FinishCall(cfg, s1, t, ev.call, record, ByFailure), t, None);
    Acts(cfg, s, s1, t, free, pc, GatewayMachine.Move(Finish(ev.call, record, ByFailure), None), s');
  }

  // -------------------------------------------------------------- all other events

  /** A started event moves a queued call to running, and nothing else. */
  lemma EventStartsCall(cfg: Config, s: State, t: nat, free: bool, h: Handle, ev: Event, row: Row)
    requires EventStands(s, t, h, ev, row) && ev.kind == StartedEvent && row.Current() == Queued
    ensures ComesTo(Turn(cfg, t, free), s, s.(rows := s.rows[ev.call := row.(log := row.log + [Running])], tasks := s.tasks - {t}))
  {
    EventStartRuns(cfg, s, t, free, h, ev, row);
    Stops(cfg, s, WithRow(s, ev.call, Logged(row, [Running])), t, free, Handling(h, ev, EventRun([], None)));
  }

  lemma EventStartRuns(cfg: Config, s: State, t: nat, free: bool, h: Handle, ev: Event, row: Row)
    requires EventStands(s, t, h, ev, row) && ev.kind == StartedEvent && row.Current() == Queued
    ensures ComesTo(Turn(cfg, t, free), s, At(WithRow(s, ev.call, Logged(row, [Running])), t, Handling(h, ev, EventRun([], None))))
  {
    assert [Start] + [] == [Start];
    EventDecides(cfg, s, t, free, h, ev, row, [Start], false, None);
    EventOperates(cfg, s, s, t, free, h, ev, Start, [], None, Logged(row, [Running]));
  }

  /** Events that have no durable effect: those only the server may originate, a
      completion without its result, and repetitions. */
  predicate IsSilent(kind: EventType, current: Status) {
    || kind in {ProposedEvent, RequestEvent, ApprovalRequiredEvent, QueuedEvent, CompletedEvent}
    || (kind == StartedEvent && current == Running)
    || (kind == ApprovedEvent && current !in {AwaitingApproval, Approved})
    || (kind == DeniedEvent && current != AwaitingApproval)
  }

  lemma EventIsSilent(cfg: Config, s: State, t: nat, free: bool, h: Handle, ev: Event, row: Row)
    requires EventStands(s, t, h, ev, row) && IsSilent(ev.kind, row.Current())
    ensures ComesTo(Turn(cfg, t, free), s, s.(tasks := s.tasks - {t}))
  {
    EventReads(cfg, s, t, free, h, ev, row);
    Stops(cfg, s, s, t, free, Handling(h, ev, EventDecide(row.Current())));
  }

  /** A client that reports its own disconnection is disconnected. */
  lemma EventHangsUp(cfg: Config, s: State, t: nat, free: bool, h: Handle, ev: Event, row: Row)
    requires EventStands(s, t, h, ev, row) && ev.kind == ClientDisconnectedEvent
    ensures ComesTo(Turn(cfg, t, free), s, At(s, t, Closing(h, Finally(true, None), CloseLock)))
  {
    EventReads(cfg, s, t, free, h, ev, row);
    Moves(cfg, s, s, t, free, Handling(h, ev, EventDecide(row.Current())), Closing(h, Finally(true, None), CloseLock));
  }

  /** An approval of a call that awaits it, from the session it was sent to. */
  ghost predicate ApprovalStands(s: State, t: nat, h: Handle, ev: Event, row: Row) {
    && EventStands(s, t, h, ev, row) && ev.kind == ApprovedEvent
    && row.Current() == AwaitingApproval && Approved !in row.log
    && HasWaiter(s, ev) && s.calls[s.pending[ev.call]].awaiting
    && s.pending[ev.call] in s.futures && s.futures[s.pending[ev.call]] == Open
  }

  lemma ApprovalPasses(cfg: Config, s: State, t: nat, free: bool, h: Handle, ev: Event, row: Row)
    requires ApprovalStands(s, t, h, ev, row)
    ensures ComesTo(Turn(cfg, t, free), s, At(s, t, Handling(h, ev, EventApprove(s.pending[ev.call]))))
  {
    EventReads(cfg, s, t, free, h, ev, row);
    Moves(cfg, s, s, t, free, Handling(h, ev, EventDecide(row.Current())), Handling(h, ev, EventApprove(s.pending[ev.call])));
  }

  lemma ApprovalIsRecorded(cfg: Config, s: State, t: nat, free: bool, h: Handle, ev: Event, row: Row)
    requires ApprovalStands(s, t, h, ev, row)
    ensures ComesTo(Turn(cfg, t, free), s,
                    At(WithRow(s, ev.call, Logged(row, [Approved])), t, Handling(h, ev, EventQueue(s.pending[ev.call]))))
  {
    var p := s.pending[ev.call];
    ApprovalPasses(cfg, s, t, free, h, ev, row);
    Transacts(cfg, s, s, t, free, Handling(h, ev, EventApprove(p)), ev.call, Approve, Logged(row, [Approved]),
              Handling(h, ev, EventQueue(p)), None);
  }

  lemma ApprovalIsQueued(cfg: Config, s: State, t: nat, h: Handle, ev: Event, row: Row)
    requires ApprovalStands(s, t, h, ev, row)
    ensures ComesTo(Turn(cfg, t, true), s,
                    At(WithRow(s, ev.call, Logged(row, [Approved, Queued])), t, Handling(h, ev, EventArm(s.pending[ev.call]))))
  {
    var p, row1 := s.pending[ev.call], Logged(row, [Approved]);
    ApprovalIsRecorded(cfg, s, t, true, h, ev, row);
    LoggedTwice(s, ev.call, row, [Approved], [Queued]);
    assert [Approved] + [Queued] == [Approved, Queued];
    QueueIsGranted(cfg, s, WithRow(s, ev.call, row1), t, h, ev, p);
  }

  lemma QueueIsGranted(cfg: Config, start: State, s: State, t: nat, h: Handle, ev: Event, p: nat)
    requires t in s.tasks && ev.call in s.rows && |s.rows[ev.call].log| > 0 && s.rows[ev.call].Current() == Approved
    requires ComesTo(Turn(cfg, t, true), start, At(s, t, Handling(h, ev, EventQueue(p))))
    ensures ComesTo(Turn(cfg, t, true), start,
                    At(WithRow(s, ev.call, Logged(s.rows[ev.call], [Queued])), t, Handling(h, ev, EventArm(p))))
  {
    Transacts(cfg, start, s, t, true, Handling(h, ev, EventQueue(p)), ev.call, Queue, Logged(s.rows[ev.call], [Queued]),
              Handling(h, ev, EventArm(p)), Some(Closing(h, Finally(true, None), CloseLock)));
  }

  /** With a free slot an approval queues the call, and its waiter goes on under a fresh
      deadline, which no longer is the approval's. */
  lemma ApprovalLands(cfg: Config, s: State, t: nat, h: Handle, ev: Event, row: Row) returns (s': State)
    requires ApprovalStands(s, t, h, ev, row) && t < s.nextTid && forall u | u in s.tasks :: u < s.nextTid
    ensures ComesTo(Turn(cfg, t, true), s, s') && t !in s'.tasks
    ensures s'.rows == s.rows[ev.call := row.(log := row.log + [Approved, Queued])]
    ensures var p := s.pending[ev.call];
            && s'.calls == s.calls[p := s.calls[p].(awaiting := false, timer := Some(s.nextTid))]
            && s.nextTid in s'.tasks && s'.tasks[s.nextTid] == Timer(p, Asleep)
            && (forall u | u in s'.tasks && u != s.nextTid :: u in s.tasks && (s'.tasks[u] == s.tasks[u] || (IsTimerFor(s.tasks[u], p) && s'.tasks[u].Unwinding?)))
    ensures s' == s.(rows := s'.rows, calls := s'.calls, tasks := s'.tasks, nextTid := s.nextTid + 1)
  {
    var p, pc := s.pending[ev.call], Handling(h, ev, EventArm(s.pending[ev.call]));
    ApprovalIsQueued(cfg, s, t, h, ev, row);
    var s0 := WithRow(s, ev.call, Logged(row, [Approved, Queued]));
    var s1 := At(s0, t, pc);
    s' := Settled(RearmTimer(s1, t, p), t, None);
    Acts(cfg, s, s1, t, true, pc, GatewayMachine.Move(Rearm(p), None), s');
    ApprovalRearms(s0, t, pc, p);
  }

  lemma ApprovalRearms(s: State, t: nat, pc: Pc, p: nat)
    requires t in s.tasks && !pc.Timer? && p in s.calls && forall u | u in s.tasks :: u < s.nextTid
    ensures var s' := Settled(RearmTimer(At(s, t, pc), t, p), t, None);
            && t !in s'.tasks && s.nextTid in s'.tasks && s'.tasks[s.nextTid] == Timer(p, Asleep)
            && (forall u | u in s'.tasks && u != s.nextTid :: u in s.tasks && (s'.tasks[u] == s.tasks[u] || (IsTimerFor(s.tasks[u], p) && s'.tasks[u].Unwinding?)))
            && s' == s.(calls := s.calls[p := s.calls[p].(awaiting := false, timer := Some(s.nextTid))], tasks := s'.tasks,
                        nextTid := s.nextTid + 1)
  {
    CutLeaves(At(s, t, pc), t, p);
    var cut := CancelTimer(At(s, t, pc), t, p);
    assert s.calls[p := s.calls[p].(awaiting := false)][p := s.calls[p].(awaiting := false, timer := Some(s.nextTid))]
        == s.calls[p := s.calls[p].(awaiting := false, timer := Some(s.nextTid))];
  }

  /** Without one the approval is recorded, and the session is disconnected. */
  lemma ApprovalWithoutSlot(cfg: Config, s: State, t: nat, h: Handle, ev: Event, row: Row)
    requires ApprovalStands(s, t, h, ev, row)
    ensures ComesTo(Turn(cfg, t, false), s,
                    At(s.(rows := s.rows[ev.call := row.(log := row.log + [Approved])]), t, Closing(h, Finally(true, None), CloseLock)))
  {
    var p, row1 := s.pending[ev.call], Logged(row, [Approved]);
    ApprovalIsRecorded(cfg, s, t, false, h, ev, row);
    var s0 := WithRow(s, ev.call, row1);
    QueueIsRefused(cfg, s, s0, t, h, ev, p);
  }

  lemma QueueIsRefused(cfg: Config, start: State, s: State, t: nat, h: Handle, ev: Event, p: nat)
    requires t in s.tasks && ev.call in s.rows && |s.rows[ev.call].log| > 0 && s.rows[ev.call].Current() == Approved
    requires ComesTo(Turn(cfg, t, false), start, At(s, t, Handling(h, ev, EventQueue(p))))
    ensures ComesTo(Turn(cfg, t, false), start, At(s, t, Closing(h, Finally(true, None), CloseLock)))
  {
    var s1, row, next := At(s, t, Handling(h, ev, EventQueue(p))), s.rows[ev.call], Closing(h, Finally(true, None), CloseLock);
    assert RunOperation(s1, ev.call, Queue, World(true, false)) == (WriteRow(ev.call, row), Refused);
    assert s.rows[ev.call := row] == s.rows && s.tasks[t := Handling(h, ev, EventQueue(p))][t := next] == s.tasks[t := next];
    Acts(cfg, start, s1, t, false, Handling(h, ev, EventQueue(p)), GatewayMachine.Move(WriteRow(ev.call, row), Some(next)), At(s, t, next));
  }
}
