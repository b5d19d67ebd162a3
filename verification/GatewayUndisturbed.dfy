/** What each coroutine of the gateway is for: its whole effect when nobody disturbs it,
    with every status written out. */
module GatewayUndisturbed {
  import opened ToolLifecycle
  import opened Options
  import opened ToolRepository
  import opened AgentProtocol
  import opened OrderedTable
  import opened GatewayMachine
  import opened GatewayAlone

  /** The row with further statuses in its log. */
  function Logged(row: Row, statuses: seq<Status>): Row {
    row.(log := row.log + statuses)
  }

  function WithRow(s: State, call: nat, row: Row): State {
    s.(rows := s.rows[call := row])
  }

  /** The newest records, the call's own as the last one. */
  function Recorded(cfg: Config, s: State, call: nat, record: Record): seq<(nat, Record)> {
    Newest(Without(s.terminal, call) + [(call, record)], cfg.terminalRetention)
  }

  function FutureDone(s: State, p: nat, how: Settlement): map<nat, Future> {
    if p in s.futures && s.futures[p] == Open then s.futures[p := Done(how)] else s.futures
  }

  // ------------------------------------------------------------------- a deadline

  /** A deadline whose waiter is in the table and knows whether its approval is still
      awaited. */
  ghost predicate DeadlineStands(s: State, t: nat, p: nat, row: Row) {
    && t in s.tasks && s.tasks[t] == Timer(p, Asleep)
    && Alone(s, t, DispatchLock) && Alone(s, t, ResultLock)
    && p in s.calls && IsWaiting(s, CallOf(s, p), p)
    && CallOf(s, p) in s.rows && s.rows[CallOf(s, p)] == row && |row.log| > 0
    && row.Current() in {AwaitingApproval, Queued, Running}
    && (s.calls[p].awaiting ==> row.Current() == AwaitingApproval)
  }

  lemma DeadlineLocks(cfg: Config, s: State, t: nat, free: bool, p: nat, row: Row)
    requires DeadlineStands(s, t, p, row)
    ensures ComesTo(Turn(cfg, t, free), s, At(s, t, Timer(p, AwaitResult)))
  {
    assert At(s, t, Timer(p, Asleep)) == s;
    StepsOn(Turn(cfg, t, free), s);
    Moves(cfg, s, s, t, free, Timer(p, Asleep), Timer(p, AwaitDispatch));
    Moves(cfg, s, s, t, free, Timer(p, AwaitDispatch), Timer(p, AwaitResult));
  }

  lemma DeadlineWakes(cfg: Config, s: State, t: nat, free: bool, p: nat, row: Row)
    requires DeadlineStands(s, t, p, row)
    ensures ComesTo(Turn(cfg, t, free), s, At(s, t, Timer(p, TimerRead)))
  {
    DeadlineLocks(cfg, s, t, free, p, row);
    Moves(cfg, s, s, t, free, Timer(p, AwaitResult), Timer(p, TimerCheck));
    Moves(cfg, s, s, t, free, Timer(p, TimerCheck), Timer(p, TimerRead));
  }

  lemma DeadlineReads(cfg: Config, s: State, t: nat, free: bool, p: nat, row: Row, ops: seq<Operation>)
    requires DeadlineStands(s, t, p, row) && ops == if row.Current() == Queued then [Start, TimeOut] else [TimeOut]
    ensures ComesTo(Turn(cfg, t, free), s, At(s, t, Timer(p, TimerRun(ops))))
  {
    DeadlineWakes(cfg, s, t, free, p, row);
    Moves(cfg, s, s, t, free, Timer(p, TimerRead), Timer(p, TimerRun(ops)));
  }

  lemma DeadlineStarts(cfg: Config, s: State, t: nat, free: bool, p: nat, row: Row)
    requires DeadlineStands(s, t, p, row) && row.Current() == Queued
    ensures ComesTo(Turn(cfg, t, free), s, At(WithRow(s, CallOf(s, p), Logged(row, [Running])), t, Timer(p, TimerRun([TimeOut]))))
  {
    DeadlineReads(cfg, s, t, free, p, row, [Start, TimeOut]);
    assert [Start, TimeOut][1..] == [TimeOut];
    Transacts(cfg, s, s, t, free, Timer(p, TimerRun([Start, TimeOut])), CallOf(s, p), Start, Logged(row, [Running]),
              Timer(p, TimerRun([TimeOut])), Some(Timer(p, TimerFailed)));
  }

  lemma DeadlineTimesOut(cfg: Config, start: State, s: State, t: nat, free: bool, p: nat, row: Row)
    requires t in s.tasks && p in s.calls
    requires CallOf(s, p) in s.rows && s.rows[CallOf(s, p)] == row && |row.log| > 0
    requires row.Current() in {AwaitingApproval, Running}
    requires ComesTo(Turn(cfg, t, free), start, At(s, t, Timer(p, TimerRun([TimeOut]))))
    ensures ComesTo(Turn(cfg, t, free), start, At(WithRow(s, CallOf(s, p), Logged(row, [TimedOut])), t, Timer(p, TimerRun([]))))
  {
    assert [TimeOut][1..] == [];
    Transacts(cfg, start, s, t, free, Timer(p, TimerRun([TimeOut])), CallOf(s, p), TimeOut, Logged(row, [TimedOut]),
              Timer(p, TimerRun([])), Some(Timer(p, TimerFailed)));
  }

  lemma DeadlineClosesQueued(cfg: Config, s: State, t: nat, free: bool, p: nat, row: Row)
    requires DeadlineStands(s, t, p, row) && row.Current() == Queued
    ensures ComesTo(Turn(cfg, t, free), s, At(WithRow(s, CallOf(s, p), Logged(row, [Running, TimedOut])), t, Timer(p, TimerRun([]))))
  {
    var c, row1 := CallOf(s, p), Logged(row, [Running]);
    DeadlineStarts(cfg, s, t, free, p, row);
    DeadlineTimesOut(cfg, s, WithRow(s, c, row1), t, free, p, row1);
    LoggedTwice(s, c, row, [Running], [TimedOut]);
    assert [Running] + [TimedOut] == [Running, TimedOut];
  }

  lemma LoggedTwice(s: State, c: nat, row: Row, first: seq<Status>, more: seq<Status>)
    ensures WithRow(WithRow(s, c, Logged(row, first)), c, Logged(Logged(row, first), more))
            == WithRow(s, c, Logged(row, first + more))
  {
    assert row.log + first + more == row.log + (first + more);
    assert s.rows[c := Logged(row, first)][c := Logged(row, first + more)] == s.rows[c := Logged(row, first + more)];
  }

  lemma DeadlineCloses(cfg: Config, s: State, t: nat, free: bool, p: nat, row: Row)
    requires DeadlineStands(s, t, p, row) && row.Current() != Queued
    ensures ComesTo(Turn(cfg, t, free), s, At(WithRow(s, CallOf(s, p), Logged(row, [TimedOut])), t, Timer(p, TimerRun([]))))
  {
    DeadlineReads(cfg, s, t, free, p, row, [TimeOut]);
    DeadlineTimesOut(cfg, s, s, t, free, p, row);
  }

  /** The last section of a deadline. */
  lemma DeadlineEnds(cfg: Config, s: State, t: nat, p: nat, row: Row) returns (s': State)
    requires t in s.tasks && p in s.calls && IsWaiting(s, CallOf(s, p), p)
    ensures s' == Settled(ExpireCall(cfg, At(WithRow(s, CallOf(s, p), row), t, Timer(p, TimerRun([]))), p), t, None)
    ensures var req := s.calls[p].request;
            s' == s.(rows := s.rows[req.call := row], pending := s.pending - {req.call}, futures := FutureDone(s, p, ByTimeout),
                     terminal := Recorded(cfg, s, req.call, Record(None, req.request, req.key, TimedOut)), tasks := s.tasks - {t})
  {
    var s1 := At(WithRow(s, CallOf(s, p), row), t, Timer(p, TimerRun([])));
    s' := Settled(ExpireCall(cfg, s1, p), t, None);
    assert s1.tasks - {t} == s.tasks - {t};
  }

  /** A deadline times its call out: durably, in the table of remembered calls, and for
      the caller. Nothing else changes, in particular not the row's outcome. */
  lemma DeadlineExpires(cfg: Config, s: State, t: nat, free: bool, p: nat, row: Row) returns (s': State)
    requires DeadlineStands(s, t, p, row)
    ensures ComesTo(Turn(cfg, t, free), s, s')
    ensures var req := s.calls[p].request;
            && s'.rows == s.rows[req.call := row.(log := row.log + if row.Current() == Queued then [Running, TimedOut] else [TimedOut])]
            && s'.pending == s.pending - {req.call}
            && s'.futures == FutureDone(s, p, ByTimeout)
            && s'.terminal == Recorded(cfg, s, req.call, Record(None, req.request, req.key, TimedOut))
            && s' == s.(rows := s'.rows, pending := s'.pending, futures := s'.futures, terminal := s'.terminal, tasks := s.tasks - {t})
  {
    if row.Current() == Queued {
      DeadlineClosesQueued(cfg, s, t, free, p, row);
    } else {
      DeadlineCloses(cfg, s, t, free, p, row);
    }
    s' := DeadlineFinishes(cfg, s, t, free, p, Logged(row, if row.Current() == Queued then [Running, TimedOut] else [TimedOut]));
  }

  lemma DeadlineFinishes(cfg: Config, s: State, t: nat, free: bool, p: nat, closed: Row) returns (s': State)
    requires t in s.tasks && p in s.calls && IsWaiting(s, CallOf(s, p), p)
    requires ComesTo(Turn(cfg, t, free), s, At(WithRow(s, CallOf(s, p), closed), t, Timer(p, TimerRun([]))))
    ensures ComesTo(Turn(cfg, t, free), s, s')
    ensures var req := s.calls[p].request;
            s' == s.(rows := s.rows[req.call := closed], pending := s.pending - {req.call}, futures := FutureDone(s, p, ByTimeout),
                     terminal := Recorded(cfg, s, req.call, Record(None, req.request, req.key, TimedOut)), tasks := s.tasks - {t})
  {
    s' := DeadlineEnds(cfg, s, t, p, closed);
    Acts(cfg, s, At(WithRow(s, CallOf(s, p), closed), t, Timer(p, TimerRun([]))), t, free, Timer(p, TimerRun([])),
         GatewayMachine.Move(Expired(p), None), s');
  }

  // ------------------------------------------------------------------- a dispatch

  /** What a dispatch asks of the tables. */
  ghost predicate Deliverable(s: State, req: Request, free: bool) {
    && Routed(s, req)
    && var row, tool := s.rows[req.call], s.sessions[req.key].tools[req.tool];
       && req.timeout <= tool.maximumTimeout
       && req.call !in s.pending && !Has(s.terminal, req.call)
       && if tool.approval then row.Current() == AwaitingApproval
          else row.Current() == Validated && !row.approvalRequired && free
  }

  /** The session offers the tool, and the row is the request's. */
  ghost predicate Routed(s: State, req: Request) {
    && req.key in s.sessions && req.tool in s.sessions[req.key].tools
    && req.call in s.rows
    && var row := s.rows[req.call];
       |row.log| > 0 && row.request == req.request && row.key == req.key && row.tool == req.tool
  }

  ghost predicate DispatchStands(s: State, t: nat, req: Request) {
    && t in s.tasks && s.tasks[t] == Dispatching(req, AwaitLock) && t < s.nextTid && s.nextPid !in s.calls
    && Alone(s, t, DispatchLock)
  }

  lemma DispatchRoutes(cfg: Config, s: State, t: nat, free: bool, req: Request)
    requires DispatchStands(s, t, req)
    ensures ComesTo(Turn(cfg, t, free), s, At(s, t, Dispatching(req, Route)))
  {
    assert At(s, t, Dispatching(req, AwaitLock)) == s;
    StepsOn(Turn(cfg, t, free), s);
    Moves(cfg, s, s, t, free, Dispatching(req, AwaitLock), Dispatching(req, Route));
  }

  /** Where a routed dispatch checks what it has read. */
  function Checking(s: State, req: Request): Pc
    requires req.key in s.sessions && req.tool in s.sessions[req.key].tools
    requires req.call in s.rows && |s.rows[req.call].log| > 0
  {
    Dispatching(req, CheckCall(s.sessions[req.key].conn, s.sessions[req.key].tools[req.tool], s.rows[req.call].Current()))
  }

  lemma DispatchReads(cfg: Config, s: State, t: nat, free: bool, req: Request)
    requires DispatchStands(s, t, req) && Routed(s, req)
    ensures ComesTo(Turn(cfg, t, free), s, At(s, t, Checking(s, req)))
  {
    var session := s.sessions[req.key];
    var read := Dispatching(req, ReadCall(session.conn, session.tools[req.tool]));
    DispatchRoutes(cfg, s, t, free, req);
    Moves(cfg, s, s, t, free, Dispatching(req, Route), read);
    Moves(cfg, s, s, t, free, read, Checking(s, req));
  }

  function Inserting(s: State, req: Request): Pc
    requires req.key in s.sessions && req.tool in s.sessions[req.key].tools
  {
    Dispatching(req, InsertIt(s.sessions[req.key].conn, s.sessions[req.key].tools[req.tool]))
  }

  /** The row of a request that is on its way: queued, unless an approval is awaited. */
  function Dispatched(s: State, req: Request): Row
    requires req.key in s.sessions && req.tool in s.sessions[req.key].tools && req.call in s.rows
  {
    if s.sessions[req.key].tools[req.tool].approval then s.rows[req.call]
    else s.rows[req.call].(log := s.rows[req.call].log + [Queued])
  }

  lemma DispatchPasses(cfg: Config, s: State, t: nat, free: bool, req: Request)
    requires DispatchStands(s, t, req) && Deliverable(s, req, free)
    ensures ComesTo(Turn(cfg, t, free), s, At(WithRow(s, req.call, Dispatched(s, req)), t, Inserting(s, req)))
  {
    var session := s.sessions[req.key];
    var tool := session.tools[req.tool];
    DispatchReads(cfg, s, t, free, req);
    if tool.approval {
      assert WithRow(s, req.call, s.rows[req.call]) == s by { assert s.rows[req.call := s.rows[req.call]] == s.rows; }
      Moves(cfg, s, s, t, free, Checking(s, req), Inserting(s, req));
    } else {
      Moves(cfg, s, s, t, free, Checking(s, req), Dispatching(req, QueueIt(session.conn, tool)));
      DispatchQueues(cfg, s, t, free, req);
    }
  }

  lemma DispatchQueues(cfg: Config, s: State, t: nat, free: bool, req: Request)
    requires DispatchStands(s, t, req) && Deliverable(s, req, free) && !s.sessions[req.key].tools[req.tool].approval
    requires ComesTo(Turn(cfg, t, free), s,
                     At(s, t, Dispatching(req, QueueIt(s.sessions[req.key].conn, s.sessions[req.key].tools[req.tool]))))
    ensures ComesTo(Turn(cfg, t, free), s, At(WithRow(s, req.call, Dispatched(s, req)), t, Inserting(s, req)))
  {
    var session, row := s.sessions[req.key], Dispatched(s, req);
    var tool := session.tools[req.tool];
    var pc, next := Dispatching(req, QueueIt(session.conn, tool)), Inserting(s, req);
    var s1 := At(s, t, pc);
    assert Perform(s.rows[req.call], Queue, World(true, free)) == (row, Changed);
    assert RunOperation(s1, req.call, Queue, World(true, free)) == (WriteRow(req.call, row), Changed);
    assert s.tasks[t := pc][t := next] == s.tasks[t := next];
    Acts(cfg, s, s1, t, free, pc, GatewayMachine.Move(WriteRow(req.call, row), Some(next)), At(WithRow(s, req.call, row), t, next));
  }

  /** A dispatch that may go out is written to the socket exactly once. Its waiter is in
      the table, unresolved, with a deadline that watches it; the row is queued unless
      its approval is awaited. */
  lemma DispatchDelivers(cfg: Config, s: State, t: nat, free: bool, req: Request) returns (s': State)
    requires DispatchStands(s, t, req) && Deliverable(s, req, free)
    ensures ComesTo(Turn(cfg, t, free), s, s') && t !in s'.tasks
    ensures var tool, row := s.sessions[req.key].tools[req.tool], s.rows[req.call];
            && s'.sent == s.sent + [req.call]
            && s'.rows == s.rows[req.call := if tool.approval then row else row.(log := row.log + [Queued])]
            && s'.pending == s.pending[req.call := s.nextPid]
            && s'.calls == s.calls[s.nextPid := Call(req, s.sessions[req.key].conn, t, tool.approval, Some(s.nextTid), None)]
            && s'.futures == s.futures[s.nextPid := Open]
            && s'.tasks == (s.tasks - {t})[s.nextTid := Timer(s.nextPid, Asleep)]
    ensures s' == s.(rows := s'.rows, pending := s'.pending, calls := s'.calls, futures := s'.futures, tasks := s'.tasks,
                     sent := s'.sent, nextPid := s.nextPid + 1, nextTid := s.nextTid + 1)
  {
    var session, p := s.sessions[req.key], s.nextPid;
    var tool := session.tools[req.tool];
    var s1 := At(InsertCall(WithRow(s, req.call, Dispatched(s, req)), t, req, session.conn, tool.approval), t, Sending(p, Write(false)));
    DispatchInserts(cfg, s, t, free, req, s1);
    s' := DispatchWrites(cfg, s, s1, t, free, p);
    DispatchLeaves(s, t, Call(req, session.conn, t, tool.approval, None, None), Sending(p, Write(false)));
  }

  lemma DispatchInserts(cfg: Config, s: State, t: nat, free: bool, req: Request, s1: State)
    requires DispatchStands(s, t, req) && Deliverable(s, req, free)
    requires var session := s.sessions[req.key];
             s1 == At(InsertCall(WithRow(s, req.call, Dispatched(s, req)), t, req, session.conn, session.tools[req.tool].approval), t,
                      Sending(s.nextPid, Write(false)))
    ensures ComesTo(Turn(cfg, t, free), s, s1)
  {
    var session, next := s.sessions[req.key], Sending(s.nextPid, Write(false));
    DispatchPasses(cfg, s, t, free, req);
    assert s.tasks[t := Inserting(s, req)][t := next] == s.tasks[t := next];
    Acts(cfg, s, At(WithRow(s, req.call, Dispatched(s, req)), t, Inserting(s, req)), t, free, Inserting(s, req),
         GatewayMachine.Move(Insert(req, session.conn, session.tools[req.tool].approval), Some(next)), s1);
  }

  lemma DispatchLeaves(s: State, t: nat, call: Call, pc: Pc)
    requires t < s.nextTid
    ensures s.tasks[t := pc][s.nextTid := Timer(s.nextPid, Asleep)] - {t} == (s.tasks - {t})[s.nextTid := Timer(s.nextPid, Asleep)]
    ensures s.calls[s.nextPid := call][s.nextPid := call.(timer := Some(s.nextTid))] == s.calls[s.nextPid := call.(timer := Some(s.nextTid))]
  {
  }

  /** From the write to the end. */
  lemma DispatchWrites(cfg: Config, start: State, s: State, t: nat, free: bool, p: nat) returns (s': State)
    requires t in s.tasks && s.tasks[t] == Sending(p, Write(false)) && t < s.nextTid
    requires p in s.calls && s.calls[p].timer.None? && IsWaiting(s, CallOf(s, p), p) && p in s.futures && s.futures[p] == Open
    requires ComesTo(Turn(cfg, t, free), start, s)
    ensures ComesTo(Turn(cfg, t, free), start, s')
    ensures s' == s.(sent := s.sent + [CallOf(s, p)], calls := s.calls[p := s.calls[p].(timer := Some(s.nextTid))],
                     tasks := s.tasks[s.nextTid := Timer(p, Asleep)] - {t}, nextTid := s.nextTid + 1)
  {
    var wrote := s.(sent := s.sent + [CallOf(s, p)]);
    var s1 := At(wrote, t, Sending(p, Write(true)));
    Acts(cfg, start, s, t, free, Sending(p, Write(false)), GatewayMachine.Move(Deliver(p), Some(Sending(p, Write(true)))), s1);
    Moves(cfg, start, wrote, t, free, Sending(p, Write(true)), Sending(p, ArmIt));
    var s2 := At(wrote, t, Sending(p, ArmIt));
    s' := Settled(ArmTimer(s2, p), t, None);
    Acts(cfg, start, s2, t, free, Sending(p, ArmIt), GatewayMachine.Move(Arm(p), None), s');
    assert s.tasks[t := Sending(p, ArmIt)][s.nextTid := Timer(p, Asleep)] - {t} == s.tasks[s.nextTid := Timer(p, Asleep)] - {t};
  }

  /** Any other dispatch ends without a trace. */
  lemma DispatchRefuses(cfg: Config, s: State, t: nat, free: bool, req: Request)
    requires DispatchStands(s, t, req) && !Deliverable(s, req, free)
    ensures ComesTo(Turn(cfg, t, free), s, s.(tasks := s.tasks - {t}))
  {
    DispatchRoutes(cfg, s, t, free, req);
    if !(req.key in s.sessions && req.tool in s.sessions[req.key].tools) {
      Stops(cfg, s, s, t, free, Dispatching(req, Route));
    } else if !Routed(s, req) {
      var read := Dispatching(req, ReadCall(s.sessions[req.key].conn, s.sessions[req.key].tools[req.tool]));
      Moves(cfg, s, s, t, free, Dispatching(req, Route), read);
      Stops(cfg, s, s, t, free, read);
    } else {
      DispatchReads(cfg, s, t, free, req);
      DispatchFailsChecks(cfg, s, t, free, req);
    }
  }

  lemma Stops(cfg: Config, start: State, s: State, t: nat, free: bool, pc: Pc)
    requires t in s.tasks && Wants(pc).None? && Plan(At(s, t, pc), pc, Smoothly(pc, free)) == Stop()
    requires ComesTo(Turn(cfg, t, free), start, At(s, t, pc))
    ensures ComesTo(Turn(cfg, t, free), start, s.(tasks := s.tasks - {t}))
  {
    assert s.tasks[t := pc] - {t} == s.tasks - {t};
    Acts(cfg, start, At(s, t, pc), t, free, pc, Stop(), s.(tasks := s.tasks - {t}));
  }

  lemma DispatchFailsChecks(cfg: Config, s: State, t: nat, free: bool, req: Request)
    requires DispatchStands(s, t, req) && Routed(s, req) && !Deliverable(s, req, free)
    requires ComesTo(Turn(cfg, t, free), s, At(s, t, Checking(s, req)))
    ensures ComesTo(Turn(cfg, t, free), s, s.(tasks := s.tasks - {t}))
  {
    var tool, row := s.sessions[req.key].tools[req.tool], s.rows[req.call];
    var pc := Dispatching(req, QueueIt(s.sessions[req.key].conn, tool));
    var s1 := At(s, t, Checking(s, req));
    if PlanDispatch(s1, req, Checking(s, req).at, Undisturbed(free)) == Stop() {
      Stops(cfg, s, s, t, free, Checking(s, req));
    } else {
      Moves(cfg, s, s, t, free, Checking(s, req), pc);
      var s2 := At(s, t, pc);
      assert Perform(row, Queue, World(true, free)) == (row, Refused);
      assert RunOperation(s2, req.call, Queue, World(true, free)) == (WriteRow(req.call, row), Refused);
      assert s.rows[req.call := row] == s.rows && s.tasks[t := pc] - {t} == s.tasks - {t};
      Acts(cfg, s, s2, t, free, pc, GatewayMachine.Move(WriteRow(req.call, row), None), s.(tasks := s.tasks - {t}));
    }
  }

  // --------------------------------------------------------------------- a result

  /** A result of the live session for one of its calls. */
  ghost predicate ResultStands(s: State, t: nat, h: Handle, res: Result, row: Row) {
    && t in s.tasks && s.tasks[t] == Receiving(h, res, ResultEnter) && Alone(s, t, ResultLock)
    && LiveSession(s, h) && res.key == h.key
    && res.call in s.rows && s.rows[res.call] == row && |row.log| > 0
    && row.request == res.request && row.key == res.key && row.tool == res.tool
  }

  /** What a result adds to the log of a call that has not ended; None when it comes too
      early. */
  function ResultLog(status: Status, current: Status): Option<seq<Status>> {
    if current == Running then
      if status in {Completed, Cancelled, TimedOut} then Some([status]) else Some([Failed])
    else if current == Queued then
      if status == Cancelled then Some([Cancelled])
      else if status in {Completed, TimedOut} then Some([Running, status])
      else Some([Running, Failed])
    else if current == AwaitingApproval && status == TimedOut then Some([TimedOut])
    else None
  }

  lemma ResultReads(cfg: Config, s: State, t: nat, free: bool, h: Handle, res: Result, row: Row)
    requires ResultStands(s, t, h, res, row)
    ensures ComesTo(Turn(cfg, t, free), s, At(s, t, Receiving(h, res, ResultDecide(row.Current()))))
  {
    assert At(s, t, Receiving(h, res, ResultEnter)) == s;
    StepsOn(Turn(cfg, t, free), s);
    Moves(cfg, s, s, t, free, Receiving(h, res, ResultEnter), Receiving(h, res, ResultWait));
    Moves(cfg, s, s, t, free, Receiving(h, res, ResultWait), Receiving(h, res, ResultRead));
    Moves(cfg, s, s, t, free, Receiving(h, res, ResultRead), Receiving(h, res, ResultDecide(row.Current())));
  }

  lemma ResultDecides(cfg: Config, s: State, t: nat, free: bool, h: Handle, res: Result, row: Row, ops: seq<Operation>)
    requires ResultStands(s, t, h, res, row) && !Has(s.terminal, res.call)
    requires ResultScript(res.status, row.Current(), res.outcome) == Some(ops)
    ensures ComesTo(Turn(cfg, t, free), s, At(s, t, Receiving(h, res, ResultRun(ops))))
  {
    ResultReads(cfg, s, t, free, h, res, row);
    Moves(cfg, s, s, t, free, Receiving(h, res, ResultDecide(row.Current())), Receiving(h, res, ResultRun(ops)));
  }

  lemma ResultOperates(cfg: Config, start: State, s: State, t: nat, free: bool, h: Handle, res: Result,
                       op: Operation, rest: seq<Operation>, row: Row)
    requires t in s.tasks && res.call in s.rows && |s.rows[res.call].log| > 0
    requires Perform(s.rows[res.call], op, World(true, free)) == (row, Changed)
    requires ComesTo(Turn(cfg, t, free), start, At(s, t, Receiving(h, res, ResultRun([op] + rest))))
    ensures ComesTo(Turn(cfg, t, free), start, At(WithRow(s, res.call, row), t, Receiving(h, res, ResultRun(rest))))
  {
    assert ([op] + rest)[1..] == rest;
    Transacts(cfg, start, s, t, free, Receiving(h, res, ResultRun([op] + rest)), res.call, op, row, Receiving(h, res, ResultRun(rest)), None);
  }

  /** The last operation of a result. */
  function Final(status: Status, outcome: nat): Operation {
    match status
    case Completed => Complete(outcome)
    case Cancelled => Cancel
    case TimedOut => TimeOut
    case _ => Fail(outcome)
  }

  function Concluded(row: Row, added: seq<Status>, outcome: nat): Row
    requires added != []
  {
    row.(log := row.log + added, outcome := if added[|added| - 1] in {Completed, Failed} then Some(outcome) else row.outcome)
  }

  lemma ResultScriptIs(status: Status, current: Status, outcome: nat)
    requires status in {Completed, Failed, Cancelled, TimedOut, Denied, ClientDisconnected}
    requires ResultLog(status, current).Some?
    ensures ResultScript(status, current, outcome)
            == Some((if |ResultLog(status, current).value| == 2 then [Start] else []) + [Final(status, outcome)])
  {
  }

  lemma ResultCloses(cfg: Config, s: State, t: nat, free: bool, h: Handle, res: Result, row: Row)
    requires ResultStands(s, t, h, res, row) && !Has(s.terminal, res.call) && ResultLog(res.status, row.Current()).Some?
    requires res.status in {Completed, Failed, Cancelled, TimedOut, Denied, ClientDisconnected}
    ensures ComesTo(Turn(cfg, t, free), s,
                    At(WithRow(s, res.call, Concluded(row, ResultLog(res.status, row.Current()).value, res.outcome)), t,
                       Receiving(h, res, ResultRun([]))))
  {
    var added, op := ResultLog(res.status, row.Current()).value, Final(res.status, res.outcome);
    ResultScriptIs(res.status, row.Current(), res.outcome);
    if |added| == 2 {
      ResultDecides(cfg, s, t, free, h, res, row, [Start] + [op]);
      ResultStarts(cfg, s, t, free, h, res, row, op, added[1]);
    } else {
      assert [] + [op] == [op];
      ResultDecides(cfg, s, t, free, h, res, row, [op]);
      ResultFinal(cfg, s, s, t, free, h, res, row, added[0]);
    }
  }

  lemma ResultStarts(cfg: Config, s: State, t: nat, free: bool, h: Handle, res: Result, row: Row, op: Operation, last: Status)
    requires t in s.tasks && res.call in s.rows && s.rows[res.call] == row && |row.log| > 0
    requires op == Final(res.status, res.outcome) && row.Current() == Queued
    requires ResultLog(res.status, Running) == Some([last])
    requires res.status in {Completed, Failed, Cancelled, TimedOut, Denied, ClientDisconnected}
    requires ComesTo(Turn(cfg, t, free), s, At(s, t, Receiving(h, res, ResultRun([Start] + [op]))))
    ensures ComesTo(Turn(cfg, t, free), s,
                    At(WithRow(s, res.call, Concluded(row, [Running, last], res.outcome)), t, Receiving(h, res, ResultRun([]))))
  {
    ResultOperates(cfg, s, s, t, free, h, res, Start, [op], Logged(row, [Running]));
    ResultFinal(cfg, s, WithRow(s, res.call, Logged(row, [Running])), t, free, h, res, Logged(row, [Running]), last);
    ConcludedTwice(s, res.call, row, last, res.outcome);
  }

  lemma ConcludedTwice(s: State, c: nat, row: Row, last: Status, outcome: nat)
    ensures WithRow(WithRow(s, c, Logged(row, [Running])), c, Concluded(Logged(row, [Running]), [last], outcome))
            == WithRow(s, c, Concluded(row, [Running, last], outcome))
  {
    assert row.log + [Running] + [last] == row.log + [Running, last];
    var end := Concluded(row, [Running, last], outcome);
    assert s.rows[c := Logged(row, [Running])][c := end] == s.rows[c := end];
  }

  lemma ResultFinal(cfg: Config, start: State, s: State, t: nat, free: bool, h: Handle, res: Result, row: Row, last: Status)
    requires t in s.tasks && res.call in s.rows && s.rows[res.call] == row && |row.log| > 0
    requires ResultLog(res.status, row.Current()) == Some([last])
    requires res.status in {Completed, Failed, Cancelled, TimedOut, Denied, ClientDisconnected}
    requires ComesTo(Turn(cfg, t, free), start, At(s, t, Receiving(h, res, ResultRun([Final(res.status, res.outcome)]))))
    ensures ComesTo(Turn(cfg, t, free), start,
                    At(WithRow(s, res.call, Concluded(row, [last], res.outcome)), t, Receiving(h, res, ResultRun([]))))
  {
    assert [Final(res.status, res.outcome)] + [] == [Final(res.status, res.outcome)];
    ResultOperates(cfg, start, s, t, free, h, res, Final(res.status, res.outcome), [], Concluded(row, [last], res.outcome));
  }

  /** The call leaves the table, is remembered, loses its deadline, and its caller learns
      how it ended; the task ends or goes on. */
  ghost predicate Settles(cfg: Config, s: State, s': State, t: nat, call: nat, record: Record, how: Settlement, next: Option<Pc>) {
    && s'.pending == s.pending - {call}
    && s'.terminal == Recorded(cfg, s, call, record)
    && s'.futures == (if call in s.pending then FutureDone(s, s.pending[call], how) else s.futures)
    && (forall u | u != t :: u in s'.tasks <==> u in s.tasks)
    && (forall u | u in s.tasks && u != t ::
          s'.tasks[u] == s.tasks[u] || (call in s.pending && IsTimerFor(s.tasks[u], s.pending[call]) && s'.tasks[u].Unwinding?))
    && (call in s.pending ==> !TimerLive(s', s.pending[call]))
    && (if next.None? then t !in s'.tasks else t in s'.tasks && s'.tasks[t] == next.value)
    && s' == s.(rows := s'.rows, pending := s'.pending, terminal := s'.terminal, futures := s'.futures, tasks := s'.tasks)
  }

  /** Cutting a deadline off leaves every other task as it is. */
  lemma CutLeaves(s: State, t: nat, p: nat)
    requires t in s.tasks && !s.tasks[t].Timer?
    ensures var s' := CancelTimer(s, t, p);
            && s' == s.(tasks := s'.tasks) && s'.tasks.Keys == s.tasks.Keys && s'.tasks[t] == s.tasks[t] && !TimerLive(s', p)
            && forall u | u in s.tasks :: s'.tasks[u] == s.tasks[u] || (IsTimerFor(s.tasks[u], p) && s'.tasks[u].Unwinding?)
  {
  }

  lemma FinishIsSettling(cfg: Config, s: State, t: nat, pc: Pc, call: nat, row: Row, record: Record, how: Settlement, next: Option<Pc>)
    requires t in s.tasks && !pc.Timer? && (next.Some? ==> !next.value.Timer?)
    ensures var s' := Settled(FinishCall(cfg, At(WithRow(s, call, row), t, pc), t, call, record, how), t, next);
            Settles(cfg, s, s', t, call, record, how, next) && s'.rows == s.rows[call := row]
  {
    var s0 := At(WithRow(s, call, row), t, pc).(pending := s.pending - {call}, terminal := Recorded(cfg, s, call, record));
    if call in s.pending {
      var p := s.pending[call];
      CutLeaves(s0, t, p);
      var s1 := CancelTimer(s0, t, p);
      assert FinishCall(cfg, At(WithRow(s, call, row), t, pc), t, call, record, how) == Resolve(s1, p, how);
      assert Resolve(s1, p, how) == s1.(futures := FutureDone(s, p, how));
    }
  }

  /** A result is recorded durably with its outcome, resolves its caller, and ends the
      session if it reports a disconnection. */
  lemma ResultLands(cfg: Config, s: State, t: nat, free: bool, h: Handle, res: Result, row: Row) returns (s': State)
    requires ResultStands(s, t, h, res, row) && !Has(s.terminal, res.call) && ResultLog(res.status, row.Current()).Some?
    requires res.status in {Completed, Failed, Cancelled, TimedOut, Denied, ClientDisconnected}
    ensures ComesTo(Turn(cfg, t, free), s, s')
    ensures s'.rows == s.rows[res.call := Concluded(row, ResultLog(res.status, row.Current()).value, res.outcome)]
    ensures Settles(cfg, s, s', t, res.call, Record(Some(res.id), res.request, res.key, res.status), ByResult,
                    if res.status == ClientDisconnected then Some(Closing(h, Finally(false, None), CloseLock)) else None)
  {
    var closed := Concluded(row, ResultLog(res.status, row.Current()).value, res.outcome);
    ResultCloses(cfg, s, t, free, h, res, row);
    s' := ResultFinishes(cfg, s, t, free, h, res, closed);
  }

  lemma ResultFinishes(cfg: Config, s: State, t: nat, free: bool, h: Handle, res: Result, closed: Row) returns (s': State)
    requires t in s.tasks
    requires ComesTo(Turn(cfg, t, free), s, At(WithRow(s, res.call, closed), t, Receiving(h, res, ResultRun([]))))
    ensures ComesTo(Turn(cfg, t, free), s, s') && s'.rows == s.rows[res.call := closed]
    ensures Settles(cfg, s, s', t, res.call, Record(Some(res.id), res.request, res.key, res.status), ByResult,
                    if res.status == ClientDisconnected then Some(Closing(h, Finally(false, None), CloseLock)) else None)
  {
    var pc, record := Receiving(h, res, ResultRun([])), Record(Some(res.id), res.request, res.key, res.status);
    var next := if res.status == ClientDisconnected then Some(Closing(h, Finally(false, None), CloseLock)) else None;
    FinishIsSettling(cfg, s, t, pc, res.call, closed, record, ByResult, next);
    var s1 := At(WithRow(s, res.call, closed), t, pc);
    s' := Settled(FinishCall(cfg, s1, t, res.call, record, ByResult), t, next);
    Acts(cfg, s, s1, t, free, pc, GatewayMachine.Move(Finish(res.call, record, ByResult), next), s');
  }

  /** A result that is repeated, or comes before the call was queued, changes nothing. */
  lemma ResultIsDropped(cfg: Config, s: State, t: nat, free: bool, h: Handle, res: Result, row: Row)
    requires ResultStands(s, t, h, res, row)
    requires res.status in {Completed, Failed, Cancelled, TimedOut, Denied, ClientDisconnected}
    requires Has(s.terminal, res.call) || (!IsTerminal(row.Current()) && ResultLog(res.status, row.Current()).None?)
    ensures ComesTo(Turn(cfg, t, free), s, s.(tasks := s.tasks - {t}))
  {
    if Has(s.terminal, res.call) || ResultScript(res.status, row.Current(), res.outcome).None? {
      ResultStops(cfg, s, t, free, h, res, row);
    } else {
      var op := Final(res.status, res.outcome);
      assert [] + [op] == [op];
      ResultDecides(cfg, s, t, free, h, res, row, [op]);
      ResultIsRefused(cfg, s, t, free, h, res, op);
    }
  }

  lemma ResultStops(cfg: Config, s: State, t: nat, free: bool, h: Handle, res: Result, row: Row)
    requires ResultStands(s, t, h, res, row)
    requires Has(s.terminal, res.call) || ResultScript(res.status, row.Current(), res.outcome).None?
    ensures ComesTo(Turn(cfg, t, free), s, s.(tasks := s.tasks - {t}))
  {
    ResultReads(cfg, s, t, free, h, res, row);
    Stops(cfg, s, s, t, free, Receiving(h, res, ResultDecide(row.Current())));
  }

  lemma ResultIsRefused(cfg: Config, s: State, t: nat, free: bool, h: Handle, res: Result, op: Operation)
    requires t in s.tasks && res.call in s.rows && |s.rows[res.call].log| > 0
    requires Perform(s.rows[res.call], op, World(true, free)) == (s.rows[res.call], Refused)
    requires ComesTo(Turn(cfg, t, free), s, At(s, t, Receiving(h, res, ResultRun([op]))))
    ensures ComesTo(Turn(cfg, t, free), s, s.(tasks := s.tasks - {t}))
  {
    var pc, row := Receiving(h, res, ResultRun([op])), s.rows[res.call];
    var s1 := At(s, t, pc);
    assert RunOperation(s1, res.call, op, World(true, free)) == (WriteRow(res.call, row), Refused);
    assert s.rows[res.call := row] == s.rows && s.tasks[t := pc] - {t} == s.tasks - {t};
    Acts(cfg, s, s1, t, free, pc, GatewayMachine.Move(WriteRow(res.call, row), None), s.(tasks := s.tasks - {t}));
  }
}
