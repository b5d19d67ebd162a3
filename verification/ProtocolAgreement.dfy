/** The composition's handling of a message is the gateway machine's: a handler that
    nobody disturbs, from the moment it has read the row, leaves the row and the waiter
    as the composition says, and ends or goes on to hang up as it says. */
module ProtocolAgreement {
  import opened ToolLifecycle
  import opened Options
  import opened ToolRepository
  import opened AgentProtocol
  import opened OrderedTable
  import opened GatewayMachine
  import opened GatewayAlone
  import C = Composition

  ghost function WaiterOf(s: State, c: nat): Option<bool> {
    if c in s.pending && s.pending[c] in s.calls then Some(s.calls[s.pending[c]].awaiting) else None
  }

  /** The machine's tables show what the composition knows of a call. */
  ghost predicate Shows(s: State, c: nat, row: Row, waiter: Option<bool>) {
    c in s.rows && s.rows[c] == row && |row.log| > 0 && waiter == WaiterOf(s, c)
  }

  /** The state after the handler is the one the verdict describes. */
  ghost predicate Agrees(s: State, t: nat, c: nat, v: C.Verdict, hangup: Pc)
    requires v.Accepted?
  {
    && Shows(s, c, v.call.row, v.call.waiter)
    && if v.hangup then t in s.tasks && s.tasks[t] == hangup else t !in s.tasks
  }

  // -------------------------------------------------------------- the operations

  /** A task that stands at a list of operations. */
  datatype Runner = OfEvent(h: Handle, ev: Event, finish: Option<Status>) | OfResult(h: Handle, res: Result)

  function Before(r: Runner, ops: seq<Operation>): Pc {
    match r
    case OfEvent(h, ev, finish) => Handling(h, ev, EventRun(ops, finish))
    case OfResult(h, res) => Receiving(h, res, ResultRun(ops))
  }

  function CallId(r: Runner): nat {
    match r
    case OfEvent(_, ev, _) => ev.call
    case OfResult(_, res) => res.call
  }

  /** Where a runner stands in the middle of its operations. */
  function Midway(s: State, t: nat, r: Runner, row: Row, ops: seq<Operation>): State {
    At(s.(rows := s.rows[CallId(r) := row]), t, Before(r, ops))
  }

  lemma OneOperation(cfg: Config, start: State, s: State, t: nat, r: Runner, row: Row, ops: seq<Operation>, free: bool)
    requires t in s.tasks && |row.log| > 0 && ops != []
    requires Perform(row, ops[0], World(true, free)).1 != Refused
    requires ComesTo(Turn(cfg, t, free), start, Midway(s, t, r, row, ops))
    ensures ComesTo(Turn(cfg, t, free), start, Midway(s, t, r, Perform(row, ops[0], World(true, free)).0, ops[1..]))
  {
    var c, world, s1 := CallId(r), World(true, free), Midway(s, t, r, row, ops);
    var (after, reply) := Perform(row, ops[0], world);
    assert RunOperation(s1, c, ops[0], world) == (WriteRow(c, after), reply);
    assert s.rows[c := row][c := after] == s.rows[c := after];
    assert s.tasks[t := Before(r, ops)][t := Before(r, ops[1..])] == s.tasks[t := Before(r, ops[1..])];
    Acts(cfg, start, s1, t, free, Before(r, ops), GatewayMachine.Move(WriteRow(c, after), Some(Before(r, ops[1..]))),
         Midway(s, t, r, after, ops[1..]));
  }

  lemma OperateNext(row: Row, ops: seq<Operation>, world: World)
    requires |row.log| > 0 && ops != [] && C.Operate(row, ops, world).Some?
    ensures var (row1, reply) := Perform(row, ops[0], world);
            reply != Refused && |row1.log| > 0 && C.Operate(row1, ops[1..], world) == C.Operate(row, ops, world)
  {
    PerformKeepsLog(row, ops[0], world);
  }

  lemma PerformKeepsLog(row: Row, op: Operation, world: World)
    requires |row.log| > 0
    ensures |Perform(row, op, world).0.log| > 0
  {
  }

  /** All of them, if none is refused. */
  lemma {:induction false} AllOperations(cfg: Config, start: State, s: State, t: nat, r: Runner, row: Row, ops: seq<Operation>,
                                         free: bool, last: Row)
    requires t in s.tasks && |row.log| > 0 && C.Operate(row, ops, World(true, free)) == Some(last)
    requires ComesTo(Turn(cfg, t, free), start, Midway(s, t, r, row, ops))
    ensures |last.log| > 0 && ComesTo(Turn(cfg, t, free), start, Midway(s, t, r, last, []))
    decreases |ops|
  {
    if ops != [] {
      OperateNext(row, ops, World(true, free));
      OneOperation(cfg, start, s, t, r, row, ops, free);
      AllOperations(cfg, start, s, t, r, Perform(row, ops[0], World(true, free)).0, ops[1..], free, last);
    }
  }

  // ------------------------------------------------------------------ the endings

  /** The handler goes, with or without concluding the call. */
  lemma FinishSettles(cfg: Config, s: State, t: nat, c: nat, record: Record, how: Settlement, next: Option<Pc>)
    requires c in s.rows && |s.rows[c].log| > 0
    ensures var s' := Settled(FinishCall(cfg, s, t, c, record, how), t, next);
            && Shows(s', c, s.rows[c], None)
            && (if next.None? then t !in s'.tasks else t in s'.tasks && s'.tasks[t] == next.value)
  {
  }

  lemma RearmSettles(s: State, t: nat, c: nat)
    requires c in s.rows && |s.rows[c].log| > 0 && c in s.pending && s.pending[c] in s.calls
    ensures var s' := Settled(RearmTimer(s, t, s.pending[c]), t, None);
            Shows(s', c, s.rows[c], Some(false)) && t !in s'.tasks
  {
  }

  // ------------------------------------------------------------------- one event

  /** An event whose row has been read, from the session it belongs to; a waiter under
      its call is the one it was dispatched with. */
  ghost predicate EventStands(s: State, t: nat, h: Handle, ev: Event, call: C.Call) {
    && Shows(s, ev.call, call.row, call.waiter)
    && t in s.tasks && s.tasks[t] == Handling(h, ev, EventDecide(call.row.Current()))
    && ev.outcome == 0
    && (ev.call in s.pending ==>
          HasWaiter(s, ev) && s.pending[ev.call] in s.futures && s.futures[s.pending[ev.call]] == Open)
  }

  /** The decision, which changes no table. */
  lemma EventDecides(cfg: Config, s: State, t: nat, h: Handle, ev: Event, call: C.Call, free: bool, next: Option<Pc>)
    requires EventStands(s, t, h, ev, call)
    requires PlanEvent(s, h, ev, EventDecide(call.row.Current()), Undisturbed(free)) == GatewayMachine.Move(Nop, next)
    ensures ComesTo(Turn(cfg, t, free), s, Settled(s, t, next))
  {
    StepsOn(Turn(cfg, t, free), s);
    Acts(cfg, s, s, t, free, s.tasks[t], GatewayMachine.Move(Nop, next), Settled(s, t, next));
  }

  lemma Unchanged(s: State, t: nat, r: Runner, row: Row, ops: seq<Operation>)
    requires CallId(r) in s.rows && s.rows[CallId(r)] == row
    ensures Settled(s, t, Some(Before(r, ops))) == Midway(s, t, r, row, ops)
  {
    assert s.rows[CallId(r) := row] == s.rows;
  }

  lemma ActAgrees(cfg: Config, s: State, t: nat, h: Handle, ev: Event, call: C.Call, free: bool,
                  ops: seq<Operation>, waiter: bool, finish: Option<Status>, hangup: Pc) returns (s': State)
    requires EventStands(s, t, h, ev, call)
    requires EventScript(ev.kind, call.row.Current(), 0) == Act(ops, waiter, finish)
    requires C.Handle(call, C.Notice(ev.kind), free).Accepted?
    ensures ComesTo(Turn(cfg, t, free), s, s')
    ensures Agrees(s', t, ev.call, C.Handle(call, C.Notice(ev.kind), free), hangup)
  {
    var r := OfEvent(h, ev, finish);
    EventDecides(cfg, s, t, h, ev, call, free, Some(Before(r, ops)));
    Unchanged(s, t, r, call.row, ops);
    var row := C.Operate(call.row, ops, World(true, free)).value;
    AllOperations(cfg, s, s, t, r, call.row, ops, free, row);
    s' := EventEnds(cfg, s, t, h, ev, finish, free, row);
  }

  /** The last step, when no operation is left. */
  lemma EventEnds(cfg: Config, s: State, t: nat, h: Handle, ev: Event, finish: Option<Status>, free: bool, row: Row) returns (s': State)
    requires t in s.tasks && |row.log| > 0
    requires ComesTo(Turn(cfg, t, free), s, Midway(s, t, OfEvent(h, ev, finish), row, []))
    ensures ComesTo(Turn(cfg, t, free), s, s')
    ensures Shows(s', ev.call, row, if finish.Some? then None else WaiterOf(s, ev.call)) && t !in s'.tasks
  {
    var s1 := Midway(s, t, OfEvent(h, ev, finish), row, []);
    var pc := Handling(h, ev, EventRun([], finish));
    if finish.None? {
      s' := Settled(s1, t, None);
      Acts(cfg, s, s1, t, free, pc, Stop(), s');
    } else {
      var record := Record(None, ev.request, h.key, finish.value);
      s' := Settled(FinishCall(cfg, s1, t, ev.call, record, ByFailure), t, None);
      FinishSettles(cfg, s1, t, ev.call, record, ByFailure, None);
      Acts(cfg, s, s1, t, free, pc, GatewayMachine.Move(Finish(ev.call, record, ByFailure), None), s');
    }
  }

  /** The approval path: both operations in turn, then a fresh deadline. */
  lemma ApprovalAgrees(cfg: Config, s: State, t: nat, h: Handle, ev: Event, call: C.Call, free: bool, hangup: Pc) returns (s': State)
    requires EventStands(s, t, h, ev, call) && call.waiter == Some(true)
    requires EventScript(ev.kind, call.row.Current(), 0) == ApproveThenQueue
    requires C.Handle(call, C.Notice(ev.kind), free).Accepted?
    ensures ComesTo(Turn(cfg, t, free), s, s')
    ensures Agrees(s', t, ev.call, C.Handle(call, C.Notice(ev.kind), free), hangup)
  {
    var p, world := s.pending[ev.call], World(true, free);
    EventDecides(cfg, s, t, h, ev, call, free, Some(Handling(h, ev, EventApprove(p))));
    OperatesTwice(call.row, world);
    var row1 := Perform(call.row, Approve, world).0;
    ApprovalStep(cfg, s, s, t, h, ev, Approve, p, call.row, free);
    s' := ApprovalQueues(cfg, s, t, h, ev, p, row1, Perform(row1, Queue, world).0, free);
  }

  lemma ApprovalQueues(cfg: Config, s: State, t: nat, h: Handle, ev: Event, p: nat, row1: Row, row2: Row, free: bool) returns (s': State)
    requires t in s.tasks && ev.call in s.rows && |row1.log| > 0 && |row2.log| > 0
    requires Perform(row1, Queue, World(true, free)).0 == row2 && Perform(row1, Queue, World(true, free)).1 != Refused
    requires p in s.calls && p in s.futures && s.futures[p] == Open && IsWaiting(s, ev.call, p)
    requires ComesTo(Turn(cfg, t, free), s, At(s.(rows := s.rows[ev.call := row1]), t, Handling(h, ev, EventQueue(p))))
    ensures ComesTo(Turn(cfg, t, free), s, s') && Shows(s', ev.call, row2, Some(false)) && t !in s'.tasks
  {
    ApprovalStep(cfg, s, s.(rows := s.rows[ev.call := row1]), t, h, ev, Queue, p, row1, free);
    assert s.rows[ev.call := row1][ev.call := row2] == s.rows[ev.call := row2];
    s' := ApprovalEnds(cfg, s, s.(rows := s.rows[ev.call := row2]), t, h, ev, p, free);
  }

  lemma ApprovalEnds(cfg: Config, start: State, s: State, t: nat, h: Handle, ev: Event, p: nat, free: bool) returns (s': State)
    requires t in s.tasks && ev.call in s.rows && |s.rows[ev.call].log| > 0
    requires p in s.calls && p in s.futures && s.futures[p] == Open && IsWaiting(s, ev.call, p)
    requires ComesTo(Turn(cfg, t, free), start, At(s, t, Handling(h, ev, EventArm(p))))
    ensures ComesTo(Turn(cfg, t, free), start, s') && Shows(s', ev.call, s.rows[ev.call], Some(false)) && t !in s'.tasks
  {
    var pc := Handling(h, ev, EventArm(p));
    s' := Settled(RearmTimer(At(s, t, pc), t, p), t, None);
    RearmSettles(At(s, t, pc), t, ev.call);
    Acts(cfg, start, At(s, t, pc), t, free, pc, GatewayMachine.Move(Rearm(p), None), s');
  }

  lemma OperatesTwice(row: Row, world: World)
    requires |row.log| > 0 && C.Operate(row, [Approve, Queue], world).Some?
    ensures var (row1, reply1) := Perform(row, Approve, world);
            && reply1 != Refused && |row1.log| > 0
            && var (row2, reply2) := Perform(row1, Queue, world);
               reply2 != Refused && |row2.log| > 0 && C.Operate(row, [Approve, Queue], world) == Some(row2)
  {
    PerformKeepsLog(row, Approve, world);
    PerformKeepsLog(Perform(row, Approve, world).0, Queue, world);
    assert [Approve, Queue][1..] == [Queue] && [Queue][1..] == [];
  }

  lemma ApprovalStep(cfg: Config, start: State, s: State, t: nat, h: Handle, ev: Event, op: Operation, p: nat, row: Row, free: bool)
    requires t in s.tasks && op in {Approve, Queue} && ev.call in s.rows && s.rows[ev.call] == row && |row.log| > 0
    requires Perform(row, op, World(true, free)).1 != Refused
    requires ComesTo(Turn(cfg, t, free), start,
                     At(s, t, Handling(h, ev, if op == Approve then EventApprove(p) else EventQueue(p))))
    ensures ComesTo(Turn(cfg, t, free), start,
                    At(s.(rows := s.rows[ev.call := Perform(row, op, World(true, free)).0]), t,
                       Handling(h, ev, if op == Approve then EventQueue(p) else EventArm(p))))
  {
    var pc := Handling(h, ev, if op == Approve then EventApprove(p) else EventQueue(p));
    var next := Handling(h, ev, if op == Approve then EventQueue(p) else EventArm(p));
    var (after, reply) := Perform(row, op, World(true, free));
    assert RunOperation(At(s, t, pc), ev.call, op, World(true, free)) == (WriteRow(ev.call, after), reply);
    assert s.tasks[t := pc][t := next] == s.tasks[t := next];
    Acts(cfg, start, At(s, t, pc), t, free, pc, GatewayMachine.Move(WriteRow(ev.call, after), Some(next)),
         At(s.(rows := s.rows[ev.call := after]), t, next));
  }

  /** An event that the composition accepts is handled by the machine to the same effect. */
  lemma EventAgrees(cfg: Config, s: State, t: nat, h: Handle, ev: Event, call: C.Call, free: bool) returns (s': State)
    requires EventStands(s, t, h, ev, call)
    requires C.Handle(call, C.Notice(ev.kind), free).Accepted?
    ensures ComesTo(Turn(cfg, t, free), s, s')
    ensures Agrees(s', t, ev.call, C.Handle(call, C.Notice(ev.kind), free), Closing(h, Finally(true, None), CloseLock))
  {
    var hangup := Closing(h, Finally(true, None), CloseLock);
    match EventScript(ev.kind, call.row.Current(), 0)
    case ApproveThenQueue =>
      if call.waiter.value {
        s' := ApprovalAgrees(cfg, s, t, h, ev, call, free, hangup);
      } else {
        EventDecides(cfg, s, t, h, ev, call, free, None);
        s' := Settled(s, t, None);
      }
    case Act(ops, waiter, finish) =>
      s' := ActAgrees(cfg, s, t, h, ev, call, free, ops, waiter, finish, hangup);
    case Ignore =>
      EventDecides(cfg, s, t, h, ev, call, free, None);
      s' := Settled(s, t, None);
    case Hangup =>
      EventDecides(cfg, s, t, h, ev, call, free, Some(hangup));
      s' := Settled(s, t, Some(hangup));
    case Reject =>
  }

  // ------------------------------------------------------------------ one result

  /** A result whose row has been read, and that is no repetition. */
  ghost predicate ResultStands(s: State, t: nat, h: Handle, res: Result, call: C.Call) {
    && Shows(s, res.call, call.row, call.waiter)
    && t in s.tasks && s.tasks[t] == Receiving(h, res, ResultDecide(call.row.Current()))
    && res.outcome == 0 && !Has(s.terminal, res.call)
  }

  /** A result that the composition accepts is handled by the machine to the same effect. */
  lemma ResultAgrees(cfg: Config, s: State, t: nat, h: Handle, res: Result, call: C.Call, free: bool) returns (s': State)
    requires ResultStands(s, t, h, res, call)
    requires C.Handle(call, C.Conclude(res.status), free).Accepted?
    ensures ComesTo(Turn(cfg, t, free), s, s')
    ensures Agrees(s', t, res.call, C.Handle(call, C.Conclude(res.status), free), Closing(h, Finally(false, None), CloseLock))
  {
    var r, ops := OfResult(h, res), ResultScript(res.status, call.row.Current(), 0).value;
    ResultDecides(cfg, s, t, h, res, call, free, ops);
    Unchanged(s, t, r, call.row, ops);
    var row := C.Operate(call.row, ops, World(true, free)).value;
    AllOperations(cfg, s, s, t, r, call.row, ops, free, row);
    s' := ResultEnds(cfg, s, t, h, res, free, row);
  }

  lemma ResultDecides(cfg: Config, s: State, t: nat, h: Handle, res: Result, call: C.Call, free: bool, ops: seq<Operation>)
    requires ResultStands(s, t, h, res, call) && ResultScript(res.status, call.row.Current(), 0) == Some(ops)
    ensures ComesTo(Turn(cfg, t, free), s, Settled(s, t, Some(Before(OfResult(h, res), ops))))
  {
    StepsOn(Turn(cfg, t, free), s);
    Acts(cfg, s, s, t, free, s.tasks[t], Goto(Before(OfResult(h, res), ops)), Settled(s, t, Some(Before(OfResult(h, res), ops))));
  }

  lemma ResultEnds(cfg: Config, s: State, t: nat, h: Handle, res: Result, free: bool, row: Row) returns (s': State)
    requires t in s.tasks && |row.log| > 0
    requires ComesTo(Turn(cfg, t, free), s, Midway(s, t, OfResult(h, res), row, []))
    ensures ComesTo(Turn(cfg, t, free), s, s') && Shows(s', res.call, row, None)
    ensures if res.status == ClientDisconnected then t in s'.tasks && s'.tasks[t] == Closing(h, Finally(false, None), CloseLock)
            else t !in s'.tasks
  {
    var s1, record := Midway(s, t, OfResult(h, res), row, []), Record(Some(res.id), res.request, res.key, res.status);
    var next := if res.status == ClientDisconnected then Some(Closing(h, Finally(false, None), CloseLock)) else None;
    s' := Settled(FinishCall(cfg, s1, t, res.call, record, ByResult), t, next);
    FinishSettles(cfg, s1, t, res.call, record, ByResult, next);
    Acts(cfg, s, s1, t, free, Receiving(h, res, ResultRun([])), GatewayMachine.Move(Finish(res.call, record, ByResult), next), s');
  }
}
