/** The Agent gateway as a machine of interleaved tasks.

    One task is one coroutine of the gateway (a dispatch, an event, a result, a
    deadline, a disconnection, a registration). Its program counter says at which
    await it is suspended; one step runs it to its next await. The gateway's own
    state lock guards only sections without an await, so those sections are parts
    of one step. The other three locks are held across awaits: which of them a
    task holds, and which one it waits for, is read off its program counter. */
module GatewayMachine {
  import opened ToolLifecycle
  import opened Options
  import opened ToolRepository
  import opened AgentProtocol
  import opened OrderedTable

  // ---------------------------------------------------------------- data model

  datatype Config = Config(terminalRetention: nat, seenRetention: nat, closingMayFail: bool) {
    ghost predicate Valid() {
      1 <= terminalRetention <= 10_000 && 1 <= seenRetention <= 10_000
    }
  }

  datatype Handle = Handle(key: Key, conn: nat)

  /** An enabled and implemented capability of a live session. */
  datatype Tool = Tool(approval: bool, maximumTimeout: nat)

  datatype Session = Session(conn: nat, tools: map<nat, Tool>)

  datatype Request = Request(call: nat, request: nat, key: Key, tool: nat, timeout: nat)

  datatype Event = Event(kind: EventType, call: nat, request: nat, key: Key, outcome: nat)

  datatype Result = Result(id: nat, call: nat, request: nat, key: Key, tool: nat, status: Status, outcome: nat)

  datatype Record = Record(result: Option<nat>, request: nat, key: Key, status: Status)

  /** One waiter object. `sender` is the task that dispatched it, `timer` its newest
      deadline task, `closer` the disconnection that took it out of the table. */
  datatype Call = Call(
    request: Request,
    conn: nat,
    sender: nat,
    awaiting: bool,
    timer: Option<nat>,
    closer: Option<nat>
  )

  datatype Settlement = ByResult | ByFailure | ByTimeout | ByDisconnection | ByCaller

  datatype Future = Open | Done(how: Settlement)

  datatype State = State(
    sessions: map<Key, Session>,
    pending: map<nat, nat>,             // tool_call_id -> waiter object
    calls: map<nat, Call>,              // every waiter object ever made
    futures: map<nat, Future>,
    terminal: seq<(nat, Record)>,
    seen: seq<Key>,
    rows: map<nat, Row>,                // the durable table
    tasks: map<nat, Pc>,
    sent: seq<nat>,                     // history: tool_call_ids written to a socket
    registered: seq<Key>,               // history: sessions registered
    nextConn: nat,
    nextPid: nat,
    nextTid: nat
  )

  datatype Lock = DispatchLock | ResultLock | LifecycleLock

  /** What follows a disconnection: the end of the task (which may hold the dispatch
      lock, and may be the sender of a waiter), or the next handle to close and
      then perhaps a registration. */
  datatype After =
    | Finally(dispatchHeld: bool, sender: Option<nat>)
    | Then(rest: set<Handle>, register: Option<(Key, map<nat, Tool>)>)

  /** A suspended task: what it works on, and at which await it stands. */
  datatype Pc =
    | Dispatching(req: Request, at: DispatchAt)
    | Sending(pid: nat, step: SendAt)
    | Handling(handle: Handle, event: Event, turn: EventAt)
    | Receiving(handle: Handle, result: Result, stage: ResultAt)
    | Timer(pid: nat, phase: TimerAt)
    | Unwinding(held: set<Lock>, op: Option<(nat, Operation)>)
    | Closing(handle: Handle, after: After, place: CloseAt)
    | ClosingNext(after: After)
    | Registering(key: Key, tools: map<nat, Tool>, entry: RegisterAt)
    | Revoking(client: nat, locked: bool)
    | Refreshing(handle: Handle, tools: map<nat, Tool>, entry: RegisterAt)

  datatype DispatchAt =
    | AwaitLock
    | Route
    | ReadCall(conn: nat, tool: Tool)
    | CheckCall(conn: nat, tool: Tool, status: Status)
    | QueueIt(conn: nat, tool: Tool)
    | InsertIt(conn: nat, tool: Tool)

  datatype SendAt = Write(written: bool) | ArmIt

  datatype EventAt =
    | EventLock
    | EventEnter
    | EventRead
    | EventDecide(status: Status)
    | EventApprove(pid: nat)
    | EventQueue(pid: nat)
    | EventArm(pid: nat)
    | EventRun(ops: seq<Operation>, finish: Option<Status>)

  datatype ResultAt =
    | ResultEnter
    | ResultWait
    | ResultRead
    | ResultDecide(status: Status)
    | ResultRun(ops: seq<Operation>)

  datatype TimerAt =
    | Asleep
    | AwaitDispatch
    | AwaitResult
    | TimerCheck
    | TimerRead
    | TimerRun(ops: seq<Operation>)
    | TimerFailed

  datatype CloseAt = CloseLock | PopIt | CloseRows(items: set<nat>) | CloseSettle(items: set<nat>)

  datatype RegisterAt = RegisterLock | RegisterCheck | RegisterStore | RegisterApply

  // --------------------------------------------------------------------- locks

  function Holds(pc: Pc): set<Lock> {
    match pc
    case Dispatching(_, at) => if at.AwaitLock? then {} else {DispatchLock}
    case Sending(_, _) => {}
    case Handling(_, _, at) => if at.EventLock? then {} else {DispatchLock}
    case Receiving(_, _, at) => if at.ResultEnter? || at.ResultWait? then {} else {ResultLock}
    case Timer(_, at) =>
      if at.Asleep? || at.AwaitDispatch? then {}
      else if at.AwaitResult? then {DispatchLock}
      else {DispatchLock, ResultLock}
    case Unwinding(held, _) => held
    case Closing(_, after, at) => AfterHolds(after) + (if at.CloseLock? then {} else {LifecycleLock})
    case ClosingNext(_) => {LifecycleLock}
    case Registering(_, _, at) => if at.RegisterLock? then {} else {LifecycleLock}
    case Revoking(_, locked) => if locked then {LifecycleLock} else {}
    case Refreshing(_, _, at) => if at.RegisterLock? then {} else {LifecycleLock}
  }

  function AfterHolds(after: After): set<Lock> {
    if after.Finally? && after.dispatchHeld then {DispatchLock} else {}
  }

  function Wants(pc: Pc): Option<Lock> {
    match pc
    case Dispatching(_, at) => if at.AwaitLock? then Some(DispatchLock) else None
    case Sending(_, _) => None
    case Handling(_, _, at) => if at.EventLock? then Some(DispatchLock) else None
    case Receiving(_, _, at) => if at.ResultWait? then Some(ResultLock) else None
    case Timer(_, at) =>
      if at.AwaitDispatch? then Some(DispatchLock) else if at.AwaitResult? then Some(ResultLock) else None
    case Unwinding(_, _) => None
    case Closing(_, _, at) => if at.CloseLock? then Some(LifecycleLock) else None
    case ClosingNext(_) => None
    case Registering(_, _, at) => if at.RegisterLock? then Some(LifecycleLock) else None
    case Revoking(_, locked) => if locked then None else Some(LifecycleLock)
    case Refreshing(_, _, at) => if at.RegisterLock? then Some(LifecycleLock) else None
  }

  ghost predicate Held(s: State, l: Lock) {
    exists t :: t in s.tasks && l in Holds(s.tasks[t])
  }

  /** The task waits for a lock that another task holds. */
  ghost predicate Blocked(s: State, t: nat)
    requires t in s.tasks
  {
    Wants(s.tasks[t]).Some? && Held(s, Wants(s.tasks[t]).value)
  }

  // ------------------------------------------------------------------- control

  /** How an await ends: normally, with an exception, or with a cancellation; a
      failed transaction may still have been applied. `item` picks the next
      waiter or handle where the code iterates over a collection. */
  datatype Fault = Smooth | Raise | CancelTask

  datatype Choice = Choice(world: World, fault: Fault, applied: bool, item: nat)

  datatype Effect =
    | Nop
    | WriteRow(call: nat, row: Row)
    | Insert(req: Request, conn: nat, awaiting: bool)
    | Deliver(pid: nat)
    | Arm(pid: nat)
    | Rearm(pid: nat)
    | Finish(call: nat, record: Record, how: Settlement)
    | Expired(pid: nat)
    | Pop(key: Key, items: set<nat>)
    | CloseCalls(key: Key)
    | Settle(pid: nat)
    | AddSession(key: Key, tools: map<nat, Tool>)
    | SetTools(key: Key, tools: map<nat, Tool>)

  /** One step of a task: what it does to the shared tables, and where it stands
      afterwards (None when it has ended). */
  datatype Move = Move(effect: Effect, next: Option<Pc>)

  function Stop(): Move { Move(Nop, None) }

  function Goto(pc: Pc): Move { Move(Nop, Some(pc)) }

  function LiveSession(s: State, handle: Handle): bool {
    handle.key in s.sessions && s.sessions[handle.key].conn == handle.conn
  }

  function IsWaiting(s: State, call: nat, pid: nat): bool {
    call in s.pending && s.pending[call] == pid
  }

  function CallOf(s: State, pid: nat): nat
    requires pid in s.calls
  {
    s.calls[pid].request.call
  }

  /** The waiters of one session: what a disconnection takes out of the table. */
  ghost function WaitersOf(s: State, key: Key): set<nat> {
    set c | c in s.pending && s.pending[c] in s.calls && s.calls[s.pending[c]].request.key == key :: s.pending[c]
  }

  ghost function HandlesOf(s: State, client: nat): set<Handle> {
    set k | k in s.sessions && k.client == client :: Handle(k, s.sessions[k].conn)
  }

  predicate Correlates(row: Row, request: nat, key: Key) {
    row.request == request && row.key == key
  }

  ghost function RunOperation(s: State, call: nat, op: Operation, world: World): (Effect, Reply) {
    if call !in s.rows || |s.rows[call].log| == 0 then (Nop, Refused)
    else
      var (row, reply) := Perform(s.rows[call], op, world);
      (WriteRow(call, row), reply)
  }

  /** One awaited transaction with its outcome: on success go on, otherwise leave as
      `failed` says. */
  function Transact(ch: Choice, outcome: (Effect, Reply), next: Pc, failed: Option<Pc>): Move {
    if ch.fault != Smooth then Move(if ch.applied then outcome.0 else Nop, failed)
    else if outcome.1 == Refused then Move(outcome.0, failed)
    else Move(outcome.0, Some(next))
  }

  /** dispatch, up to the insertion of the waiter. */
  ghost function PlanDispatch(s: State, req: Request, at: DispatchAt, ch: Choice): Move {
    match at
    case AwaitLock =>
      if ch.fault != Smooth then Stop() else Goto(Dispatching(req, Route))
    case Route =>
      if req.key in s.sessions && req.tool in s.sessions[req.key].tools then
        Goto(Dispatching(req, ReadCall(s.sessions[req.key].conn, s.sessions[req.key].tools[req.tool])))
      else Stop()
    case ReadCall(conn, tool) =>
      if ch.fault != Smooth || req.call !in s.rows then Stop()
      else
        var row := s.rows[req.call];
        if |row.log| == 0 || !Correlates(row, req.request, req.key) || row.tool != req.tool then Stop()
        else Goto(Dispatching(req, CheckCall(conn, tool, row.Current())))
    case CheckCall(conn, tool, status) =>
      if req.timeout > tool.maximumTimeout then Stop()
      else if req.call in s.pending || Has(s.terminal, req.call) then Stop()
      else if tool.approval then
        if status != AwaitingApproval then Stop() else Goto(Dispatching(req, InsertIt(conn, tool)))
      else if status != Validated then Stop()
      else Goto(Dispatching(req, QueueIt(conn, tool)))
    case QueueIt(conn, tool) =>
      var (effect, reply) := RunOperation(s, req.call, Queue, ch.world);
      if ch.fault != Smooth then Move(if ch.applied then effect else Nop, None)
      else Move(effect, if reply == Changed then Some(Dispatching(req, InsertIt(conn, tool))) else None)
    case InsertIt(conn, tool) =>
      if LiveSession(s, Handle(req.key, conn)) then
        Move(Insert(req, conn, tool.approval), Some(Sending(s.nextPid, Write(false))))
      else Stop()
  }

  /** dispatch, from the write to the socket. */
  ghost function PlanSend(s: State, pid: nat, at: SendAt, ch: Choice): Move {
    match at
    case Write(written) =>
      if pid !in s.calls then Stop()
      else if ch.fault != Smooth then
        Goto(Closing(Handle(s.calls[pid].request.key, s.calls[pid].conn), Finally(false, Some(pid)), CloseLock))
      else if !written then Move(Deliver(pid), Some(Sending(pid, Write(true))))
      else Goto(Sending(pid, ArmIt))
    case ArmIt => Move(Arm(pid), None)
  }

  ghost function PlanEvent(s: State, h: Handle, ev: Event, at: EventAt, ch: Choice): Move {
    match at
    case EventLock =>
      if ch.fault != Smooth then Stop() else Goto(Handling(h, ev, EventEnter))
    case EventEnter =>
      if LiveSession(s, h) && ev.key == h.key then Goto(Handling(h, ev, EventRead)) else Stop()
    case EventRead =>
      if ch.fault != Smooth || ev.call !in s.rows then Stop()
      else
        var row := s.rows[ev.call];
        if |row.log| == 0 || !Correlates(row, ev.request, h.key) then Stop()
        else Goto(Handling(h, ev, EventDecide(row.Current())))
    case EventDecide(status) =>
      (match EventScript(ev.kind, status, ev.outcome)
       case Reject => Stop()
       case Ignore => Stop()
       case Hangup => Goto(Closing(h, Finally(true, None), CloseLock))
       case ApproveThenQueue =>
         if !HasWaiter(s, ev) || !s.calls[s.pending[ev.call]].awaiting then Stop()
         else Goto(Handling(h, ev, EventApprove(s.pending[ev.call])))
       case Act(ops, waiter, finish) =>
         if waiter && !HasWaiter(s, ev) then Stop() else Goto(Handling(h, ev, EventRun(ops, finish))))
    case EventApprove(pid) =>
      Transact(ch, RunOperation(s, ev.call, Approve, ch.world), Handling(h, ev, EventQueue(pid)), None)
    case EventQueue(pid) =>
      // an exception here disconnects the session; a cancellation does not
      Transact(ch, RunOperation(s, ev.call, Queue, ch.world), Handling(h, ev, EventArm(pid)),
               if ch.fault == CancelTask then None else Some(Closing(h, Finally(true, None), CloseLock)))
    case EventArm(pid) =>
      if pid in s.futures && s.futures[pid] == Open && IsWaiting(s, ev.call, pid) then Move(Rearm(pid), None)
      else Stop()
    case EventRun(ops, finish) =>
      if ops != [] then Transact(ch, RunOperation(s, ev.call, ops[0], ch.world), Handling(h, ev, EventRun(ops[1..], finish)), None)
      else if finish.None? then Stop()
      else Move(Finish(ev.call, Record(None, ev.request, h.key, finish.value), ByFailure), None)
  }

  /** _require_pending_event: the event matches a dispatched request. */
  predicate HasWaiter(s: State, ev: Event) {
    && ev.call in s.pending
    && s.pending[ev.call] in s.calls
    && var req := s.calls[s.pending[ev.call]].request;
       req.request == ev.request && req.key == ev.key
  }

  ghost function PlanResult(s: State, h: Handle, res: Result, at: ResultAt, ch: Choice): Move {
    match at
    case ResultEnter =>
      if LiveSession(s, h) && res.key == h.key then Goto(Receiving(h, res, ResultWait)) else Stop()
    case ResultWait =>
      if ch.fault != Smooth then Stop() else Goto(Receiving(h, res, ResultRead))
    case ResultRead =>
      if ch.fault != Smooth || res.call !in s.rows then Stop()
      else
        var row := s.rows[res.call];
        if |row.log| == 0 || !Correlates(row, res.request, res.key) || row.tool != res.tool then Stop()
        else Goto(Receiving(h, res, ResultDecide(row.Current())))
    case ResultDecide(status) =>
      if Has(s.terminal, res.call) then Stop()
      else
        var script := ResultScript(res.status, status, res.outcome);
        if script.None? then Stop() else Goto(Receiving(h, res, ResultRun(script.value)))
    case ResultRun(ops) =>
      if ops != [] then Transact(ch, RunOperation(s, res.call, ops[0], ch.world), Receiving(h, res, ResultRun(ops[1..])), None)
      else Move(Finish(res.call, Record(Some(res.id), res.request, res.key, res.status), ByResult),
                if res.status == ClientDisconnected then Some(Closing(h, Finally(false, None), CloseLock)) else None)
  }

  ghost function PlanTimer(s: State, pid: nat, at: TimerAt, ch: Choice): Move {
    if pid !in s.calls then Stop()
    else
      var call := CallOf(s, pid);
      match at
      case Asleep => Goto(Timer(pid, AwaitDispatch))
      case AwaitDispatch => Goto(Timer(pid, AwaitResult))
      case AwaitResult => Goto(Timer(pid, TimerCheck))
      case TimerCheck => if IsWaiting(s, call, pid) then Goto(Timer(pid, TimerRead)) else Stop()
      case TimerRead =>
        if ch.fault != Smooth || call !in s.rows || |s.rows[call].log| == 0 then Goto(Timer(pid, TimerFailed))
        else Goto(Timer(pid, TimerRun(ExpireScript(s.calls[pid].awaiting, s.rows[call].Current()))))
      case TimerRun(ops) =>
        if ops != [] then
          Transact(ch, RunOperation(s, call, ops[0], ch.world), Timer(pid, TimerRun(ops[1..])), Some(Timer(pid, TimerFailed)))
        else Move(Expired(pid), None)
      case TimerFailed => Move(Expired(pid), None)
  }

  /** A cancelled deadline task releases its locks; its transaction may have been applied. */
  ghost function PlanUnwind(s: State, op: Option<(nat, Operation)>, ch: Choice): Move {
    if ch.applied && op.Some? then Move(RunOperation(s, op.value.0, op.value.1, ch.world).0, None) else Stop()
  }

  function AfterClose(after: After): Option<Pc> {
    if after.Finally? then None else Some(ClosingNext(after))
  }

  ghost function PlanClose(s: State, h: Handle, after: After, at: CloseAt, ch: Choice): Move {
    match at
    case CloseLock =>
      if ch.fault != Smooth then Stop() else Goto(Closing(h, after, PopIt))
    case PopIt =>
      if LiveSession(s, h) then
        Move(Pop(h.key, WaitersOf(s, h.key)), Some(Closing(h, after, CloseRows(WaitersOf(s, h.key)))))
      else Move(Nop, AfterClose(after))
    case CloseRows(items) =>
      if ch.fault != Smooth then Move(if ch.applied then CloseCalls(h.key) else Nop, None)
      else Move(CloseCalls(h.key), Some(Closing(h, after, CloseSettle(items))))
    case CloseSettle(items) =>
      if ch.item in items then Move(Settle(ch.item), Some(Closing(h, after, CloseSettle(items - {ch.item}))))
      else if items == {} then Move(Nop, AfterClose(after))
      else Goto(Closing(h, after, at))
  }

  ghost function PlanNext(after: After): Move {
    if after.Finally? then Stop()
    else if after.rest == {} then
      if after.register.None? then Stop()
      else Goto(Registering(after.register.value.0, after.register.value.1, RegisterStore))
    else
      var h :| h in after.rest;
      Goto(Closing(h, after.(rest := after.rest - {h}), PopIt))
  }

  ghost function PlanRegister(s: State, key: Key, tools: map<nat, Tool>, at: RegisterAt, ch: Choice): Move {
    match at
    case RegisterLock =>
      if ch.fault != Smooth then Stop() else Goto(Registering(key, tools, RegisterCheck))
    case RegisterCheck =>
      if key in s.seen then Stop() else Goto(ClosingNext(Then(HandlesOf(s, key.client), Some((key, tools)))))
    case RegisterStore =>
      if ch.fault != Smooth then Stop() else Goto(Registering(key, tools, RegisterApply))
    case RegisterApply => Move(AddSession(key, tools), None)
  }

  ghost function PlanRevoke(s: State, client: nat, locked: bool, ch: Choice): Move {
    if locked then Goto(ClosingNext(Then(HandlesOf(s, client), None)))
    else if ch.fault != Smooth then Stop()
    else Goto(Revoking(client, true))
  }

  ghost function PlanRefresh(s: State, h: Handle, tools: map<nat, Tool>, at: RegisterAt, ch: Choice): Move {
    match at
    case RegisterLock =>
      if ch.fault != Smooth then Stop() else Goto(Refreshing(h, tools, RegisterCheck))
    case RegisterCheck =>
      if LiveSession(s, h) then Goto(Refreshing(h, tools, RegisterStore)) else Stop()
    case RegisterStore =>
      if ch.fault != Smooth then Stop() else Goto(Refreshing(h, tools, RegisterApply))
    case RegisterApply =>
      if LiveSession(s, h) then Move(SetTools(h.key, tools), None) else Stop()
  }

  ghost function Plan(s: State, pc: Pc, ch: Choice): Move {
    match pc
    case Dispatching(req, at) => PlanDispatch(s, req, at, ch)
    case Sending(pid, at) => PlanSend(s, pid, at, ch)
    case Handling(h, ev, at) => PlanEvent(s, h, ev, at, ch)
    case Receiving(h, res, at) => PlanResult(s, h, res, at, ch)
    case Timer(pid, at) => PlanTimer(s, pid, at, ch)
    case Unwinding(_, op) => PlanUnwind(s, op, ch)
    case Closing(h, after, at) => PlanClose(s, h, after, at, ch)
    case ClosingNext(after) => PlanNext(after)
    case Registering(key, tools, at) => PlanRegister(s, key, tools, at, ch)
    case Revoking(client, locked) => PlanRevoke(s, client, locked, ch)
    case Refreshing(h, tools, at) => PlanRefresh(s, h, tools, at, ch)
  }

  // ------------------------------------------------------------------- effects

  /** A deadline task that can still fire. */
  predicate IsTimerFor(pc: Pc, pid: nat) {
    pc.Timer? && pc.pid == pid
  }

  predicate TimerLive(s: State, pid: nat) {
    && pid in s.calls
    && s.calls[pid].timer.Some?
    && s.calls[pid].timer.value in s.tasks
    && IsTimerFor(s.tasks[s.calls[pid].timer.value], pid)
  }

  /** The transaction a deadline task has in flight when it is cancelled. */
  function InFlight(s: State, pc: Pc): Option<(nat, Operation)> {
    if pc.Timer? && pc.phase.TimerRun? && pc.phase.ops != [] && pc.pid in s.calls then
      Some((CallOf(s, pc.pid), pc.phase.ops[0]))
    else None
  }

  /** _cancel_timeout: the cancelled task keeps its locks until it unwinds. */
  function CancelTimer(s: State, t: nat, pid: nat): State {
    if TimerLive(s, pid) && s.calls[pid].timer.value != t then
      var u := s.calls[pid].timer.value;
      s.(tasks := s.tasks[u := Unwinding(Holds(s.tasks[u]), InFlight(s, s.tasks[u]))])
    else s
  }

  function StartTimer(s: State, pid: nat): State
    requires pid in s.calls
  {
    s.(tasks := s.tasks[s.nextTid := Timer(pid, Asleep)],
       calls := s.calls[pid := s.calls[pid].(timer := Some(s.nextTid))],
       nextTid := s.nextTid + 1)
  }

  function Resolve(s: State, pid: nat, how: Settlement): State {
    if pid in s.futures && s.futures[pid] == Open then s.(futures := s.futures[pid := Done(how)]) else s
  }

  ghost function DisconnectedRows(rows: map<nat, Row>, key: Key): map<nat, Row> {
    map c | c in rows :: if rows[c].key == key && |rows[c].log| > 0 then Disconnected(rows[c]) else rows[c]
  }

  /** A new waiter enters the table. */
  function InsertCall(s: State, t: nat, req: Request, conn: nat, awaiting: bool): State {
    s.(pending := s.pending[req.call := s.nextPid],
       calls := s.calls[s.nextPid := Call(req, conn, t, awaiting, None, None)],
       futures := s.futures[s.nextPid := Open],
       nextPid := s.nextPid + 1)
  }

  /** _ensure_timeout_locked, for a waiter that is still in the table. */
  function ArmTimer(s: State, pid: nat): State {
    if pid in s.calls && IsWaiting(s, CallOf(s, pid), pid) && pid in s.futures && s.futures[pid] == Open
       && !TimerLive(s, pid)
    then StartTimer(s, pid) else s
  }

  /** _begin_execution_timeout: a fresh deadline, no longer for the approval. */
  function RearmTimer(s: State, t: nat, pid: nat): State {
    if pid in s.calls then
      var s1 := CancelTimer(s, t, pid);
      StartTimer(s1.(calls := s1.calls[pid := s1.calls[pid].(awaiting := false)]), pid)
    else s
  }

  /** _finish_with_result and _finish_with_exception. */
  function FinishCall(cfg: Config, s: State, t: nat, call: nat, record: Record, how: Settlement): State {
    var s1 := s.(pending := s.pending - {call},
                 terminal := Remember(s.terminal, call, record, cfg.terminalRetention));
    if call in s.pending then Resolve(CancelTimer(s1, t, s.pending[call]), s.pending[call], how) else s1
  }

  /** The end of a deadline: nothing but the table entry goes if it is not this waiter's. */
  function ExpireCall(cfg: Config, s: State, pid: nat): State {
    if pid in s.calls then
      var call := CallOf(s, pid);
      var s1 := s.(pending := s.pending - {call});
      if IsWaiting(s, call, pid) then
        var req := s.calls[pid].request;
        Resolve(s1.(terminal := Remember(s.terminal, call, Record(None, req.request, req.key, TimedOut), cfg.terminalRetention)),
                pid, ByTimeout)
      else s1
    else s
  }

  /** A disconnection takes the session and its waiters out of the tables. */
  function PopSession(s: State, t: nat, key: Key, items: set<nat>): State {
    s.(sessions := s.sessions - {key},
       pending := map c | c in s.pending && s.pending[c] !in items :: s.pending[c],
       calls := map p | p in s.calls :: if p in items then s.calls[p].(closer := Some(t)) else s.calls[p])
  }

  /** ... and then resolves those waiters one by one. */
  function SettleCall(cfg: Config, s: State, t: nat, pid: nat): State {
    if pid in s.calls then
      var req := s.calls[pid].request;
      var s1 := CancelTimer(s, t, pid);
      Resolve(s1.(terminal := Remember(s1.terminal, req.call, Record(None, req.request, req.key, ClientDisconnected), cfg.terminalRetention)),
              pid, ByDisconnection)
    else s
  }

  function OpenSession(cfg: Config, s: State, key: Key, tools: map<nat, Tool>): State {
    s.(sessions := s.sessions[key := Session(s.nextConn, tools)],
       seen := Newest(s.seen + [key], cfg.seenRetention),
       registered := s.registered + [key],
       nextConn := s.nextConn + 1)
  }

  ghost function Apply(cfg: Config, s: State, t: nat, e: Effect): State {
    match e
    case Nop => s
    case WriteRow(call, row) => s.(rows := s.rows[call := row])
    case Insert(req, conn, awaiting) => InsertCall(s, t, req, conn, awaiting)
    case Deliver(pid) => if pid in s.calls then s.(sent := s.sent + [CallOf(s, pid)]) else s
    case Arm(pid) => ArmTimer(s, pid)
    case Rearm(pid) => RearmTimer(s, t, pid)
    case Finish(call, record, how) => FinishCall(cfg, s, t, call, record, how)
    case Expired(pid) => ExpireCall(cfg, s, pid)
    case Pop(key, items) => PopSession(s, t, key, items)
    case CloseCalls(key) => s.(rows := DisconnectedRows(s.rows, key))
    case Settle(pid) => SettleCall(cfg, s, t, pid)
    case AddSession(key, tools) => OpenSession(cfg, s, key, tools)
    case SetTools(key, tools) =>
      if key in s.sessions then s.(sessions := s.sessions[key := s.sessions[key].(tools := tools)]) else s
  }

  ghost function Settled(s: State, t: nat, next: Option<Pc>): State {
    s.(tasks := if next.None? then s.tasks - {t} else s.tasks[t := next.value])
  }

  // ------------------------------------------------------------ steps and runs

  datatype Action =
    | Run(task: nat, choice: Choice)
    | Spawn(pc: Pc)                       // a message, a request or a closing socket arrives
    | Propose(call: nat, row: Row)        // the orchestrator records a new call
    | Prepare(call: nat, to: Status)      // ... validates it or asks for approval
    | Abandon(pid: nat)                   // the awaiting caller cancels its future

  predicate IsEntry(pc: Pc) {
    match pc
    case Dispatching(_, at) => at.AwaitLock?
    case Handling(_, _, at) => at.EventLock?
    case Receiving(_, _, at) => at.ResultEnter?
    case Closing(_, after, at) => at.CloseLock? && after == Finally(false, None)
    case Registering(_, _, at) => at.RegisterLock?
    case Revoking(_, locked) => !locked
    case Refreshing(_, _, at) => at.RegisterLock?
    case _ => false
  }

  /** Does the dispatch that created this waiter still hold on to it? */
  predicate BeingSent(s: State, pid: nat) {
    && pid in s.calls
    && s.calls[pid].sender in s.tasks
    && Sends(s.tasks[s.calls[pid].sender], pid)
  }

  predicate Sends(pc: Pc, pid: nat) {
    || (pc.Sending? && pc.pid == pid)
    || (pc.Closing? && (pc.place.CloseLock? || pc.place.PopIt?) && pc.after.Finally? && pc.after.sender == Some(pid))
  }

  /** Faults a task can meet where it stands: a deadline task is cancelled only by
      the gateway itself and fails only in a transaction, and a disconnection in
      progress fails only if the configuration says that it may. */
  predicate FaultPossible(cfg: Config, pc: Pc, fault: Fault) {
    || fault == Smooth
    || (pc.Timer? && fault == Raise && (pc.phase.TimerRead? || pc.phase.TimerRun?))
    || (pc.Closing? && (cfg.closingMayFail || (pc.place.CloseLock? && pc.after.Finally? && pc.after.sender.None?)))
    || (!pc.Timer? && !pc.Closing?)
  }

  ghost predicate Enabled(cfg: Config, s: State, a: Action) {
    match a
    case Run(t, ch) =>
      && t in s.tasks
      && FaultPossible(cfg, s.tasks[t], ch.fault)
      && (ch.fault == Smooth ==> !Blocked(s, t))
    case Spawn(pc) => IsEntry(pc)
    case Propose(call, row) => call !in s.rows && row.log == [Proposed]
    case Prepare(call, to) =>
      && call in s.rows
      && |s.rows[call].log| > 0
      && to in {Validated, ValidationFailed, AwaitingApproval}
      && Legal(s.rows[call].Current(), to)
    case Abandon(pid) => pid in s.futures && !BeingSent(s, pid)
  }

  ghost function Stepped(cfg: Config, s: State, t: nat, ch: Choice): State
    requires t in s.tasks
  {
    var move := Plan(s, s.tasks[t], ch);
    Settled(Apply(cfg, s, t, move.effect), t, move.next)
  }

  function Arrive(s: State, a: Action): State
    requires !a.Run? && (a.Prepare? ==> a.call in s.rows)
  {
    match a
    case Spawn(pc) => s.(tasks := s.tasks[s.nextTid := pc], nextTid := s.nextTid + 1)
    case Propose(call, row) => s.(rows := s.rows[call := row])
    case Prepare(call, to) => s.(rows := s.rows[call := s.rows[call].Advance(to)])
    case Abandon(pid) => Resolve(s, pid, ByCaller)
  }

  ghost function Do(cfg: Config, s: State, a: Action): State
    requires Enabled(cfg, s, a)
  {
    if a.Run? then Stepped(cfg, s, a.task, a.choice) else Arrive(s, a)
  }

  // ------------------------------------------------------------ the environment

  predicate Awaits(s: State, call: nat) {
    call in s.rows && |s.rows[call].log| > 0 && s.rows[call].Current() == AwaitingApproval
  }

  /** A deadline's reconciliation does not fail. */
  predicate Reconciles(s: State, a: Action) {
    a.Run? && a.task in s.tasks && s.tasks[a.task].Timer? ==> a.choice.fault == Smooth
  }

  /** The client does not report TIMED_OUT for a call whose approval it still awaits. */
  predicate HonestResult(s: State, a: Action) {
    a.Run? && a.task in s.tasks ==>
      var pc := s.tasks[a.task];
      pc.Receiving? && pc.stage.ResultRun? && pc.stage.ops != [] && pc.stage.ops[0] == TimeOut ==>
        !Awaits(s, pc.result.call)
  }

  function Initial(): State {
    State(map[], map[], map[], map[], [], [], map[], map[], [], [], 0, 0, 0)
  }

  /** A run: its states and the actions between them, from an idle gateway. */
  ghost predicate IsRun(cfg: Config, states: seq<State>, actions: seq<Action>) {
    && |states| == |actions| + 1
    && states[0] == Initial()
    && forall i | 0 <= i < |actions| ::
         Enabled(cfg, states[i], actions[i]) && states[i + 1] == Do(cfg, states[i], actions[i])
  }
}
