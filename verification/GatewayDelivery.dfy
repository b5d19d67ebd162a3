/** At-most-once delivery: over a whole run no tool_call_id is written to a socket
    twice, even after the bounded table of finished calls has forgotten it. */
module GatewayDelivery {
  import opened ToolLifecycle
  import opened Options
  import opened ToolRepository
  import opened AgentProtocol
  import opened OrderedTable
  import opened GatewayMachine
  import opened GatewayLocks
  import opened GatewayInvariant
  import opened GatewayWaiters
  import opened GatewaySteps
  import opened GatewayRuns

  // ---------------------------------------------------------------- statements

  /** How far the durable row of a call has come; -1 when there is none. */
  function Stage(s: State, call: nat): int {
    if call in s.rows && |s.rows[call].log| > 0 then Rank(s.rows[call].Current()) else -1
  }

  /** The call has left the statuses from which it may be dispatched. */
  predicate Past(s: State, call: nat) {
    Stage(s, call) >= 3
  }

  predicate AtApproval(s: State, call: nat) {
    Stage(s, call) == 2
  }

  ghost predicate NoObject(s: State, call: nat) {
    forall p | p in s.calls :: CallOf(s, p) != call
  }

  /** The disconnection that took this waiter is about to close its row. */
  predicate Doomed(s: State, pid: nat) {
    InClosing(s, pid) && s.tasks[s.calls[pid].closer.value].place.CloseRows?
  }

  ghost predicate ObjectOk(s: State, pid: nat) {
    && pid in s.calls
    && var call := CallOf(s, pid);
       && call in s.rows
       && s.rows[call].key == s.calls[pid].request.key
       && (Past(s, call) || (AtApproval(s, call) && (Waits(s, pid) || Doomed(s, pid))))
  }

  predicate RowFor(s: State, req: Request) {
    req.call in s.rows && s.rows[req.call].key == req.key
  }

  /** What a dispatch that read AWAITING_APPROVAL may rely on. */
  ghost predicate Dispatchable(s: State, req: Request, conn: nat) {
    || NoObject(s, req.call)
    || !LiveSession(s, Handle(req.key, conn))
    || (req.call in s.pending && AtApproval(s, req.call))
  }

  ghost predicate DispatchFact(s: State, req: Request, at: DispatchAt) {
    match at
    case CheckCall(conn, _, status) =>
      && RowFor(s, req)
      && Stage(s, req.call) >= Rank(status)
      && (status in {Proposed, Validated} ==> NoObject(s, req.call))
      && (status == AwaitingApproval ==> Dispatchable(s, req, conn))
    case QueueIt(_, _) => RowFor(s, req) && NoObject(s, req.call)
    case InsertIt(conn, _) =>
      && RowFor(s, req)
      && (Past(s, req.call) || AtApproval(s, req.call))
      && (NoObject(s, req.call) || !LiveSession(s, Handle(req.key, conn)))
    case _ => true
  }

  /** What each suspended task contributes to the delivery property. */
  ghost predicate Fact(s: State, pc: Pc) {
    match pc
    case Dispatching(req, at) => DispatchFact(s, req, at)
    case Sending(p, at) => at == Write(false) ==> p in s.calls && CallOf(s, p) !in s.sent
    case Handling(_, ev, at) => at.EventRun? && at.ops == [] && at.finish.Some? ==> Past(s, ev.call)
    case Receiving(_, res, at) =>
      && (at.ResultDecide? ==> Stage(s, res.call) >= Rank(at.status))
      && (at.ResultRun? ==> Concluding(at.ops) && (at.ops == [] || at.ops[0] == Start ==> Past(s, res.call)))
    case Timer(p, at) =>
      && p in s.calls
      && (at.TimerFailed? ==> Past(s, CallOf(s, p)))
      && (at.TimerRun? ==> Past(s, CallOf(s, p)) || at.ops == [TimeOut])
    case Unwinding(held, op) => op.Some? ==> DispatchLock in held
    case Closing(h, _, _) => forall p | p in ItemsOf(pc) :: p in s.calls && s.calls[p].request.key == h.key
    case _ => true
  }

  /** The operations a tool.result may lead to. */
  predicate Concluding(ops: seq<Operation>) {
    forall op | op in ops :: op.Start? || op.Complete? || op.Fail? || op.Cancel? || op.TimeOut?
  }

  ghost predicate RowsOk(s: State) {
    forall c | c in s.rows :: s.rows[c].Valid()
  }

  ghost predicate OneObject(s: State) {
    forall p, q | p in s.calls && q in s.calls && CallOf(s, p) == CallOf(s, q) :: p == q
  }

  ghost predicate SentOk(s: State) {
    && (forall i, j | 0 <= i < j < |s.sent| :: s.sent[i] != s.sent[j])
    && (forall c | c in s.sent :: !NoObject(s, c))
  }

  ghost predicate ObjectsOk(s: State) {
    OneObject(s) && forall p | p in s.calls :: ObjectOk(s, p)
  }

  ghost predicate FactsOk(s: State) {
    forall t | t in s.tasks :: Fact(s, s.tasks[t])
  }

  ghost predicate DeliveryInv(s: State) {
    RowsOk(s) && ObjectsOk(s) && SentOk(s) && FactsOk(s)
  }

  /** The environment the property depends on, besides disconnections that succeed. */
  predicate Trusted(s: State, a: Action) {
    Reconciles(s, a) && HonestResult(s, a)
  }

  // ------------------------------------------------------------ the durable rows

  /** Rows are never dropped, keep their owner, and only move forward. */
  ghost predicate RowsGrow(s: State, s': State) {
    && (forall c :: Stage(s', c) >= Stage(s, c))
    && (forall c | c in s.rows :: c in s'.rows && s'.rows[c].key == s.rows[c].key)
  }

  lemma OperationGrows(row: Row, op: Operation, world: World)
    requires row.Valid()
    ensures var (after, reply) := Perform(row, op, world);
            && after.Valid()
            && after.key == row.key
            && Rank(after.Current()) >= Rank(row.Current())
            && (Rank(after.Current()) == Rank(row.Current()) ==> after == row)
            && (reply != Refused ==> Rank(after.Current()) >= 3)
  {
    PerformIsSafe(row, op, world);
    var (after, reply) := Perform(row, op, world);
    if reply != Refused {
      var i :| 0 <= i < |after.log| && after.log[i] == ToolRepository.Target(op);
      RunRanks(after.log, i, |after.log| - 1);
    }
  }

  // ------------------------------------------- interference between the tasks

  /** How far the tables may move under a task that holds none of the stepping
      task's locks. */
  ghost predicate Careful(s: State, s': State, pc: Pc) {
    && RowsGrow(s, s')
    && s.nextConn <= s'.nextConn
    && s.calls.Keys <= s'.calls.Keys
    && (forall p | p in s.calls :: s'.calls[p].request == s.calls[p].request)
    && (forall h: Handle | h.conn < s.nextConn && LiveSession(s', h) :: LiveSession(s, h))
    && (forall c | c in s'.sent && c !in s.sent ::
          pc.Sending? && pc.step == Write(false) && pc.pid in s.calls && c == CallOf(s, pc.pid))
    && (DispatchLock !in Holds(pc) ==>
          && s'.calls.Keys == s.calls.Keys
          && forall c | c in s.pending && AtApproval(s, c) ::
               || (c in s'.pending && AtApproval(s', c))
               || (c in s.rows && s.rows[c].key !in s'.sessions))
  }

  lemma DispatchFactStable(s: State, s': State, pc: Pc, req: Request, at: DispatchAt)
    requires Careful(s, s', pc) && Holds(pc) !! Holds(Dispatching(req, at))
    requires DispatchFact(s, req, at)
    requires !at.AwaitLock? && !at.Route? ==> at.conn < s.nextConn
    ensures DispatchFact(s', req, at)
  {
  }

  lemma FactStable(s: State, s': State, t: nat, u: nat)
    requires t in s.tasks && u in s.tasks && t != u
    requires Careful(s, s', s.tasks[t]) && Holds(s.tasks[t]) !! Holds(s.tasks[u])
    requires PcOk(s, t, s.tasks[t]) && PcOk(s, u, s.tasks[u])
    requires OneObject(s) && Fact(s, s.tasks[u])
    ensures Fact(s', s.tasks[u])
  {
    var pc := s.tasks[u];
    if pc.Dispatching? {
      DispatchFactStable(s, s', s.tasks[t], pc.req, pc.at);
    }
  }

  // ------------------------------------------------------- one step, in general

  /** The other tasks stay as they are, except for a deadline cut short or started. */
  ghost predicate OthersFact(s: State, s1: State, t: nat) {
    && (forall u | u in s1.tasks && u != t :: (u in s.tasks && s1.tasks[u] == s.tasks[u]) || Fact(s1, s1.tasks[u]))
    && (forall u | u in s.tasks && s.tasks[u].Closing? :: u in s1.tasks && s1.tasks[u] == s.tasks[u])
  }

  lemma FactsStep(s: State, s1: State, t: nat, next: Option<Pc>)
    requires Exclusive(s) && TasksOk(s) && FactsOk(s) && OneObject(s) && t in s.tasks
    requires Careful(s, s1, s.tasks[t]) && OthersFact(s, s1, t)
    requires next.Some? ==> Fact(s1, next.value)
    ensures FactsOk(Settled(s1, t, next))
  {
    var s' := Settled(s1, t, next);
    forall u | u in s'.tasks ensures Fact(s', s'.tasks[u]) {
      if u != t && u in s.tasks && s1.tasks[u] == s.tasks[u] {
        ExclusivePair(s, t, u);
        assert PcOk(s, t, s.tasks[t]) && PcOk(s, u, s.tasks[u]);
        FactStable(s, s1, t, u);
      }
      SameFact(s1, s', s'.tasks[u]);
    }
  }

  lemma SameFact(s1: State, s': State, pc: Pc)
    requires s' == s1.(tasks := s'.tasks) && Fact(s1, pc)
    ensures Fact(s', pc)
  {
  }

  /** The waiters the stepping task takes out of the table to close their rows. */
  function Taken(next: Option<Pc>): set<nat> {
    if next.Some? && next.value.Closing? && next.value.place.CloseRows? then next.value.place.items else {}
  }

  /** What a step owes to one waiter whose call still awaits its approval: it stays
      in the table, or the disconnection that holds it is still to close its row. */
  ghost predicate StaysDispatched(s: State, s1: State, t: nat, next: Option<Pc>, p: nat)
    requires p in s.calls && p in s1.calls
  {
    AtApproval(s1, CallOf(s, p)) ==>
      || (Waits(s, p) && Waits(s1, p))
      || (p in Taken(next) && s1.calls[p].closer == Some(t))
      || (Doomed(s, p) && s1.calls[p].closer == s.calls[p].closer && s.calls[p].closer != Some(t))
  }

  lemma ObjectStays(s: State, s1: State, t: nat, next: Option<Pc>, p: nat)
    requires ObjectOk(s, p) && p in s1.calls && t in s.tasks
    requires RowsGrow(s, s1) && s1.calls[p].request == s.calls[p].request
    requires OthersFact(s, s1, t)
    requires StaysDispatched(s, s1, t, next, p)
    ensures ObjectOk(Settled(s1, t, next), p)
  {
  }

  lemma ObjectsStep(s: State, s1: State, t: nat, next: Option<Pc>)
    requires ObjectsOk(s) && t in s.tasks
    requires Careful(s, s1, s.tasks[t]) && OthersFact(s, s1, t)
    requires s1.calls.Keys == s.calls.Keys
    requires forall p | p in s.calls :: StaysDispatched(s, s1, t, next, p)
    ensures ObjectsOk(Settled(s1, t, next))
  {
    forall p | p in s1.calls ensures ObjectOk(Settled(s1, t, next), p) {
      ObjectStays(s, s1, t, next, p);
    }
  }

  ghost predicate SameSent(s: State, s1: State) {
    s1.sent == s.sent && s1.calls.Keys == s.calls.Keys
  }

  lemma SentStep(s: State, s1: State, t: nat, next: Option<Pc>)
    requires SentOk(s) && s1.sent == s.sent && s.calls.Keys <= s1.calls.Keys
    requires forall p | p in s.calls :: s1.calls[p].request == s.calls[p].request
    ensures SentOk(Settled(s1, t, next))
  {
    var s' := Settled(s1, t, next);
    forall c | c in s'.sent ensures !NoObject(s', c) {
      var p :| p in s.calls && CallOf(s, p) == c;
      assert p in s'.calls && CallOf(s', p) == c;
    }
  }

  /** A step that neither sends nor inserts. */
  lemma OrdinaryStep(cfg: Config, s: State, s1: State, t: nat, next: Option<Pc>)
    requires Inv(cfg, s) && DeliveryInv(s) && t in s.tasks
    requires Careful(s, s1, s.tasks[t]) && OthersFact(s, s1, t)
    requires RowsOk(s1) && SameSent(s, s1)
    requires forall p | p in s.calls :: StaysDispatched(s, s1, t, next, p)
    requires next.Some? ==> Fact(s1, next.value)
    ensures DeliveryInv(Settled(s1, t, next))
  {
    FactsStep(s, s1, t, next);
    ObjectsStep(s, s1, t, next);
    SentStep(s, s1, t, next);
  }

  // ------------------------------------------------------- the effects, one by one

  /** Nothing the delivery property depends on moved, except deadlines. */
  ghost predicate Still(s: State, s1: State) {
    && s1.rows == s.rows && s1.sent == s.sent && s1.nextConn >= s.nextConn
    && s1.calls.Keys == s.calls.Keys
    && (forall p | p in s.calls :: s1.calls[p].request == s.calls[p].request && s1.calls[p].closer == s.calls[p].closer)
    && (forall h: Handle | h.conn < s.nextConn && LiveSession(s1, h) :: LiveSession(s, h))
  }

  predicate AboutToClose(pc: Pc) {
    pc.Closing? && pc.place.CloseRows?
  }

  lemma WaiterStays(s: State, s1: State, t: nat, next: Option<Pc>, p: nat)
    requires ObjectOk(s, p) && p in s1.calls && t in s.tasks && !AboutToClose(s.tasks[t])
    requires RowsGrow(s, s1) && s1.calls[p].closer == s.calls[p].closer
    requires Waits(s, p) && AtApproval(s1, CallOf(s, p)) ==> CallOf(s, p) in s1.pending && s1.pending[CallOf(s, p)] == p
    requires s1.calls[p].request == s.calls[p].request
    ensures StaysDispatched(s, s1, t, next, p)
  {
  }

  /** The rows are as they were, and whatever still awaits its approval stays in
      the table. */
  ghost predicate StillMove(s: State, s1: State, t: nat) {
    && Still(s, s1)
    && OthersFact(s, s1, t)
    && forall c | c in s.pending && AtApproval(s, c) :: c in s1.pending && s1.pending[c] == s.pending[c]
  }

  lemma StillIsCareful(s: State, s1: State, t: nat, next: Option<Pc>)
    requires RowsOk(s) && ObjectsOk(s) && t in s.tasks && !AboutToClose(s.tasks[t]) && StillMove(s, s1, t)
    ensures Careful(s, s1, s.tasks[t]) && RowsOk(s1) && SameSent(s, s1)
    ensures forall p | p in s.calls :: StaysDispatched(s, s1, t, next, p)
  {
    forall p | p in s.calls ensures StaysDispatched(s, s1, t, next, p) {
      WaiterStays(s, s1, t, next, p);
    }
  }

  lemma StillStep(cfg: Config, s: State, s1: State, t: nat, next: Option<Pc>)
    requires Inv(cfg, s) && DeliveryInv(s) && t in s.tasks && !AboutToClose(s.tasks[t])
    requires StillMove(s, s1, t)
    requires next.Some? ==> Fact(s1, next.value)
    ensures DeliveryInv(Settled(s1, t, next))
  {
    StillIsCareful(s, s1, t, next);
    OrdinaryStep(cfg, s, s1, t, next);
  }

  lemma Motionless(s: State, t: nat)
    ensures StillMove(s, s, t)
  {
  }

  /** A move without an effect. */
  lemma IdleMove(cfg: Config, s: State, t: nat, next: Option<Pc>)
    requires Inv(cfg, s) && DeliveryInv(s) && t in s.tasks && !AboutToClose(s.tasks[t])
    requires next.Some? ==> Fact(s, next.value)
    ensures DeliveryInv(Settled(s, t, next))
  {
    Motionless(s, t);
    StillStep(cfg, s, s, t, next);
  }

  lemma RowIsCareful(s: State, call: nat, row: Row, pc: Pc)
    requires RowsOk(s) && call in s.rows && row.Valid() && row.key == s.rows[call].key
    requires Rank(row.Current()) >= Rank(s.rows[call].Current())
    requires AtApproval(s, call) && row != s.rows[call] ==> DispatchLock in Holds(pc)
    ensures var s1 := s.(rows := s.rows[call := row]); Careful(s, s1, pc) && RowsOk(s1)
  {
  }

  /** A step that writes one row. */
  lemma RowStep(cfg: Config, s: State, t: nat, call: nat, row: Row, next: Option<Pc>)
    requires Inv(cfg, s) && DeliveryInv(s) && t in s.tasks && !AboutToClose(s.tasks[t])
    requires call in s.rows && row.Valid() && row.key == s.rows[call].key
    requires Rank(row.Current()) >= Rank(s.rows[call].Current())
    requires AtApproval(s, call) && row != s.rows[call] ==> DispatchLock in Holds(s.tasks[t])
    requires next.Some? ==> Fact(s.(rows := s.rows[call := row]), next.value)
    ensures DeliveryInv(Settled(s.(rows := s.rows[call := row]), t, next))
  {
    var s1 := s.(rows := s.rows[call := row]);
    RowIsCareful(s, call, row, s.tasks[t]);
    forall p | p in s.calls ensures StaysDispatched(s, s1, t, next, p) {
      WaiterStays(s, s1, t, next, p);
    }
    OrdinaryStep(cfg, s, s1, t, next);
  }

  // ------------------------------------------------------------- transactions

  /** The state after a transaction on one row: the row moved forward, past
      approval if the transaction was not refused. */
  lemma TransactionGrows(s: State, call: nat, op: Operation, world: World)
    requires RowsOk(s) && call in s.rows
    ensures var (effect, reply) := RunOperation(s, call, op, world);
            && effect.WriteRow? && effect.call == call
            && effect.row.Valid() && effect.row.key == s.rows[call].key
            && Rank(effect.row.Current()) >= Rank(s.rows[call].Current())
            && (reply != Refused ==> Rank(effect.row.Current()) >= 3)
  {
    OperationGrows(s.rows[call], op, world);
  }

  /** No conclusion but TIMED_OUT is legal while the call awaits its approval. */
  lemma RefusedWhileAwaiting(row: Row, op: Operation, world: World)
    requires row.Valid() && row.Current() == AwaitingApproval
    requires op.Complete? || op.Fail? || op.Cancel?
    ensures Perform(row, op, world).0 == row
  {
  }

  /** Where a task stands after a transaction that moved its call past approval. */
  predicate GoesOn(pc: Pc, call: nat) {
    || (pc.Handling? && pc.event.call == call)
    || (pc.Receiving? && pc.result.call == call && pc.stage.ResultRun? && Concluding(pc.stage.ops))
    || (pc.Closing? && pc.place.CloseLock?)
  }

  lemma GoesOnFact(s: State, pc: Pc, call: nat)
    requires GoesOn(pc, call) && Past(s, call)
    ensures Fact(s, pc)
  {
  }

  /** A move that at most writes one row, forward, and under the dispatch lock if
      the call was awaiting its approval. */
  ghost predicate RowMove(s: State, pc: Pc, m: Move) {
    match m.effect
    case Nop => m.next.Some? ==> Fact(s, m.next.value)
    case WriteRow(call, row) =>
      && call in s.rows && row.Valid() && row.key == s.rows[call].key
      && |s.rows[call].log| > 0
      && Rank(row.Current()) >= Rank(s.rows[call].Current())
      && (AtApproval(s, call) && row != s.rows[call] ==> DispatchLock in Holds(pc))
      && (m.next.Some? ==> Fact(s.(rows := s.rows[call := row]), m.next.value))
    case _ => false
  }

  lemma RowMoveStep(cfg: Config, s: State, t: nat, m: Move)
    requires Inv(cfg, s) && DeliveryInv(s) && t in s.tasks && !AboutToClose(s.tasks[t])
    requires RowMove(s, s.tasks[t], m)
    ensures DeliveryInv(Settled(Apply(cfg, s, t, m.effect), t, m.next))
  {
    if m.effect.Nop? {
      IdleMove(cfg, s, t, m.next);
    } else {
      RowStep(cfg, s, t, m.effect.call, m.effect.row, m.next);
    }
  }

  /** A transaction's outcome: a row that moved forward, under the dispatch lock if the
      call was awaiting its approval, and past approval unless it was refused. */
  ghost predicate Forward(s: State, pc: Pc, call: nat, outcome: (Effect, Reply)) {
    || outcome == (Nop, Refused)
    || (&& outcome.0.WriteRow? && outcome.0.call == call && call in s.rows
        && var row := outcome.0.row;
           && row.Valid() && row.key == s.rows[call].key && |s.rows[call].log| > 0
           && Rank(row.Current()) >= Rank(s.rows[call].Current())
           && (AtApproval(s, call) && row != s.rows[call] ==> DispatchLock in Holds(pc))
           && (outcome.1 != Refused ==> Rank(row.Current()) >= 3))
  }

  lemma OperationIsForward(s: State, pc: Pc, call: nat, op: Operation, world: World)
    requires RowsOk(s)
    requires DispatchLock in Holds(pc) || !AtApproval(s, call) || op.Complete? || op.Fail? || op.Cancel?
    ensures Forward(s, pc, call, RunOperation(s, call, op, world))
  {
    if call in s.rows {
      TransactionGrows(s, call, op, world);
      if DispatchLock !in Holds(pc) && AtApproval(s, call) {
        RefusedWhileAwaiting(s.rows[call], op, world);
      }
    }
  }

  lemma TransactFacts(s: State, pc: Pc, ch: Choice, call: nat, outcome: (Effect, Reply), next: Pc, failed: Option<Pc>)
    requires Forward(s, pc, call, outcome) && GoesOn(next, call)
    requires failed.Some? ==> failed.value.Closing? && failed.value.place.CloseLock?
    ensures RowMove(s, pc, Transact(ch, outcome, next, failed))
  {
    if outcome.1 != Refused {
      GoesOnFact(s.(rows := s.rows[call := outcome.0.row]), next, call);
    }
  }

  // ----------------------------------------------------- the effects on deadlines

  lemma CancelOthers(s: State, t: nat, pid: nat)
    ensures OthersFact(s, CancelTimer(s, t, pid), t)
  {
  }

  lemma StartOthers(s: State, s1: State, t: nat, pid: nat)
    requires pid in s1.calls && OthersFact(s, s1, t) && s.nextTid == s1.nextTid && FreshTasks(s)
    requires s1 == s.(tasks := s1.tasks, calls := s1.calls)
    requires s1.tasks.Keys == s.tasks.Keys
    requires s1.calls.Keys == s.calls.Keys && forall p | p in s.calls :: s1.calls[p].request == s.calls[p].request
    ensures OthersFact(s, StartTimer(s1, pid), t)
  {
    var s2 := StartTimer(s1, pid);
    forall u | u in s2.tasks && u != t
      ensures (u in s.tasks && s2.tasks[u] == s.tasks[u]) || Fact(s2, s2.tasks[u])
    {
      if u in s1.tasks && !(u in s.tasks && s1.tasks[u] == s.tasks[u]) {
        TimerBlind(s1, s2, s1.tasks[u]);
      }
    }
  }

  /** What a task contributes does not depend on the deadlines of the waiters. */
  lemma TimerBlind(s1: State, s2: State, pc: Pc)
    requires s2.rows == s1.rows && s2.sent == s1.sent && s2.sessions == s1.sessions && s2.pending == s1.pending
    requires s2.calls.Keys == s1.calls.Keys && forall p | p in s1.calls :: s2.calls[p].request == s1.calls[p].request
    requires Fact(s1, pc)
    ensures Fact(s2, pc)
  {
  }

  lemma ArmIsStill(s: State, t: nat, pid: nat)
    requires FreshTasks(s)
    ensures StillMove(s, ArmTimer(s, pid), t)
  {
    Motionless(s, t);
    if pid in s.calls { StartOthers(s, s, t, pid); }
  }

  lemma RearmIsStill(s: State, t: nat, pid: nat)
    requires FreshTasks(s)
    ensures StillMove(s, RearmTimer(s, t, pid), t)
  {
    Motionless(s, t);
    if pid in s.calls {
      var s1 := CancelTimer(s, t, pid);
      var s2 := s1.(calls := s1.calls[pid := s1.calls[pid].(awaiting := false)]);
      CutIsStill(s, s1, s2, t, pid);
      StartOthers(s, s2, t, pid);
      StartIsStill(s, s2, t, pid);
    }
  }

  lemma CutIsStill(s: State, s1: State, s2: State, t: nat, pid: nat)
    requires pid in s.calls && s1 == CancelTimer(s, t, pid)
    requires s2 == s1.(calls := s1.calls[pid := s1.calls[pid].(awaiting := false)])
    ensures StillMove(s, s2, t) && s2 == s.(tasks := s2.tasks, calls := s2.calls) && s2.tasks.Keys == s.tasks.Keys
  {
    CancelOthers(s, t, pid);
    CancelFrame(s, t, pid);
    forall u | u in s2.tasks && u != t
      ensures (u in s.tasks && s2.tasks[u] == s.tasks[u]) || Fact(s2, s2.tasks[u])
    {
      if s1.tasks[u] != s.tasks[u] {
        TimerBlind(s1, s2, s1.tasks[u]);
      }
    }
  }

  lemma StartIsStill(s: State, s2: State, t: nat, pid: nat)
    requires StillMove(s, s2, t) && pid in s2.calls && OthersFact(s, StartTimer(s2, pid), t)
    ensures StillMove(s, StartTimer(s2, pid), t)
  {
  }

  lemma FinishIsStill(cfg: Config, s: State, t: nat, call: nat, record: Record, how: Settlement)
    requires Past(s, call)
    ensures StillMove(s, FinishCall(cfg, s, t, call, record, how), t)
  {
    var s0 := s.(pending := s.pending - {call},
                 terminal := Remember(s.terminal, call, record, cfg.terminalRetention));
    if call in s.pending {
      CancelOthers(s0, t, s.pending[call]);
      ResolveFrame(CancelTimer(s0, t, s.pending[call]), s.pending[call], how);
    }
    var s1 := FinishCall(cfg, s, t, call, record, how);
    assert s1 == s.(pending := s0.pending, terminal := s0.terminal, tasks := s1.tasks, futures := s1.futures);
    FactsBlind(s, s0, s1, t);
  }

  /** Deadlines are cut in the same way whatever the table of waiters holds. */
  lemma FactsBlind(s: State, s0: State, s1: State, t: nat)
    requires s0.tasks == s.tasks && s0.calls == s.calls && s1.calls == s.calls
    requires s1.tasks == s.tasks || exists pid :: s1.tasks == CancelTimer(s0, t, pid).tasks
    ensures OthersFact(s, s1, t)
  {
  }

  lemma ExpireIsStill(cfg: Config, s: State, t: nat, pid: nat)
    requires pid in s.calls && Past(s, CallOf(s, pid))
    ensures StillMove(s, ExpireCall(cfg, s, pid), t)
  {
    var call, s1 := CallOf(s, pid), ExpireCall(cfg, s, pid);
    assert s1 == s.(pending := s.pending - {call}, terminal := s1.terminal, futures := s1.futures);
    FactsBlind(s, s, s1, t);
  }

  lemma SettleIsStill(cfg: Config, s: State, t: nat, pid: nat)
    ensures StillMove(s, SettleCall(cfg, s, t, pid), t)
  {
    Motionless(s, t);
    if pid in s.calls {
      var s1 := SettleCall(cfg, s, t, pid);
      CancelOthers(s, t, pid);
      assert s1 == s.(terminal := s1.terminal, tasks := CancelTimer(s, t, pid).tasks, futures := s1.futures);
      FactsBlind(s, s, s1, t);
    }
  }

  // ------------------------------------------------------------ the steps by task

  lemma HandlingFacts(s: State, h: Handle, ev: Event, at: EventAt, ch: Choice)
    requires RowsOk(s) && Fact(s, Handling(h, ev, at))
    ensures var m := PlanEvent(s, h, ev, at, ch);
            || RowMove(s, Handling(h, ev, at), m)
            || (m.effect.Rearm? && m.next.None?)
            || (m.effect.Finish? && Past(s, m.effect.call) && m.next.None?)
  {
    var pc := Handling(h, ev, at);
    match at
    case EventApprove(pid) =>
      OperationIsForward(s, pc, ev.call, Approve, ch.world);
      TransactFacts(s, pc, ch, ev.call, RunOperation(s, ev.call, Approve, ch.world), Handling(h, ev, EventQueue(pid)), None);
    case EventQueue(pid) =>
      OperationIsForward(s, pc, ev.call, Queue, ch.world);
      TransactFacts(s, pc, ch, ev.call, RunOperation(s, ev.call, Queue, ch.world), Handling(h, ev, EventArm(pid)),
                    if ch.fault == CancelTask then None else Some(Closing(h, Finally(true, None), CloseLock)));
    case EventRun(ops, finish) =>
      if ops != [] {
        OperationIsForward(s, pc, ev.call, ops[0], ch.world);
        TransactFacts(s, pc, ch, ev.call, RunOperation(s, ev.call, ops[0], ch.world),
                      Handling(h, ev, EventRun(ops[1..], finish)), None);
      }
    case _ =>
  }

  lemma HandlingDelivery(cfg: Config, s: State, t: nat, ch: Choice)
    requires Inv(cfg, s) && DeliveryInv(s) && t in s.tasks && s.tasks[t].Handling?
    ensures DeliveryInv(Stepped(cfg, s, t, ch))
  {
    var pc := s.tasks[t];
    HandlingFacts(s, pc.handle, pc.event, pc.turn, ch);
    var m := PlanEvent(s, pc.handle, pc.event, pc.turn, ch);
    if RowMove(s, pc, m) { RowMoveStep(cfg, s, t, m); }
    else if m.effect.Rearm? {
      RearmIsStill(s, t, m.effect.pid);
      StillStep(cfg, s, RearmTimer(s, t, m.effect.pid), t, None);
    }
    else {
      FinishIsStill(cfg, s, t, m.effect.call, m.effect.record, m.effect.how);
      StillStep(cfg, s, FinishCall(cfg, s, t, m.effect.call, m.effect.record, m.effect.how), t, m.next);
    }
  }

  lemma ReceivingFacts(s: State, h: Handle, res: Result, at: ResultAt, ch: Choice)
    requires RowsOk(s) && Fact(s, Receiving(h, res, at))
    requires at.ResultRun? && at.ops != [] && at.ops[0] == TimeOut ==> !AtApproval(s, res.call)
    ensures var m := PlanResult(s, h, res, at, ch);
            || RowMove(s, Receiving(h, res, at), m)
            || (m.effect.Finish? && Past(s, m.effect.call) && IsHangup(m.next))
  {
    if at.ResultRun? && at.ops != [] {
      assert at.ops[0] in at.ops;
      OperationIsForward(s, Receiving(h, res, at), res.call, at.ops[0], ch.world);
      TransactFacts(s, Receiving(h, res, at), ch, res.call, RunOperation(s, res.call, at.ops[0], ch.world),
                    Receiving(h, res, ResultRun(at.ops[1..])), None);
    }
  }

  lemma ReceivingDelivery(cfg: Config, s: State, t: nat, ch: Choice)
    requires Inv(cfg, s) && DeliveryInv(s) && t in s.tasks && s.tasks[t].Receiving?
    requires Trusted(s, Run(t, ch))
    ensures DeliveryInv(Stepped(cfg, s, t, ch))
  {
    var pc := s.tasks[t];
    ReceivingFacts(s, pc.handle, pc.result, pc.stage, ch);
    var m := PlanResult(s, pc.handle, pc.result, pc.stage, ch);
    if RowMove(s, pc, m) { RowMoveStep(cfg, s, t, m); }
    else {
      FinishIsStill(cfg, s, t, m.effect.call, m.effect.record, m.effect.how);
      StillStep(cfg, s, FinishCall(cfg, s, t, m.effect.call, m.effect.record, m.effect.how), t, m.next);
    }
  }

  lemma TimerFact(s: State, pid: nat, at: TimerAt, ch: Choice)
    requires RowsOk(s) && Fact(s, Timer(pid, at)) && ObjectOk(s, pid) && ch.fault == Smooth
    ensures var m := PlanTimer(s, pid, at, ch);
            || RowMove(s, Timer(pid, at), m)
            || (m == Move(Expired(pid), None) && Past(s, CallOf(s, pid)))
  {
    if at.TimerRun? && at.ops != [] {
      var call := CallOf(s, pid);
      TransactionGrows(s, call, at.ops[0], ch.world);
    }
  }

  lemma TimerDelivery(cfg: Config, s: State, t: nat, ch: Choice)
    requires Inv(cfg, s) && DeliveryInv(s) && t in s.tasks && s.tasks[t].Timer?
    requires Trusted(s, Run(t, ch))
    ensures DeliveryInv(Stepped(cfg, s, t, ch))
  {
    var pc := s.tasks[t];
    assert Fact(s, pc);
    assert ObjectOk(s, pc.pid);
    TimerFact(s, pc.pid, pc.phase, ch);
    var m := PlanTimer(s, pc.pid, pc.phase, ch);
    if RowMove(s, pc, m) { RowMoveStep(cfg, s, t, m); } else {
      ExpireIsStill(cfg, s, t, pc.pid);
      StillStep(cfg, s, ExpireCall(cfg, s, pc.pid), t, None);
    }
  }

  lemma UnwindingDelivery(cfg: Config, s: State, t: nat, ch: Choice)
    requires Inv(cfg, s) && DeliveryInv(s) && t in s.tasks && s.tasks[t].Unwinding?
    ensures DeliveryInv(Stepped(cfg, s, t, ch))
  {
    var pc := s.tasks[t];
    assert Fact(s, pc);
    var m := PlanUnwind(s, pc.op, ch);
    if !m.effect.Nop? {
      TransactionGrows(s, pc.op.value.0, pc.op.value.1, ch.world);
    }
    RowMoveStep(cfg, s, t, m);
  }

  lemma PopWaiter(s: State, t: nat, h: Handle, after: After, p: nat)
    requires WellFormed(s) && ObjectOk(s, p) && t in s.tasks && s.tasks[t] == Closing(h, after, PopIt)
    ensures var items := WaitersOf(s, h.key);
            StaysDispatched(s, PopSession(s, t, h.key, items), t, Some(Closing(h, after, CloseRows(items))), p)
  {
  }

  lemma PopKeepsDispatched(s: State, t: nat, key: Key, c: nat)
    requires WellFormed(s) && c in s.pending && ObjectOk(s, s.pending[c])
    ensures var s1 := PopSession(s, t, key, WaitersOf(s, key));
            c in s1.pending || (c in s.rows && s.rows[c].key !in s1.sessions)
  {
  }

  lemma PopIsCareful(s: State, t: nat, h: Handle, after: After)
    requires ObjectsOk(s) && WellFormed(s) && t in s.tasks && s.tasks[t] == Closing(h, after, PopIt)
    ensures var s1 := PopSession(s, t, h.key, WaitersOf(s, h.key));
            Careful(s, s1, s.tasks[t]) && OthersFact(s, s1, t) && SameSent(s, s1) && s1.rows == s.rows
  {
    forall c | c in s.pending && AtApproval(s, c)
      ensures var s1 := PopSession(s, t, h.key, WaitersOf(s, h.key));
              c in s1.pending || (c in s.rows && s.rows[c].key !in s1.sessions)
    {
      PopKeepsDispatched(s, t, h.key, c);
    }
  }

  lemma PopDelivery(cfg: Config, s: State, t: nat, h: Handle, after: After)
    requires Inv(cfg, s) && DeliveryInv(s) && t in s.tasks && s.tasks[t] == Closing(h, after, PopIt)
    ensures var items := WaitersOf(s, h.key);
            DeliveryInv(Settled(PopSession(s, t, h.key, items), t, Some(Closing(h, after, CloseRows(items)))))
  {
    var items := WaitersOf(s, h.key);
    var s1, next := PopSession(s, t, h.key, items), Some(Closing(h, after, CloseRows(items)));
    PopIsCareful(s, t, h, after);
    forall p | p in s.calls ensures StaysDispatched(s, s1, t, next, p) {
      PopWaiter(s, t, h, after, p);
    }
    OrdinaryStep(cfg, s, s1, t, next);
  }

  lemma CloseRowsAdvance(s: State, key: Key)
    requires RowsOk(s)
    ensures var s1 := s.(rows := DisconnectedRows(s.rows, key)); RowsGrow(s, s1) && RowsOk(s1)
    ensures forall c | c in s.rows && s.rows[c].key == key :: Past(s.(rows := DisconnectedRows(s.rows, key)), c)
  {
    forall c | c in s.rows ensures Disconnected(s.rows[c]).Valid() && IsTerminal(Disconnected(s.rows[c]).Current()) {
      DisconnectedIsValid(s.rows[c]);
    }
  }

  lemma CloseRowsIsCareful(s: State, t: nat, h: Handle, after: After, items: set<nat>, next: Option<Pc>)
    requires RowsOk(s) && ObjectsOk(s) && h.key !in s.sessions
    requires t in s.tasks && s.tasks[t] == Closing(h, after, CloseRows(items)) && Fact(s, s.tasks[t])
    ensures var s1 := s.(rows := DisconnectedRows(s.rows, h.key));
            && Careful(s, s1, s.tasks[t]) && RowsOk(s1)
            && forall p | p in s.calls :: StaysDispatched(s, s1, t, next, p)
  {
    var s1 := s.(rows := DisconnectedRows(s.rows, h.key));
    CloseRowsAdvance(s, h.key);
    forall p | p in s.calls ensures StaysDispatched(s, s1, t, next, p) {
      assert ObjectOk(s, p);
    }
  }

  lemma CloseRowsDelivery(cfg: Config, s: State, t: nat, h: Handle, after: After, items: set<nat>, next: Option<Pc>)
    requires Inv(cfg, s) && DeliveryInv(s) && t in s.tasks && s.tasks[t] == Closing(h, after, CloseRows(items))
    requires next == Some(Closing(h, after, CloseSettle(items)))
    ensures DeliveryInv(Settled(s.(rows := DisconnectedRows(s.rows, h.key)), t, next))
  {
    assert PcOk(s, t, s.tasks[t]) && Fact(s, s.tasks[t]);
    CloseRowsIsCareful(s, t, h, after, items, next);
    OrdinaryStep(cfg, s, s.(rows := DisconnectedRows(s.rows, h.key)), t, next);
  }

  lemma SettleDelivery(cfg: Config, s: State, t: nat, h: Handle, after: After, items: set<nat>, pid: nat)
    requires Inv(cfg, s) && DeliveryInv(s) && t in s.tasks && s.tasks[t] == Closing(h, after, CloseSettle(items))
    ensures DeliveryInv(Settled(SettleCall(cfg, s, t, pid), t, Some(Closing(h, after, CloseSettle(items - {pid})))))
  {
    assert Fact(s, s.tasks[t]);
    SettleIsStill(cfg, s, t, pid);
    StillStep(cfg, s, SettleCall(cfg, s, t, pid), t, Some(Closing(h, after, CloseSettle(items - {pid}))));
  }

  /** The other moves of a disconnection touch no table. */
  lemma ClosingFacts(cfg: Config, s: State, h: Handle, after: After, at: CloseAt, ch: Choice)
    requires !cfg.closingMayFail && FaultPossible(cfg, Closing(h, after, at), ch.fault)
    requires Fact(s, Closing(h, after, at))
    ensures var m := PlanClose(s, h, after, at, ch);
            if at.CloseRows? then m == Move(CloseCalls(h.key), Some(Closing(h, after, CloseSettle(at.items))))
            else if m.effect.Pop? then
              at.PopIt? && m == Move(Pop(h.key, WaitersOf(s, h.key)), Some(Closing(h, after, CloseRows(WaitersOf(s, h.key)))))
            else if m.effect.Settle? then
              at.CloseSettle? && m == Move(Settle(ch.item), Some(Closing(h, after, CloseSettle(at.items - {ch.item}))))
            else m.effect.Nop? && (m.next.Some? ==> Fact(s, m.next.value))
  {
  }

  lemma ClosingMove(cfg: Config, s: State, t: nat, m: Move, item: nat)
    requires Inv(cfg, s) && DeliveryInv(s) && t in s.tasks && s.tasks[t].Closing?
    requires var pc := s.tasks[t];
             if pc.place.CloseRows? then
               m == Move(CloseCalls(pc.handle.key), Some(Closing(pc.handle, pc.after, CloseSettle(pc.place.items))))
             else if m.effect.Pop? then
               && pc.place.PopIt?
               && m == Move(Pop(pc.handle.key, WaitersOf(s, pc.handle.key)),
                            Some(Closing(pc.handle, pc.after, CloseRows(WaitersOf(s, pc.handle.key)))))
             else if m.effect.Settle? then
               && pc.place.CloseSettle?
               && m == Move(Settle(item), Some(Closing(pc.handle, pc.after, CloseSettle(pc.place.items - {item}))))
             else m.effect.Nop? && (m.next.Some? ==> Fact(s, m.next.value))
    ensures DeliveryInv(Settled(Apply(cfg, s, t, m.effect), t, m.next))
  {
    var pc := s.tasks[t];
    if pc.place.CloseRows? {
      CloseRowsDelivery(cfg, s, t, pc.handle, pc.after, pc.place.items, m.next);
    } else if m.effect.Pop? {
      PopDelivery(cfg, s, t, pc.handle, pc.after);
    } else if m.effect.Settle? {
      SettleDelivery(cfg, s, t, pc.handle, pc.after, pc.place.items, item);
    } else {
      IdleMove(cfg, s, t, m.next);
    }
  }

  lemma ClosingDelivery(cfg: Config, s: State, t: nat, ch: Choice)
    requires Inv(cfg, s) && DeliveryInv(s) && t in s.tasks && s.tasks[t].Closing?
    requires !cfg.closingMayFail && FaultPossible(cfg, s.tasks[t], ch.fault)
    ensures DeliveryInv(Stepped(cfg, s, t, ch))
  {
    var pc := s.tasks[t];
    assert Fact(s, pc);
    ClosingFacts(cfg, s, pc.handle, pc.after, pc.place, ch);
    ClosingMove(cfg, s, t, PlanClose(s, pc.handle, pc.after, pc.place, ch), ch.item);
  }

  // dispatch and sending

  lemma ReadEstablishes(s: State, req: Request, conn: nat, tool: Tool)
    requires WellFormed(s) && TasksOk(s) && RowsOk(s) && ObjectsOk(s) && FactsOk(s)
    requires req.call in s.rows && Correlates(s.rows[req.call], req.request, req.key)
    ensures Fact(s, Dispatching(req, CheckCall(conn, tool, s.rows[req.call].Current())))
  {
    if !NoObject(s, req.call) {
      var p :| p in s.calls && CallOf(s, p) == req.call;
      assert ObjectOk(s, p);
      if Doomed(s, p) {
        var u := s.calls[p].closer.value;
        assert PcOk(s, u, s.tasks[u]) && Fact(s, s.tasks[u]);
      }
    }
  }

  lemma DispatchingFacts(s: State, req: Request, at: DispatchAt, ch: Choice)
    requires WellFormed(s) && RowsOk(s) && Fact(s, Dispatching(req, at))
    requires at.ReadCall? && req.call in s.rows && Correlates(s.rows[req.call], req.request, req.key) ==>
               Fact(s, Dispatching(req, CheckCall(at.conn, at.tool, s.rows[req.call].Current())))
    ensures var m := PlanDispatch(s, req, at, ch);
            || RowMove(s, Dispatching(req, at), m)
            || (&& at.InsertIt? && LiveSession(s, Handle(req.key, at.conn))
                && m == Move(Insert(req, at.conn, at.tool.approval), Some(Sending(s.nextPid, Write(false)))))
  {
    if at.QueueIt? {
      TransactionGrows(s, req.call, Queue, ch.world);
    }
  }

  /** The new waiter is the only one its call ever had. */
  lemma InsertDelivery(cfg: Config, s: State, t: nat, req: Request, at: DispatchAt)
    requires Inv(cfg, s) && DeliveryInv(s) && t in s.tasks && s.tasks[t] == Dispatching(req, at)
    requires at.InsertIt? && LiveSession(s, Handle(req.key, at.conn))
    ensures DeliveryInv(Settled(InsertCall(s, t, req, at.conn, at.tool.approval), t, Some(Sending(s.nextPid, Write(false)))))
  {
    var s1, next := InsertCall(s, t, req, at.conn, at.tool.approval), Some(Sending(s.nextPid, Write(false)));
    assert Fact(s, s.tasks[t]);
    InsertIsCareful(s, t, req, at);
    InsertObjects(s, t, req, at, next);
    FactsStep(s, s1, t, next);
    SentStep(s, s1, t, next);
  }

  lemma InsertIsCareful(s: State, t: nat, req: Request, at: DispatchAt)
    requires WellFormed(s) && ObjectsOk(s) && SentOk(s)
    requires t in s.tasks && s.tasks[t] == Dispatching(req, at) && Fact(s, s.tasks[t])
    requires at.InsertIt? && LiveSession(s, Handle(req.key, at.conn))
    ensures var s1 := InsertCall(s, t, req, at.conn, at.tool.approval);
            && Careful(s, s1, s.tasks[t]) && OthersFact(s, s1, t)
            && Fact(s1, Sending(s.nextPid, Write(false)))
            && (forall p | p in s.calls :: s1.calls[p].request == s.calls[p].request)
  {
    assert forall p | p in s.calls :: p != s.nextPid;
  }

  /** The waiters that were there before keep their place. */
  lemma InsertKeepsObject(s: State, t: nat, req: Request, conn: nat, awaiting: bool, next: Option<Pc>, p: nat)
    requires WellFormed(s) && t in s.tasks && s.tasks[t].Dispatching? && ObjectOk(s, p) && NoObject(s, req.call)
    ensures ObjectOk(Settled(InsertCall(s, t, req, conn, awaiting), t, next), p)
  {
    assert p != s.nextPid;
  }

  lemma InsertObjects(s: State, t: nat, req: Request, at: DispatchAt, next: Option<Pc>)
    requires WellFormed(s) && ObjectsOk(s)
    requires t in s.tasks && s.tasks[t] == Dispatching(req, at) && Fact(s, s.tasks[t])
    requires at.InsertIt? && LiveSession(s, Handle(req.key, at.conn))
    ensures ObjectsOk(Settled(InsertCall(s, t, req, at.conn, at.tool.approval), t, next))
  {
    var s' := Settled(InsertCall(s, t, req, at.conn, at.tool.approval), t, next);
    assert NoObject(s, req.call);
    forall p | p in s'.calls ensures ObjectOk(s', p) {
      if p != s.nextPid {
        InsertKeepsObject(s, t, req, at.conn, at.tool.approval, next, p);
      }
    }
  }

  lemma DispatchingDelivery(cfg: Config, s: State, t: nat, ch: Choice)
    requires Inv(cfg, s) && DeliveryInv(s) && t in s.tasks && s.tasks[t].Dispatching?
    ensures DeliveryInv(Stepped(cfg, s, t, ch))
  {
    var pc := s.tasks[t];
    assert Fact(s, pc);
    if pc.at.ReadCall? && pc.req.call in s.rows && Correlates(s.rows[pc.req.call], pc.req.request, pc.req.key) {
      ReadEstablishes(s, pc.req, pc.at.conn, pc.at.tool);
    }
    DispatchingFacts(s, pc.req, pc.at, ch);
    var m := PlanDispatch(s, pc.req, pc.at, ch);
    if RowMove(s, pc, m) { RowMoveStep(cfg, s, t, m); } else { InsertDelivery(cfg, s, t, pc.req, pc.at); }
  }

  lemma DeliverIsCareful(s: State, t: nat, pid: nat)
    requires ObjectsOk(s) && SentOk(s)
    requires t in s.tasks && s.tasks[t] == Sending(pid, Write(false)) && Fact(s, s.tasks[t])
    ensures var s1, next := s.(sent := s.sent + [CallOf(s, pid)]), Some(Sending(pid, Write(true)));
            && Careful(s, s1, s.tasks[t]) && OthersFact(s, s1, t)
            && Fact(s1, next.value)
            && SentOk(Settled(s1, t, next))
            && forall p | p in s.calls :: StaysDispatched(s, s1, t, next, p)
  {
    var s1, next := s.(sent := s.sent + [CallOf(s, pid)]), Some(Sending(pid, Write(true)));
    var s' := Settled(s1, t, next);
    forall c | c in s'.sent ensures !NoObject(s', c) {
      if c in s.sent {
        var p :| p in s.calls && CallOf(s, p) == c;
        assert p in s'.calls && CallOf(s', p) == c;
      } else {
        assert pid in s'.calls && CallOf(s', pid) == c;
      }
    }
    forall p | p in s.calls ensures StaysDispatched(s, s1, t, next, p) {
      assert ObjectOk(s, p);
    }
  }

  lemma DeliverDelivery(cfg: Config, s: State, t: nat, pid: nat)
    requires Inv(cfg, s) && DeliveryInv(s) && t in s.tasks && s.tasks[t] == Sending(pid, Write(false)) && pid in s.calls
    ensures DeliveryInv(Settled(s.(sent := s.sent + [CallOf(s, pid)]), t, Some(Sending(pid, Write(true)))))
  {
    var s1, next := s.(sent := s.sent + [CallOf(s, pid)]), Some(Sending(pid, Write(true)));
    assert Fact(s, s.tasks[t]);
    DeliverIsCareful(s, t, pid);
    FactsStep(s, s1, t, next);
    ObjectsStep(s, s1, t, next);
  }

  lemma ArmMove(cfg: Config, s: State, t: nat, pid: nat)
    requires Inv(cfg, s) && DeliveryInv(s) && t in s.tasks && !AboutToClose(s.tasks[t])
    ensures DeliveryInv(Settled(ArmTimer(s, pid), t, None))
  {
    ArmIsStill(s, t, pid);
    StillStep(cfg, s, ArmTimer(s, pid), t, None);
  }

  lemma SendingFacts(s: State, pid: nat, at: SendAt, ch: Choice)
    requires Fact(s, Sending(pid, at))
    ensures var m := PlanSend(s, pid, at, ch);
            || (m == Move(Deliver(pid), Some(Sending(pid, Write(true)))) && at == Write(false) && pid in s.calls)
            || m == Move(Arm(pid), None)
            || (m.effect.Nop? && (m.next.Some? ==> Fact(s, m.next.value)))
  {
  }

  /** What a sending step leads to, told by its move. */
  lemma SendingMoves(cfg: Config, s: State, t: nat, pid: nat, m: Move)
    requires t in s.tasks && pid in s.calls
    ensures m == Move(Deliver(pid), Some(Sending(pid, Write(true)))) ==>
              Settled(Apply(cfg, s, t, m.effect), t, m.next)
              == Settled(s.(sent := s.sent + [CallOf(s, pid)]), t, Some(Sending(pid, Write(true))))
    ensures m == Move(Arm(pid), None) ==> Settled(Apply(cfg, s, t, m.effect), t, m.next) == Settled(ArmTimer(s, pid), t, None)
    ensures m.effect.Nop? ==> Settled(Apply(cfg, s, t, m.effect), t, m.next) == Settled(s, t, m.next)
  {
  }

  lemma SendingDelivery(cfg: Config, s: State, t: nat, ch: Choice)
    requires Inv(cfg, s) && DeliveryInv(s) && t in s.tasks && s.tasks[t].Sending?
    ensures DeliveryInv(Stepped(cfg, s, t, ch))
  {
    var pid, m := s.tasks[t].pid, PlanSend(s, s.tasks[t].pid, s.tasks[t].step, ch);
    assert Fact(s, s.tasks[t]) && PcOk(s, t, s.tasks[t]);
    SendingFacts(s, pid, s.tasks[t].step, ch);
    SendingMoves(cfg, s, t, pid, m);
    SendingOutcome(cfg, s, t, pid, m);
  }

  lemma SendingOutcome(cfg: Config, s: State, t: nat, pid: nat, m: Move)
    requires Inv(cfg, s) && DeliveryInv(s) && t in s.tasks && s.tasks[t].Sending? && s.tasks[t].pid == pid && pid in s.calls
    requires || (m == Move(Deliver(pid), Some(Sending(pid, Write(true)))) && s.tasks[t].step == Write(false))
             || m == Move(Arm(pid), None)
             || (m.effect.Nop? && (m.next.Some? ==> Fact(s, m.next.value)))
    ensures m.effect.Deliver? ==>
              DeliveryInv(Settled(s.(sent := s.sent + [CallOf(s, pid)]), t, Some(Sending(pid, Write(true)))))
    ensures m.effect.Arm? ==> DeliveryInv(Settled(ArmTimer(s, pid), t, None))
    ensures m.effect.Nop? ==> DeliveryInv(Settled(s, t, m.next))
  {
    if m.effect.Deliver? { DeliverDelivery(cfg, s, t, pid); }
    else if m.effect.Arm? { ArmMove(cfg, s, t, pid); }
    else { IdleMove(cfg, s, t, m.next); }
  }

  // registration and the rest

  lemma RegistryIsStill(cfg: Config, s: State, t: nat, e: Effect)
    requires WellFormed(s) && (e.Nop? || e.AddSession? || e.SetTools?)
    ensures StillMove(s, Apply(cfg, s, t, e), t)
  {
  }

  lemma RegistryFacts(s: State, pc: Pc, ch: Choice)
    requires pc.Registering? || pc.ClosingNext? || pc.Revoking? || pc.Refreshing?
    ensures var m := Plan(s, pc, ch);
            && (m.effect.Nop? || m.effect.AddSession? || m.effect.SetTools?)
            && forall s1 :: m.next.Some? ==> Fact(s1, m.next.value)
  {
  }

  lemma RegistryDelivery(cfg: Config, s: State, t: nat, ch: Choice)
    requires Inv(cfg, s) && DeliveryInv(s) && t in s.tasks
    requires var pc := s.tasks[t]; pc.Registering? || pc.ClosingNext? || pc.Revoking? || pc.Refreshing?
    ensures DeliveryInv(Stepped(cfg, s, t, ch))
  {
    var m := Plan(s, s.tasks[t], ch);
    RegistryFacts(s, s.tasks[t], ch);
    RegistryIsStill(cfg, s, t, m.effect);
    StillStep(cfg, s, Apply(cfg, s, t, m.effect), t, m.next);
  }

  // ------------------------------------------------------------------ every step

  lemma RunKeepsDelivery(cfg: Config, s: State, t: nat, ch: Choice)
    requires Inv(cfg, s) && DeliveryInv(s) && !cfg.closingMayFail
    requires Enabled(cfg, s, Run(t, ch)) && Trusted(s, Run(t, ch))
    ensures DeliveryInv(Stepped(cfg, s, t, ch))
  {
    var pc := s.tasks[t];
    if pc.Dispatching? { DispatchingDelivery(cfg, s, t, ch); }
    else if pc.Sending? { SendingDelivery(cfg, s, t, ch); }
    else if pc.Handling? { HandlingDelivery(cfg, s, t, ch); }
    else if pc.Receiving? { ReceivingDelivery(cfg, s, t, ch); }
    else if pc.Timer? { TimerDelivery(cfg, s, t, ch); }
    else if pc.Unwinding? { UnwindingDelivery(cfg, s, t, ch); }
    else if pc.Closing? { ClosingDelivery(cfg, s, t, ch); }
    else { RegistryDelivery(cfg, s, t, ch); }
  }

  lemma PrepareIsQuieter(s: State, call: nat, to: Status)
    requires RowsOk(s) && call in s.rows && Legal(s.rows[call].Current(), to)
    requires to in {Validated, ValidationFailed, AwaitingApproval}
    ensures var s' := s.(rows := s.rows[call := s.rows[call].Advance(to)]); Quieter(s, s') && RowsOk(s')
  {
    AdvanceIsValid(s.rows[call], to);
  }

  lemma ArrivalIsQuieter(cfg: Config, s: State, a: Action)
    requires RowsOk(s) && FreshTasks(s) && Enabled(cfg, s, a) && !a.Run?
    ensures var s' := Arrive(s, a);
            && Quieter(s, s') && RowsOk(s')
            && (forall t | t in s'.tasks :: if t in s.tasks then s'.tasks[t] == s.tasks[t] else IsEntry(s'.tasks[t]))
            && s.tasks.Keys <= s'.tasks.Keys
  {
    if a.Prepare? { PrepareIsQuieter(s, a.call, a.to); }
  }

  lemma QuieterDelivery(s: State, s': State)
    requires WellFormed(s) && DeliveryInv(s) && Quieter(s, s') && RowsOk(s')
    requires forall t | t in s'.tasks :: if t in s.tasks then s'.tasks[t] == s.tasks[t] else IsEntry(s'.tasks[t])
    requires s.tasks.Keys <= s'.tasks.Keys
    ensures DeliveryInv(s')
  {
    forall t | t in s'.tasks ensures Fact(s', s'.tasks[t]) {
      if t in s.tasks { QuieterFact(s, s', s.tasks[t]); }
    }
    forall p | p in s'.calls ensures ObjectOk(s', p) {
      assert ObjectOk(s, p);
    }
    forall c | c in s'.sent ensures !NoObject(s', c) {
      var p :| p in s.calls && CallOf(s, p) == c;
      assert p in s'.calls && CallOf(s', p) == c;
    }
  }

  /** The rows only moved where nobody has a waiter yet. */
  ghost predicate Quieter(s: State, s': State) {
    && s' == s.(rows := s'.rows, tasks := s'.tasks, nextTid := s'.nextTid, futures := s'.futures)
    && RowsGrow(s, s')
    && forall c :: Stage(s, c) >= 2 ==> Stage(s', c) == Stage(s, c)
  }

  lemma QuieterFact(s: State, s': State, pc: Pc)
    requires Quieter(s, s') && Fact(s, pc)
    ensures Fact(s', pc)
  {
  }

  lemma {:induction false} RunsKeepDelivery(cfg: Config, states: seq<State>, actions: seq<Action>, i: nat)
    requires IsRun(cfg, states, actions) && !cfg.closingMayFail && i < |states|
    requires forall k | 0 <= k < |actions| :: Trusted(states[k], actions[k])
    ensures DeliveryInv(states[i])
  {
    if i > 0 {
      var s, a := states[i - 1], actions[i - 1];
      RunsKeepDelivery(cfg, states, actions, i - 1);
      RunsKeepInv(cfg, states, actions, i - 1);
      if a.Run? {
        RunKeepsDelivery(cfg, s, a.task, a.choice);
      } else {
        ArrivalIsQuieter(cfg, s, a);
        QuieterDelivery(s, states[i]);
      }
    }
  }

  /** No tool_call_id is ever written to a socket twice. */
  lemma AtMostOnceDelivery(cfg: Config, states: seq<State>, actions: seq<Action>, i: nat, a: nat, b: nat)
    requires IsRun(cfg, states, actions) && !cfg.closingMayFail && i < |states|
    requires forall k | 0 <= k < |actions| :: Trusted(states[k], actions[k])
    requires a < b < |states[i].sent|
    ensures states[i].sent[a] != states[i].sent[b]
  {
    RunsKeepDelivery(cfg, states, actions, i);
  }
}
