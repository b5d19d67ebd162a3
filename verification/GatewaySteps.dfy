/** Every step of the gateway keeps its invariant; hence the main results about
    waiters and sessions, on every run. */
module GatewaySteps {
  import opened ToolLifecycle
  import opened Options
  import opened ToolRepository
  import opened AgentProtocol
  import opened OrderedTable
  import opened GatewayMachine
  import opened GatewayLocks
  import opened GatewayInvariant
  import opened GatewayWaiters

  ghost predicate TablesOk(cfg: Config, s: State) {
    WellFormed(s) && SessionsOk(s) && HistoryOk(cfg, s)
  }

  /** What holds in every run, also when disconnections fail part way. */
  ghost predicate Core(cfg: Config, s: State) {
    Exclusive(s) && TablesOk(cfg, s) && TasksOk(s)
  }

  /** A step keeps the tables and the tasks' assumptions; it keeps the waiters too, as
      long as no disconnection may fail. */
  ghost predicate Kept(cfg: Config, s: State, s': State) {
    TablesOk(cfg, s') && TasksOk(s') && (!cfg.closingMayFail && WaitersOk(s) ==> WaitersOk(s'))
  }

  // ------------------------------------------------------ the effects, one by one

  ghost predicate SameSessions(s: State, s': State) {
    && s'.seen == s.seen && s'.registered == s.registered && s'.nextConn == s.nextConn
    && s'.sessions.Keys == s.sessions.Keys
    && forall k | k in s.sessions :: s'.sessions[k].conn == s.sessions[k].conn
  }

  lemma QuietTables(cfg: Config, s: State, s1: State)
    requires TablesOk(cfg, s)
    requires SameTables(s, s1) && SameSessions(s, s1) && s1.tasks == s.tasks
    requires s1.nextPid == s.nextPid && s1.nextTid == s.nextTid
    ensures TablesOk(cfg, s1) && Gentle(s, s1, {})
  {
  }

  lemma InsertIsGentle(s: State, t: nat, req: Request, conn: nat, awaiting: bool)
    requires WellFormed(s)
    ensures Gentle(s, InsertCall(s, t, req, conn, awaiting), {DispatchLock})
  {
  }

  lemma InsertTables(cfg: Config, s: State, t: nat, req: Request, conn: nat, awaiting: bool)
    requires TablesOk(cfg, s) && t < s.nextTid && conn < s.nextConn
    requires LiveSession(s, Handle(req.key, conn)) && req.call !in s.pending
    ensures TablesOk(cfg, InsertCall(s, t, req, conn, awaiting))
    ensures Gentle(s, InsertCall(s, t, req, conn, awaiting), {DispatchLock})
  {
    InsertIsGentle(s, t, req, conn, awaiting);
    assert WellFormed(InsertCall(s, t, req, conn, awaiting));
  }

  /** Only deadlines changed: timers, their tasks, and what they wait for. */
  ghost predicate OnlyTimers(s: State, s1: State) {
    && s1.pending == s.pending && s1.futures == s.futures && s1.sessions == s.sessions
    && s1.seen == s.seen && s1.registered == s.registered
    && s1.nextConn == s.nextConn && s1.nextPid == s.nextPid && s.nextTid <= s1.nextTid
    && s1.calls.Keys == s.calls.Keys
    && (forall p | p in s.calls ::
          && s1.calls[p] == s.calls[p].(timer := s1.calls[p].timer, awaiting := s1.calls[p].awaiting)
          && (s1.calls[p].timer.Some? ==> s1.calls[p].timer.value < s1.nextTid))
    && FreshTasks(s1)
  }

  lemma TimerTables(cfg: Config, s: State, s1: State)
    requires TablesOk(cfg, s) && OnlyTimers(s, s1)
    ensures TablesOk(cfg, s1) && Gentle(s, s1, {})
  {
  }

  lemma CancelOnlyTimers(s: State, t: nat, pid: nat)
    requires WellFormed(s)
    ensures OnlyTimers(s, CancelTimer(s, t, pid))
  {
  }

  lemma StartOnlyTimers(s: State, s1: State, pid: nat)
    requires WellFormed(s) && OnlyTimers(s, s1) && pid in s1.calls
    ensures OnlyTimers(s, StartTimer(s1, pid))
  {
  }

  lemma ArmTables(cfg: Config, s: State, pid: nat)
    requires TablesOk(cfg, s)
    ensures TablesOk(cfg, ArmTimer(s, pid)) && Gentle(s, ArmTimer(s, pid), {})
  {
    assert OnlyTimers(s, s);
    if pid in s.calls { StartOnlyTimers(s, s, pid); }
    TimerTables(cfg, s, ArmTimer(s, pid));
  }

  lemma RearmTables(cfg: Config, s: State, t: nat, pid: nat)
    requires TablesOk(cfg, s) && pid in s.calls
    ensures TablesOk(cfg, RearmTimer(s, t, pid)) && Gentle(s, RearmTimer(s, t, pid), {})
  {
    CancelOnlyTimers(s, t, pid);
    var s1 := CancelTimer(s, t, pid);
    var s2 := s1.(calls := s1.calls[pid := s1.calls[pid].(awaiting := false)]);
    StartOnlyTimers(s, s2, pid);
    TimerTables(cfg, s, RearmTimer(s, t, pid));
  }

  /** Taking one entry out of the table and resolving its future. */
  lemma RemoveTables(cfg: Config, s: State, s1: State, call: nat)
    requires TablesOk(cfg, s)
    requires s1.calls == s.calls && s1.futures.Keys == s.futures.Keys && s1.pending == s.pending - {call}
    requires s1.sessions == s.sessions && SameSessions(s, s1)
    requires FreshTasks(s1) && s1.nextTid == s.nextTid && s1.nextPid == s.nextPid
    ensures TablesOk(cfg, s1) && Gentle(s, s1, {})
  {
  }

  lemma FinishTables(cfg: Config, s: State, t: nat, call: nat, record: Record, how: Settlement)
    requires TablesOk(cfg, s)
    ensures var s1 := FinishCall(cfg, s, t, call, record, how); TablesOk(cfg, s1) && Gentle(s, s1, {})
  {
    var s0 := s.(pending := s.pending - {call},
                 terminal := Remember(s.terminal, call, record, cfg.terminalRetention));
    if call in s.pending {
      CancelFrame(s0, t, s.pending[call]);
      ResolveFrame(CancelTimer(s0, t, s.pending[call]), s.pending[call], how);
    }
    FinishEvolves(cfg, s, t, call, record, how);
    RemoveTables(cfg, s, FinishCall(cfg, s, t, call, record, how), call);
  }

  lemma ExpireTables(cfg: Config, s: State, pid: nat)
    requires TablesOk(cfg, s) && pid in s.calls
    ensures TablesOk(cfg, ExpireCall(cfg, s, pid)) && Gentle(s, ExpireCall(cfg, s, pid), {})
  {
    var call := CallOf(s, pid);
    var s1 := ExpireCall(cfg, s, pid);
    var s0 := s.(pending := s.pending - {call}, terminal := s1.terminal);
    ResolveFrame(s0, pid, ByTimeout);
    assert s1 == if IsWaiting(s, call, pid) then Resolve(s0, pid, ByTimeout) else s0;
    RemoveTables(cfg, s, s1, call);
  }

  lemma PopTables(cfg: Config, s: State, t: nat, key: Key)
    requires TablesOk(cfg, s) && t < s.nextTid
    ensures var s1 := PopSession(s, t, key, WaitersOf(s, key)); TablesOk(cfg, s1) && Gentle(s, s1, {LifecycleLock})
    ensures ItemsOk(PopSession(s, t, key, WaitersOf(s, key)), t, WaitersOf(s, key))
  {
  }

  lemma SettleTables(cfg: Config, s: State, t: nat, pid: nat)
    requires TablesOk(cfg, s) && pid in s.calls
    ensures var s1 := SettleCall(cfg, s, t, pid);
            TablesOk(cfg, s1) && Gentle(s, s1, {}) && s1.pending == s.pending && s1.calls == s.calls
  {
    var req := s.calls[pid].request;
    CancelFrame(s, t, pid);
    CancelOnlyTimers(s, t, pid);
    var s1 := CancelTimer(s, t, pid);
    var s2 := s1.(terminal := Remember(s1.terminal, req.call, Record(None, req.request, req.key, ClientDisconnected), cfg.terminalRetention));
    assert OnlyTimers(s, s2);
    TimerTables(cfg, s, s2);
    ResolveFrame(s2, pid, ByDisconnection);
    ResolveTables(cfg, s, s2, pid, ByDisconnection);
  }

  lemma ResolveTables(cfg: Config, s: State, s2: State, pid: nat, how: Settlement)
    requires TablesOk(cfg, s2) && Gentle(s, s2, {})
    ensures TablesOk(cfg, Resolve(s2, pid, how)) && Gentle(s, Resolve(s2, pid, how), {})
  {
  }

  lemma SpacedExtends(keys: seq<Key>, key: Key, gap: nat)
    requires Spaced(keys, gap) && key !in Newest(keys, gap)
    ensures Spaced(keys + [key], gap)
    ensures Newest(Newest(keys, gap) + [key], gap) == Newest(keys + [key], gap)
  {
    var newest := Newest(keys, gap);
    forall i | |keys| - |newest| <= i < |keys| ensures keys[i] != key {
      assert keys[i] == newest[i - (|keys| - |newest|)];
    }
  }

  lemma OpenTables(cfg: Config, s: State, key: Key, tools: map<nat, Tool>)
    requires TablesOk(cfg, s) && key !in s.seen && HandlesOf(s, key.client) == {}
    ensures TablesOk(cfg, OpenSession(cfg, s, key, tools)) && Gentle(s, OpenSession(cfg, s, key, tools), {LifecycleLock})
  {
    SpacedExtends(s.registered, key, cfg.seenRetention);
    assert forall k | k in s.sessions && k.client == key.client :: Handle(k, s.sessions[k].conn) in HandlesOf(s, key.client);
  }

  // --------------------------------------------------------------- other tasks

  /** The other tasks are as they were, cancelled, or a deadline that just started. */
  ghost predicate OthersOk(s: State, s1: State, t: nat) {
    forall u | u in s1.tasks && u != t ::
      || (u in s.tasks && s1.tasks[u] == s.tasks[u])
      || s1.tasks[u].Unwinding?
      || (s1.tasks[u].Timer? && s1.tasks[u].phase.Asleep? && s1.tasks[u].pid in s1.calls)
  }

  lemma TasksStep(s: State, s1: State, t: nat, next: Option<Pc>)
    requires Exclusive(s) && TasksOk(s) && t in s.tasks
    requires Gentle(s, s1, Holds(s.tasks[t])) && OthersOk(s, s1, t)
    requires next.Some? ==> PcOk(s1, t, next.value)
    ensures TasksOk(Settled(s1, t, next))
  {
    var s' := Settled(s1, t, next);
    forall u | u in s'.tasks ensures PcOk(s', u, s'.tasks[u]) {
      if u != t {
        if u in s.tasks && s1.tasks[u] == s.tasks[u] {
          ExclusivePair(s, t, u);
          PcStable(s, s1, Holds(s.tasks[t]), u, s.tasks[u]);
        }
        SameVerdict(s1, s', u, s'.tasks[u]);
      } else {
        SameVerdict(s1, s', u, s'.tasks[u]);
      }
    }
  }

  lemma ExclusivePair(s: State, t: nat, u: nat)
    requires Exclusive(s) && t in s.tasks && u in s.tasks && t != u
    ensures Holds(s.tasks[t]) !! Holds(s.tasks[u])
  {
    var held := HeldBy(s);
    assert held[t] == Holds(s.tasks[t]) && held[u] == Holds(s.tasks[u]);
  }

  /** What a task relies on does not mention the other tasks. */
  lemma SameVerdict(s: State, s': State, u: nat, pc: Pc)
    requires s' == s.(tasks := s'.tasks)
    requires PcOk(s, u, pc)
    ensures PcOk(s', u, pc)
  {
    HandlesShrinkAll(s, s');
  }

  // ----------------------------------------------------------- the steps by task

  lemma SettledTables(cfg: Config, s: State, t: nat, next: Option<Pc>)
    requires TablesOk(cfg, s) && t < s.nextTid
    ensures TablesOk(cfg, Settled(s, t, next))
  {
  }

  /** The parts of a step put together. */
  lemma Combine(cfg: Config, s: State, s1: State, t: nat, next: Option<Pc>)
    requires Core(cfg, s) && t in s.tasks
    requires TablesOk(cfg, s1) && t < s1.nextTid
    requires Gentle(s, s1, Holds(s.tasks[t])) && OthersOk(s, s1, t)
    requires next.Some? ==> PcOk(s1, t, next.value)
    requires !cfg.closingMayFail && WaitersOk(s) ==> WaitersOk(Settled(s1, t, next))
    ensures Kept(cfg, s, Settled(s1, t, next))
  {
    SettledTables(cfg, s1, t, next);
    TasksStep(s, s1, t, next);
  }

  /** Effects that leave waiters, futures and sessions as they are. */
  predicate IsQuiet(e: Effect) {
    e.Nop? || e.WriteRow? || e.Deliver? || e.CloseCalls? || e.SetTools?
  }

  lemma QuietEffect(cfg: Config, s: State, t: nat, e: Effect)
    requires IsQuiet(e)
    ensures var s1 := Apply(cfg, s, t, e);
            && SameTables(s, s1) && SameSessions(s, s1) && s1.tasks == s.tasks
            && s1.nextPid == s.nextPid && s1.nextTid == s.nextTid
  {
  }

  lemma QuietVerdict(s: State, s1: State, t: nat, pc: Pc)
    requires SameTables(s, s1) && SameSessions(s, s1)
    requires PcOk(s, t, pc)
    ensures PcOk(s1, t, pc)
  {
    HandlesShrinkAll(s, s1);
  }

  /** What makes a move quiet: its effect, the roles it keeps, and a next await
      that relies on nothing that does not hold. */
  ghost predicate QuietFacts(s: State, t: nat, pc: Pc, m: Move) {
    CalmFacts(s, t, m) && forall p | p in s.calls :: KeepsRole(s, pc, m.next, p)
  }

  /** A quiet effect and such an await, whatever role the task gives up. */
  ghost predicate CalmFacts(s: State, t: nat, m: Move) {
    IsQuiet(m.effect) && (m.next.Some? ==> PcOk(s, t, m.next.value))
  }

  lemma CalmMove(cfg: Config, s: State, t: nat, m: Move)
    requires Core(cfg, s) && t in s.tasks && CalmFacts(s, t, m)
    requires !cfg.closingMayFail && WaitersOk(s) ==> forall p | p in s.calls :: KeepsRole(s, s.tasks[t], m.next, p)
    ensures Kept(cfg, s, Settled(Apply(cfg, s, t, m.effect), t, m.next))
  {
    var s1 := Apply(cfg, s, t, m.effect);
    QuietEffect(cfg, s, t, m.effect);
    QuietCombine(cfg, s, s1, t, m.next);
  }

  lemma QuietMove(cfg: Config, s: State, t: nat, m: Move)
    requires Core(cfg, s) && t in s.tasks && QuietFacts(s, t, s.tasks[t], m)
    ensures Kept(cfg, s, Settled(Apply(cfg, s, t, m.effect), t, m.next))
  {
    CalmMove(cfg, s, t, m);
  }

  lemma QuietCombine(cfg: Config, s: State, s1: State, t: nat, next: Option<Pc>)
    requires Core(cfg, s) && t in s.tasks
    requires SameTables(s, s1) && SameSessions(s, s1) && s1.tasks == s.tasks
    requires s1.nextPid == s.nextPid && s1.nextTid == s.nextTid
    requires !cfg.closingMayFail && WaitersOk(s) ==> forall p | p in s.calls :: KeepsRole(s, s.tasks[t], next, p)
    requires next.Some? ==> PcOk(s, t, next.value)
    ensures Kept(cfg, s, Settled(s1, t, next))
  {
    QuietTables(cfg, s, s1);
    if !cfg.closingMayFail && WaitersOk(s) { QuietStep(s, s1, t, next); }
    if next.Some? { QuietVerdict(s, s1, t, next.value); }
    Combine(cfg, s, s1, t, next);
  }

  // dispatch

  lemma DispatchFacts(s: State, t: nat, req: Request, at: DispatchAt, ch: Choice)
    requires PcOk(s, t, Dispatching(req, at)) && WellFormed(s)
    ensures var m := PlanDispatch(s, req, at, ch);
            || QuietFacts(s, t, Dispatching(req, at), m)
            || (&& at.InsertIt? && LiveSession(s, Handle(req.key, at.conn))
                && m == Move(Insert(req, at.conn, at.tool.approval), Some(Sending(s.nextPid, Write(false)))))
  {
  }

  lemma DispatchMove(cfg: Config, s: State, t: nat, req: Request, at: DispatchAt, m: Move)
    requires Core(cfg, s) && t in s.tasks && s.tasks[t] == Dispatching(req, at)
    requires at.InsertIt? && LiveSession(s, Handle(req.key, at.conn))
    requires m == Move(Insert(req, at.conn, at.tool.approval), Some(Sending(s.nextPid, Write(false))))
    ensures Kept(cfg, s, Settled(Apply(cfg, s, t, m.effect), t, m.next))
  {
    assert PcOk(s, t, s.tasks[t]);
    InsertTables(cfg, s, t, req, at.conn, at.tool.approval);
    if WaitersOk(s) { InsertStep(s, t, req, at.conn, at.tool.approval); }
    Combine(cfg, s, InsertCall(s, t, req, at.conn, at.tool.approval), t, m.next);
  }

  // sending

  lemma SendFacts(s: State, t: nat, pid: nat, at: SendAt, ch: Choice)
    requires PcOk(s, t, Sending(pid, at))
    ensures var m := PlanSend(s, pid, at, ch);
            QuietFacts(s, t, Sending(pid, at), m) || (at.ArmIt? && m == Move(Arm(pid), None))
  {
  }

  lemma SendMove(cfg: Config, s: State, t: nat, pid: nat)
    requires Core(cfg, s) && t in s.tasks && s.tasks[t] == Sending(pid, ArmIt)
    ensures Kept(cfg, s, Settled(ArmTimer(s, pid), t, None))
  {
    assert PcOk(s, t, s.tasks[t]);
    ArmTables(cfg, s, pid);
    if WaitersOk(s) { ArmStep(s, t, pid); }
    Combine(cfg, s, ArmTimer(s, pid), t, None);
  }

  // events and results

  predicate IsHangup(next: Option<Pc>) {
    next.Some? ==> next.value.Closing? && next.value.place.CloseLock? && next.value.after == Finally(false, None)
  }

  lemma EventFacts(s: State, t: nat, h: Handle, ev: Event, at: EventAt, ch: Choice)
    ensures var m := PlanEvent(s, h, ev, at, ch);
            || QuietFacts(s, t, Handling(h, ev, at), m)
            || (m.effect.Rearm? && m.effect.pid in s.futures && s.futures[m.effect.pid] == Open && m.next.None?)
            || (m.effect.Finish? && m.next.None?)
  {
  }

  lemma ResultFacts(s: State, t: nat, h: Handle, res: Result, at: ResultAt, ch: Choice)
    ensures var m := PlanResult(s, h, res, at, ch);
            || QuietFacts(s, t, Receiving(h, res, at), m)
            || (m.effect.Finish? && IsHangup(m.next))
  {
  }

  lemma FinishOthersOk(cfg: Config, s: State, t: nat, call: nat, record: Record, how: Settlement)
    ensures OthersOk(s, FinishCall(cfg, s, t, call, record, how), t)
  {
  }

  lemma FinishMove(cfg: Config, s: State, t: nat, call: nat, record: Record, how: Settlement, next: Option<Pc>)
    requires Core(cfg, s) && t in s.tasks
    requires s.tasks[t].Handling? || s.tasks[t].Receiving?
    requires IsHangup(next)
    ensures Kept(cfg, s, Settled(FinishCall(cfg, s, t, call, record, how), t, next))
  {
    FinishTables(cfg, s, t, call, record, how);
    FinishOthersOk(cfg, s, t, call, record, how);
    if WaitersOk(s) { FinishStep(cfg, s, t, call, record, how, next); }
    FinishEvolves(cfg, s, t, call, record, how);
    Combine(cfg, s, FinishCall(cfg, s, t, call, record, how), t, next);
  }

  lemma RearmOthersOk(s: State, t: nat, pid: nat)
    ensures OthersOk(s, RearmTimer(s, t, pid), t)
  {
  }

  lemma RearmMove(cfg: Config, s: State, t: nat, pid: nat)
    requires Core(cfg, s) && t in s.tasks && s.tasks[t].Handling? && pid in s.futures && s.futures[pid] == Open
    ensures Kept(cfg, s, Settled(RearmTimer(s, t, pid), t, None))
  {
    RearmTables(cfg, s, t, pid);
    RearmOthersOk(s, t, pid);
    if WaitersOk(s) { RearmStep(s, t, pid); }
    RearmEvolves(s, t, pid);
    Combine(cfg, s, RearmTimer(s, t, pid), t, None);
  }

  // deadlines

  lemma TimerFacts(s: State, t: nat, pid: nat, at: TimerAt, ch: Choice)
    requires PcOk(s, t, Timer(pid, at))
    ensures var m := PlanTimer(s, pid, at, ch);
            QuietFacts(s, t, Timer(pid, at), m) || (m == Move(Expired(pid), None) && NoRival(s, pid))
  {
  }

  lemma TimerMove(cfg: Config, s: State, t: nat, pid: nat)
    requires Core(cfg, s) && t in s.tasks && IsTimerFor(s.tasks[t], pid) && NoRival(s, pid)
    ensures Kept(cfg, s, Settled(ExpireCall(cfg, s, pid), t, None))
  {
    ExpireTables(cfg, s, pid);
    if WaitersOk(s) { ExpireStep(cfg, s, t, pid); }
    ExpireOthersOk(cfg, s, t, pid);
    Combine(cfg, s, ExpireCall(cfg, s, pid), t, None);
  }

  lemma ExpireOthersOk(cfg: Config, s: State, t: nat, pid: nat)
    ensures ExpireCall(cfg, s, pid).tasks == s.tasks && ExpireCall(cfg, s, pid).nextTid == s.nextTid
  {
  }

  // disconnection

  lemma CloseFacts(cfg: Config, s: State, t: nat, h: Handle, after: After, at: CloseAt, ch: Choice)
    requires PcOk(s, t, Closing(h, after, at)) && WellFormed(s) && SessionsOk(s)
    requires FaultPossible(cfg, Closing(h, after, at), ch.fault)
    ensures var m := PlanClose(s, h, after, at, ch);
            || QuietFacts(s, t, Closing(h, after, at), m)
            || (cfg.closingMayFail && CalmFacts(s, t, m))
            || (&& at.PopIt? && LiveSession(s, h)
                && m == Move(Pop(h.key, WaitersOf(s, h.key)), Some(Closing(h, after, CloseRows(WaitersOf(s, h.key))))))
            || (&& at.CloseSettle? && ch.item in at.items
                && m == Move(Settle(ch.item), Some(Closing(h, after, CloseSettle(at.items - {ch.item})))))
  {
  }

  lemma PopMove(cfg: Config, s: State, t: nat, h: Handle, after: After)
    requires Core(cfg, s) && t in s.tasks && s.tasks[t] == Closing(h, after, PopIt) && LiveSession(s, h)
    ensures var items := WaitersOf(s, h.key);
            Kept(cfg, s, Settled(PopSession(s, t, h.key, items), t, Some(Closing(h, after, CloseRows(items)))))
  {
    assert PcOk(s, t, s.tasks[t]);
    var items := WaitersOf(s, h.key);
    var s1 := PopSession(s, t, h.key, items);
    PopTables(cfg, s, t, h.key);
    PopNext(s, s1, t, h, after);
    if WaitersOk(s) { PopStep(s, t, h, after); }
    Combine(cfg, s, s1, t, Some(Closing(h, after, CloseRows(items))));
  }

  /** Closing one session leaves a registration with one handle less to close. */
  lemma PopNext(s: State, s1: State, t: nat, h: Handle, after: After)
    requires PcOk(s, t, Closing(h, after, PopIt)) && LiveSession(s, h)
    requires s1 == PopSession(s, t, h.key, WaitersOf(s, h.key))
    requires ItemsOk(s1, t, WaitersOf(s, h.key))
    ensures PcOk(s1, t, Closing(h, after, CloseRows(WaitersOf(s, h.key))))
  {
    HandlesShrinkAll(s, s1);
    if after.Then? && after.register.Some? {
      assert h !in HandlesOf(s1, after.register.value.0.client);
    }
  }

  lemma SettleMove(cfg: Config, s: State, t: nat, h: Handle, items: set<nat>, after: After, pid: nat)
    requires Core(cfg, s) && t in s.tasks && s.tasks[t] == Closing(h, after, CloseSettle(items)) && pid in items
    ensures Kept(cfg, s, Settled(SettleCall(cfg, s, t, pid), t, Some(Closing(h, after, CloseSettle(items - {pid})))))
  {
    assert PcOk(s, t, s.tasks[t]);
    var s1 := SettleCall(cfg, s, t, pid);
    SettleTables(cfg, s, t, pid);
    SettleOthersOk(cfg, s, t, pid);
    if WaitersOk(s) { SettleStep(cfg, s, t, h, items, after, pid); }
    SettleEvolves(cfg, s, t, pid);
    SettleNext(s, s1, t, h, items, after, pid);
    Combine(cfg, s, s1, t, Some(Closing(h, after, CloseSettle(items - {pid}))));
  }

  lemma SettleOthersOk(cfg: Config, s: State, t: nat, pid: nat)
    ensures OthersOk(s, SettleCall(cfg, s, t, pid), t)
  {
  }

  lemma SettleNext(s: State, s1: State, t: nat, h: Handle, items: set<nat>, after: After, pid: nat)
    requires PcOk(s, t, Closing(h, after, CloseSettle(items)))
    requires Gentle(s, s1, {}) && s1.pending == s.pending && s1.calls == s.calls
    ensures PcOk(s1, t, Closing(h, after, CloseSettle(items - {pid})))
  {
    HandlesShrinkAll(s, s1);
  }

  // registration

  lemma NextFacts(s: State, t: nat, after: After)
    requires PcOk(s, t, ClosingNext(after))
    ensures QuietFacts(s, t, ClosingNext(after), PlanNext(after))
  {
  }

  lemma RegisterFacts(s: State, t: nat, key: Key, tools: map<nat, Tool>, at: RegisterAt, ch: Choice)
    requires PcOk(s, t, Registering(key, tools, at))
    ensures var m := PlanRegister(s, key, tools, at, ch);
            || QuietFacts(s, t, Registering(key, tools, at), m)
            || (at.RegisterApply? && m == Move(AddSession(key, tools), None))
  {
  }

  lemma RegisterMove(cfg: Config, s: State, t: nat, key: Key, tools: map<nat, Tool>)
    requires Core(cfg, s) && t in s.tasks && s.tasks[t] == Registering(key, tools, RegisterApply)
    ensures Kept(cfg, s, Settled(OpenSession(cfg, s, key, tools), t, None))
  {
    assert PcOk(s, t, s.tasks[t]);
    OpenTables(cfg, s, key, tools);
    if WaitersOk(s) { QuietStep(s, OpenSession(cfg, s, key, tools), t, None); }
    Combine(cfg, s, OpenSession(cfg, s, key, tools), t, None);
  }

  lemma OtherFacts(s: State, t: nat, pc: Pc, ch: Choice)
    requires pc.Revoking? || pc.Refreshing? || pc.Unwinding?
    ensures QuietFacts(s, t, pc, Plan(s, pc, ch))
  {
  }
}
