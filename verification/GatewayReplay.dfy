/** Building blocks for concrete runs of the gateway: what one undisturbed registration,
    dispatch, deadline or disconnection does to a state in which nothing holds a lock.
    Every block says which state is reachable afterwards. */
module GatewayReplay {
  import opened ToolLifecycle
  import opened Options
  import opened ToolRepository
  import opened AgentProtocol
  import opened OrderedTable
  import opened GatewayMachine
  import opened GatewayInvariant

  /** The runs considered: the configuration, whether deadlines reconcile, and whether
      the client is honest. */
  datatype Premises = Premises(cfg: Config, deadlines: bool, honest: bool)

  predicate Allowed(w: Premises, s: State, a: Action) {
    (w.deadlines ==> Reconciles(s, a)) && (w.honest ==> HonestResult(s, a))
  }

  ghost predicate RunTo(w: Premises, states: seq<State>, actions: seq<Action>, s: State) {
    && IsRun(w.cfg, states, actions) && states[|states| - 1] == s
    && forall k | 0 <= k < |actions| :: Allowed(w, states[k], actions[k])
  }

  ghost predicate Reachable(w: Premises, s: State) {
    exists states, actions :: RunTo(w, states, actions, s)
  }

  lemma ReachInitial(w: Premises)
    ensures Reachable(w, Initial())
  {
    assert RunTo(w, [Initial()], [], Initial());
  }

  lemma ReachStep(w: Premises, s: State, a: Action, s': State)
    requires Reachable(w, s) && Enabled(w.cfg, s, a) && Allowed(w, s, a) && s' == Do(w.cfg, s, a)
    ensures Reachable(w, s')
  {
    var states, actions :| RunTo(w, states, actions, s);
    RunExtends(w, states, actions, s, a, s');
  }

  lemma RunExtends(w: Premises, states: seq<State>, actions: seq<Action>, s: State, a: Action, s': State)
    requires RunTo(w, states, actions, s)
    requires Enabled(w.cfg, s, a) && Allowed(w, s, a) && s' == Do(w.cfg, s, a)
    ensures RunTo(w, states + [s'], actions + [a], s')
  {
    var states', actions' := states + [s'], actions + [a];
    forall k | 0 <= k < |actions'|
      ensures Enabled(w.cfg, states'[k], actions'[k]) && states'[k + 1] == Do(w.cfg, states'[k], actions'[k])
      ensures Allowed(w, states'[k], actions'[k])
    {
      if k < |actions| {
        assert states'[k] == states[k] && states'[k + 1] == states[k + 1] && actions'[k] == actions[k];
      }
    }
  }

  // ------------------------------------------------------------------ the players

  const Owner: Key := Key(0, 0)
  const Guarded: Tool := Tool(true, 10)
  const Tools: map<nat, Tool> := map[0 := Guarded]
  const Smoothly: Choice := Choice(World(true, true), Smooth, false, 0)
  const Failing: Choice := Choice(World(true, true), Raise, false, 0)

  function Asked(call: nat): Request { Request(call, call, Owner, 0, 5) }

  function WaitingRow(call: nat): Row {
    Row(call, Owner, 0, true, [Proposed, Validated, AwaitingApproval], None)
  }

  /** Nobody holds a lock. */
  ghost predicate Idle(s: State) {
    forall t | t in s.tasks :: t < s.nextTid && Holds(s.tasks[t]) == {}
  }

  // ---------------------------------------------------------------- the newest task

  /** A new task has arrived and stands at `pc`. */
  function Started(s: State, pc: Pc): State {
    s.(tasks := s.tasks[s.nextTid := pc], nextTid := s.nextTid + 1)
  }

  /** ... and has ended. */
  function Passed(s: State): State {
    s.(nextTid := s.nextTid + 1)
  }

  lemma Arrives(w: Premises, s: State, pc: Pc)
    requires Reachable(w, s) && IsEntry(pc)
    ensures Reachable(w, Started(s, pc))
  {
    ReachStep(w, s, Spawn(pc), Started(s, pc));
  }

  /** It runs to its next await, changing the tables from s to s'. */
  lemma NewestRuns(w: Premises, s: State, pc: Pc, ch: Choice, m: Move, s': State)
    requires Reachable(w, Started(s, pc)) && s.nextTid !in s.tasks
    requires Wants(pc).Some? ==> !Held(s, Wants(pc).value) && Wants(pc).value !in Holds(pc)
    requires FaultPossible(w.cfg, pc, ch.fault) && Allowed(w, Started(s, pc), Run(s.nextTid, ch))
    requires Plan(Started(s, pc), pc, ch) == m
    requires Apply(w.cfg, Started(s, pc), s.nextTid, m.effect) == Started(s', pc) && s'.tasks == s.tasks && s'.nextTid == s.nextTid
    ensures m.next.Some? ==> Reachable(w, Started(s', m.next.value))
    ensures m.next.None? ==> Reachable(w, Passed(s'))
  {
    var t := s.nextTid;
    var s1 := Settled(Started(s', pc), t, m.next);
    assert !Blocked(Started(s, pc), t);
    ReachStep(w, Started(s, pc), Run(t, ch), s1);
    if m.next.Some? {
      assert s1 == Started(s', m.next.value);
    } else {
      assert s1.tasks == s'.tasks;
    }
  }

  lemma NewestGoes(w: Premises, s: State, pc: Pc, next: Pc)
    requires Reachable(w, Started(s, pc)) && s.nextTid !in s.tasks
    requires Wants(pc).Some? ==> !Held(s, Wants(pc).value) && Wants(pc).value !in Holds(pc)
    requires !pc.Receiving? || !pc.stage.ResultRun?
    requires Plan(Started(s, pc), pc, Smoothly) == Goto(next)
    ensures Reachable(w, Started(s, next))
  {
    NewestRuns(w, s, pc, Smoothly, Goto(next), s);
  }

  // ---------------------------------------------------------------- registration

  function Entering(key: Key, at: RegisterAt): Pc { Registering(key, Tools, at) }

  function Opened(s: State, key: Key): State {
    Passed(s).(sessions := s.sessions[key := Session(s.nextConn, Tools)], seen := [key],
               registered := s.registered + [key], nextConn := s.nextConn + 1)
  }

  /** A key that is not remembered, of a client without a live session, with a memory of one. */
  lemma RegistrationOpens(w: Premises, s: State, key: Key)
    requires Reachable(w, s) && Idle(s) && w.cfg.seenRetention == 1
    requires key !in s.seen && |s.seen| <= 1 && forall k | k in s.sessions :: k.client != key.client
    ensures Reachable(w, Opened(s, key)) && Idle(Opened(s, key))
  {
    Arrives(w, s, Entering(key, RegisterLock));
    var s1 := Started(s, Entering(key, RegisterLock));
    assert PlanRegister(s1, key, Tools, RegisterLock, Smoothly) == Goto(Entering(key, RegisterCheck));
    NewestGoes(w, s, Entering(key, RegisterLock), Entering(key, RegisterCheck));
    RegistrationChecks(w, s, key);
    RegistrationStores(w, s, key);
  }

  lemma RegistrationChecks(w: Premises, s: State, key: Key)
    requires Reachable(w, Started(s, Entering(key, RegisterCheck))) && s.nextTid !in s.tasks
    requires key !in s.seen && forall k | k in s.sessions :: k.client != key.client
    ensures Reachable(w, Started(s, Entering(key, RegisterStore)))
  {
    var next := ClosingNext(Then({}, Some((key, Tools))));
    var s1 := Started(s, Entering(key, RegisterCheck));
    assert HandlesOf(s1, key.client) == {};
    assert PlanRegister(s1, key, Tools, RegisterCheck, Smoothly) == Goto(next);
    NewestGoes(w, s, Entering(key, RegisterCheck), next);
    assert PlanNext(next.after) == Goto(Entering(key, RegisterStore));
    NewestGoes(w, s, next, Entering(key, RegisterStore));
  }

  lemma RegistrationStores(w: Premises, s: State, key: Key)
    requires Reachable(w, Started(s, Entering(key, RegisterStore))) && s.nextTid !in s.tasks
    requires |s.seen| <= 1 && w.cfg.seenRetention == 1
    ensures Reachable(w, Opened(s, key))
  {
    var pc := Entering(key, RegisterApply);
    var s1 := Started(s, Entering(key, RegisterStore));
    assert PlanRegister(s1, key, Tools, RegisterStore, Smoothly) == Goto(pc);
    NewestGoes(w, s, Entering(key, RegisterStore), pc);
    RegistrationEnds(w, s, key);
  }

  lemma RegistrationEnds(w: Premises, s: State, key: Key)
    requires Reachable(w, Started(s, Entering(key, RegisterApply))) && s.nextTid !in s.tasks
    requires |s.seen| <= 1 && w.cfg.seenRetention == 1
    ensures Reachable(w, Opened(s, key))
  {
    var pc, m := Entering(key, RegisterApply), Move(AddSession(key, Tools), None);
    assert PlanRegister(Started(s, pc), key, Tools, RegisterApply, Smoothly) == m;
    NewestRuns(w, s, pc, Smoothly, m, OpenSession(w.cfg, s, key, Tools));
    assert Newest(s.seen + [key], 1) == [key];
    assert Passed(OpenSession(w.cfg, s, key, Tools)) == Opened(s, key);
  }

  /** The orchestrator records a call and asks for its approval. */
  lemma CallIsPrepared(w: Premises, s: State, call: nat)
    requires Reachable(w, s) && call !in s.rows
    ensures Reachable(w, s.(rows := s.rows[call := WaitingRow(call)]))
  {
    var row := Row(call, Owner, 0, true, [Proposed], None);
    var s1 := s.(rows := s.rows[call := row]);
    ReachStep(w, s, Propose(call, row), s1);
    assert [Proposed] + [Validated] == [Proposed, Validated];
    var row2 := row.(log := [Proposed, Validated]);
    var s2 := s.(rows := s.rows[call := row2]);
    assert s2.rows == s1.rows[call := row2];
    ReachStep(w, s1, Prepare(call, Validated), s2);
    assert [Proposed, Validated] + [AwaitingApproval] == [Proposed, Validated, AwaitingApproval];
    assert s.rows[call := WaitingRow(call)] == s2.rows[call := WaitingRow(call)];
    ReachStep(w, s2, Prepare(call, AwaitingApproval), s.(rows := s.rows[call := WaitingRow(call)]));
  }

  // -------------------------------------------------------------------- dispatch

  function DispatchAtStage(call: nat, at: DispatchAt): Pc { Dispatching(Asked(call), at) }

  function Read(call: nat, conn: nat): Pc { DispatchAtStage(call, CheckCall(conn, Guarded, AwaitingApproval)) }

  /** A dispatch up to the point where it has read the row. */
  lemma DispatchReads(w: Premises, s: State, call: nat, conn: nat)
    requires Reachable(w, s) && Idle(s)
    requires Owner in s.sessions && s.sessions[Owner] == Session(conn, Tools)
    requires call in s.rows && s.rows[call] == WaitingRow(call)
    ensures Reachable(w, Started(s, Read(call, conn)))
  {
    Arrives(w, s, DispatchAtStage(call, AwaitLock));
    var s1 := Started(s, DispatchAtStage(call, AwaitLock));
    assert PlanDispatch(s1, Asked(call), AwaitLock, Smoothly) == Goto(DispatchAtStage(call, Route));
    NewestGoes(w, s, DispatchAtStage(call, AwaitLock), DispatchAtStage(call, Route));
    DispatchRoutes(w, s, call, conn);
  }

  lemma DispatchRoutes(w: Premises, s: State, call: nat, conn: nat)
    requires Reachable(w, Started(s, DispatchAtStage(call, Route))) && s.nextTid !in s.tasks
    requires Owner in s.sessions && s.sessions[Owner] == Session(conn, Tools)
    requires call in s.rows && s.rows[call] == WaitingRow(call)
    ensures Reachable(w, Started(s, Read(call, conn)))
  {
    var next := DispatchAtStage(call, ReadCall(conn, Guarded));
    assert PlanDispatch(Started(s, DispatchAtStage(call, Route)), Asked(call), Route, Smoothly) == Goto(next);
    NewestGoes(w, s, DispatchAtStage(call, Route), next);
    assert PlanDispatch(Started(s, next), Asked(call), ReadCall(conn, Guarded), Smoothly) == Goto(Read(call, conn));
    NewestGoes(w, s, next, Read(call, conn));
  }

  /** The request of a waiter that was just inserted has been written. */
  function Written(s: State, t: nat, call: nat, conn: nat): State {
    InsertCall(s, t, Asked(call), conn, true).(sent := s.sent + [call])
  }

  lemma DispatchInserts(w: Premises, s: State, call: nat, conn: nat)
    requires Reachable(w, Started(s, Read(call, conn))) && s.nextTid !in s.tasks
    requires LiveSession(s, Handle(Owner, conn)) && call !in s.pending && !Has(s.terminal, call)
    ensures Reachable(w, Started(InsertCall(s, s.nextTid, Asked(call), conn, true), Sending(s.nextPid, Write(false))))
  {
    var insert := DispatchAtStage(call, InsertIt(conn, Guarded));
    assert PlanDispatch(Started(s, Read(call, conn)), Asked(call), Read(call, conn).at, Smoothly) == Goto(insert);
    NewestGoes(w, s, Read(call, conn), insert);
    var m := Move(Insert(Asked(call), conn, true), Some(Sending(s.nextPid, Write(false))));
    assert PlanDispatch(Started(s, insert), Asked(call), insert.at, Smoothly) == m;
    NewestRuns(w, s, insert, Smoothly, m, InsertCall(s, s.nextTid, Asked(call), conn, true));
  }

  lemma DispatchWrites(w: Premises, s: State, call: nat, conn: nat)
    requires Reachable(w, Started(s, Read(call, conn))) && s.nextTid !in s.tasks
    requires LiveSession(s, Handle(Owner, conn)) && call !in s.pending && !Has(s.terminal, call)
    ensures Reachable(w, Started(Written(s, s.nextTid, call, conn), Sending(s.nextPid, Write(true))))
  {
    DispatchInserts(w, s, call, conn);
    var p, s1 := s.nextPid, InsertCall(s, s.nextTid, Asked(call), conn, true);
    var m := Move(Deliver(p), Some(Sending(p, Write(true))));
    assert PlanSend(Started(s1, Sending(p, Write(false))), p, Write(false), Smoothly) == m;
    NewestRuns(w, s1, Sending(p, Write(false)), Smoothly, m, Written(s, s.nextTid, call, conn));
  }

  /** A whole dispatch: the call is in the table with a live deadline. */
  function Dispatched(s: State, call: nat, conn: nat): State {
    s.(pending := s.pending[call := s.nextPid],
       calls := s.calls[s.nextPid := Call(Asked(call), conn, s.nextTid, true, Some(s.nextTid + 1), None)],
       futures := s.futures[s.nextPid := Open],
       tasks := s.tasks[s.nextTid + 1 := Timer(s.nextPid, Asleep)],
       sent := s.sent + [call], nextPid := s.nextPid + 1, nextTid := s.nextTid + 2)
  }

  lemma DispatchGoesOut(w: Premises, s: State, call: nat, conn: nat)
    requires Reachable(w, s) && Idle(s)
    requires Owner in s.sessions && s.sessions[Owner] == Session(conn, Tools)
    requires call in s.rows && s.rows[call] == WaitingRow(call) && call !in s.pending && !Has(s.terminal, call)
    ensures Reachable(w, Dispatched(s, call, conn)) && Idle(Dispatched(s, call, conn))
  {
    DispatchReads(w, s, call, conn);
    DispatchWrites(w, s, call, conn);
    DispatchEnds(w, s, call, conn);
  }

  lemma DispatchEnds(w: Premises, s: State, call: nat, conn: nat)
    requires Reachable(w, Started(Written(s, s.nextTid, call, conn), Sending(s.nextPid, Write(true)))) && Idle(s)
    ensures Reachable(w, Dispatched(s, call, conn))
  {
    var t, p, s1 := s.nextTid, s.nextPid, Written(s, s.nextTid, call, conn);
    assert PlanSend(Started(s1, Sending(p, Write(true))), p, Write(true), Smoothly) == Goto(Sending(p, ArmIt));
    NewestGoes(w, s1, Sending(p, Write(true)), Sending(p, ArmIt));
    var s2 := Started(s1, Sending(p, ArmIt));
    assert PlanSend(s2, p, ArmIt, Smoothly) == Move(Arm(p), None);
    ArmedIs(s, call, conn);
    ReachStep(w, s2, Run(t, Smoothly), Dispatched(s, call, conn));
  }

  lemma ArmedIs(s: State, call: nat, conn: nat)
    requires Idle(s)
    ensures var s2 := Started(Written(s, s.nextTid, call, conn), Sending(s.nextPid, ArmIt));
            Settled(ArmTimer(s2, s.nextPid), s.nextTid, None) == Dispatched(s, call, conn)
  {
    var t, p := s.nextTid, s.nextPid;
    var s2 := Started(Written(s, t, call, conn), Sending(p, ArmIt));
    assert !TimerLive(s2, p);
    StartedTimer(s2, p);
    var s3 := StartTimer(s2, p);
    assert s3.tasks - {t} == s.tasks[t + 1 := Timer(p, Asleep)];
    assert s3.calls == Dispatched(s, call, conn).calls;
  }

  lemma StartedTimer(s2: State, p: nat)
    requires p in s2.calls && IsWaiting(s2, CallOf(s2, p), p) && p in s2.futures && s2.futures[p] == Open && !TimerLive(s2, p)
    ensures ArmTimer(s2, p) == StartTimer(s2, p)
  {
  }

  // ------------------------------------------------------------------- deadlines

  /** An older task moves on. */
  function At(s: State, t: nat, pc: Pc): State {
    s.(tasks := s.tasks[t := pc])
  }

  lemma TaskGoes(w: Premises, s: State, t: nat, pc: Pc, ch: Choice, next: Pc)
    requires Reachable(w, At(s, t, pc)) && Idle(s) && t in s.tasks && pc.Timer?
    requires Wants(pc).Some? ==> Wants(pc).value !in Holds(pc)
    requires FaultPossible(w.cfg, pc, ch.fault) && (w.deadlines ==> ch.fault == Smooth)
    requires PlanTimer(At(s, t, pc), pc.pid, pc.phase, ch) == Goto(next)
    ensures Reachable(w, At(s, t, next))
  {
    assert !Blocked(At(s, t, pc), t);
    assert At(At(s, t, pc), t, next) == At(s, t, next);
    ReachStep(w, At(s, t, pc), Run(t, ch), At(s, t, next));
  }

  /** A deadline fires and reaches its check, since nobody holds a lock. */
  lemma DeadlineFires(w: Premises, s: State, t: nat, p: nat)
    requires Reachable(w, s) && Idle(s) && t in s.tasks && s.tasks[t] == Timer(p, Asleep) && p in s.calls
    ensures Reachable(w, At(s, t, Timer(p, TimerCheck)))
  {
    assert At(s, t, Timer(p, Asleep)) == s;
    TaskGoes(w, s, t, Timer(p, Asleep), Smoothly, Timer(p, AwaitDispatch));
    TaskGoes(w, s, t, Timer(p, AwaitDispatch), Smoothly, Timer(p, AwaitResult));
    TaskGoes(w, s, t, Timer(p, AwaitResult), Smoothly, Timer(p, TimerCheck));
  }

  /** A waiter whose deadline could not be reconciled: gone from the table, remembered
      as timed out, its row untouched. */
  function GivenUp(w: Premises, s: State, t: nat, p: nat): State
    requires p in s.calls
  {
    var req := s.calls[p].request;
    s.(pending := s.pending - {req.call},
       terminal := Remember(s.terminal, req.call, Record(None, req.request, req.key, TimedOut), w.cfg.terminalRetention),
       futures := s.futures[p := Done(ByTimeout)],
       tasks := s.tasks - {t})
  }

  lemma DeadlineFails(w: Premises, s: State, t: nat, p: nat)
    requires Reachable(w, s) && Idle(s) && !w.deadlines
    requires t in s.tasks && s.tasks[t] == Timer(p, Asleep)
    requires p in s.calls && IsWaiting(s, CallOf(s, p), p) && p in s.futures && s.futures[p] == Open
    ensures Reachable(w, GivenUp(w, s, t, p)) && Idle(GivenUp(w, s, t, p))
  {
    DeadlineFires(w, s, t, p);
    TaskGoes(w, s, t, Timer(p, TimerCheck), Smoothly, Timer(p, TimerRead));
    TaskGoes(w, s, t, Timer(p, TimerRead), Failing, Timer(p, TimerFailed));
    DeadlineGivesUp(w, s, t, p);
  }

  lemma DeadlineGivesUp(w: Premises, s: State, t: nat, p: nat)
    requires Reachable(w, At(s, t, Timer(p, TimerFailed))) && t in s.tasks
    requires p in s.calls && IsWaiting(s, CallOf(s, p), p) && p in s.futures && s.futures[p] == Open
    ensures Reachable(w, GivenUp(w, s, t, p))
  {
    var s1 := At(s, t, Timer(p, TimerFailed));
    assert PlanTimer(s1, p, TimerFailed, Smoothly) == Move(Expired(p), None);
    assert s1.tasks - {t} == s.tasks - {t};
    ReachStep(w, s1, Run(t, Smoothly), GivenUp(w, s, t, p));
  }

  /** A deadline that no longer finds its waiter just ends. */
  lemma DeadlineFindsNothing(w: Premises, s: State, t: nat, p: nat)
    requires Reachable(w, s) && Idle(s) && t in s.tasks && s.tasks[t] == Timer(p, Asleep)
    requires p in s.calls && !IsWaiting(s, CallOf(s, p), p)
    ensures Reachable(w, s.(tasks := s.tasks - {t}))
  {
    DeadlineFires(w, s, t, p);
    var s1 := At(s, t, Timer(p, TimerCheck));
    assert PlanTimer(s1, p, TimerCheck, Smoothly) == Stop();
    assert s1.tasks - {t} == s.tasks - {t};
    ReachStep(w, s1, Run(t, Smoothly), s.(tasks := s.tasks - {t}));
  }

  // --------------------------------------------------------------- disconnection

  function Leaving(h: Handle, at: CloseAt): Pc { Closing(h, Finally(false, None), at) }

  /** A disconnection takes the session and its waiters, and then fails to close the
      rows: nothing of it is applied. */
  lemma DisconnectionFails(w: Premises, s: State, h: Handle)
    requires Reachable(w, s) && Idle(s) && w.cfg.closingMayFail && LiveSession(s, h)
    ensures Reachable(w, Passed(PopSession(s, s.nextTid, h.key, WaitersOf(s, h.key))))
  {
    Arrives(w, s, Leaving(h, CloseLock));
    assert PlanClose(Started(s, Leaving(h, CloseLock)), h, Finally(false, None), CloseLock, Smoothly) == Goto(Leaving(h, PopIt));
    NewestGoes(w, s, Leaving(h, CloseLock), Leaving(h, PopIt));
    DisconnectionPops(w, s, h);
    var items := WaitersOf(s, h.key);
    var s1 := PopSession(s, s.nextTid, h.key, items);
    assert PlanClose(Started(s1, Leaving(h, CloseRows(items))), h, Finally(false, None), CloseRows(items), Failing) == Stop();
    NewestRuns(w, s1, Leaving(h, CloseRows(items)), Failing, Stop(), s1);
  }

  lemma DisconnectionPops(w: Premises, s: State, h: Handle)
    requires Reachable(w, Started(s, Leaving(h, PopIt))) && s.nextTid !in s.tasks && LiveSession(s, h)
    ensures var items := WaitersOf(s, h.key);
            Reachable(w, Started(PopSession(s, s.nextTid, h.key, items), Leaving(h, CloseRows(items))))
  {
    var items := WaitersOf(s, h.key);
    var s1 := Started(s, Leaving(h, PopIt));
    assert WaitersOf(s1, h.key) == items;
    var m := Move(Pop(h.key, items), Some(Leaving(h, CloseRows(items))));
    assert PlanClose(s1, h, Finally(false, None), PopIt, Smoothly) == m;
    NewestRuns(w, s, Leaving(h, PopIt), Smoothly, m, PopSession(s, s.nextTid, h.key, items));
  }
}
