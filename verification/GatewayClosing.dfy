/** What disconnections, registrations, refreshes and revocations are for, when nobody
    disturbs them: the sessions and rows they leave, and what becomes of the waiters. */
module GatewayClosing {
  import opened ToolLifecycle
  import opened Options
  import opened ToolRepository
  import opened AgentProtocol
  import opened OrderedTable
  import opened GatewayMachine
  import opened GatewayAlone
  import opened GatewayUndisturbed

  /** Table entries hold their own waiters. */
  ghost predicate Tidy(s: State) {
    forall c | c in s.pending :: s.pending[c] in s.calls && CallOf(s, s.pending[c]) == c
  }

  /** A waiter in the table whose call was sent to one of these sessions. */
  predicate Waits(s: State, p: nat, keys: set<Key>) {
    p in s.calls && IsWaiting(s, CallOf(s, p), p) && s.calls[p].request.key in keys
  }

  /** A row as the end of its session leaves it. */
  function Ended(row: Row, keys: set<Key>): Row {
    if row.key in keys && |row.log| > 0 && !IsTerminal(row.Current()) then row.(log := row.log + [ClientDisconnected]) else row
  }

  /** These sessions are gone with their waiters: every open row is closed, every waiter
      is out of the table, without a deadline, and its caller knows. Everything else is
      as before; the task t itself is not looked at. */
  ghost predicate Disconnects(s: State, s': State, t: nat, keys: set<Key>) {
    && s'.sessions == s.sessions - keys
    && s'.rows == (map c | c in s.rows :: Ended(s.rows[c], keys))
    && (forall c :: c in s'.pending <==> c in s.pending && !Waits(s, s.pending[c], keys))
    && (forall c | c in s'.pending :: s'.pending[c] == s.pending[c])
    && FuturesClosed(s, s', keys)
    && s'.calls.Keys == s.calls.Keys && (forall p | p in s.calls :: s'.calls[p] == s.calls[p].(closer := s'.calls[p].closer))
    && TimersCut(s, s', t, keys)
    && s'.seen == s.seen && s'.sent == s.sent && s'.registered == s.registered
    && s'.nextConn == s.nextConn && s'.nextPid == s.nextPid && s'.nextTid == s.nextTid
  }

  ghost predicate FuturesClosed(s: State, s': State, keys: set<Key>) {
    && s'.futures.Keys == s.futures.Keys
    && forall p | p in s.futures ::
         s'.futures[p] == if Waits(s, p, keys) && s.futures[p] == Open then Done(ByDisconnection) else s.futures[p]
  }

  ghost predicate TimersCut(s: State, s': State, t: nat, keys: set<Key>) {
    && (forall u | u != t :: u in s'.tasks <==> u in s.tasks)
    && (forall u | u in s.tasks && u != t ::
          s'.tasks[u] == s.tasks[u] || (s.tasks[u].Timer? && Waits(s, s.tasks[u].pid, keys) && s'.tasks[u].Unwinding?))
    && (forall p | Waits(s, p, keys) :: !TimerLive(s', p))
  }

  // ------------------------------------------------------------ settling the waiters

  /** The waiters of a list are settled, in whatever order. */
  ghost predicate ItemsSettled(s: State, s': State, items: set<nat>) {
    && s' == s.(terminal := s'.terminal, futures := s'.futures, tasks := s'.tasks)
    && s'.futures.Keys == s.futures.Keys
    && (forall p | p in s.futures ::
          s'.futures[p] == if p in items && s.futures[p] == Open then Done(ByDisconnection) else s.futures[p])
    && s'.tasks.Keys == s.tasks.Keys
    && (forall u | u in s.tasks ::
          s'.tasks[u] == s.tasks[u] || (s.tasks[u].Timer? && s.tasks[u].pid in items && s'.tasks[u].Unwinding?))
    && (forall p | p in items :: !TimerLive(s', p))
  }

  /** One waiter loses its deadline, is remembered as disconnected, and its caller
      learns of it. */
  lemma SettlesOne(cfg: Config, s: State, t: nat, pc: Pc, p: nat, next: Option<Pc>) returns (s': State)
    requires t in s.tasks && !s.tasks[t].Timer? && !pc.Timer? && p in s.calls
    ensures ItemsSettled(s, s', {p}) && s'.tasks[t] == s.tasks[t]
    ensures var req := s.calls[p].request;
            && s'.terminal == Recorded(cfg, s, req.call, Record(None, req.request, req.key, ClientDisconnected))
            && s'.futures == FutureDone(s, p, ByDisconnection)
    ensures Settled(SettleCall(cfg, At(s, t, pc), t, p), t, next) == Settled(s', t, next)
  {
    CutLeaves(s, t, p);
    CutLeaves(At(s, t, pc), t, p);
    s' := SettleCall(cfg, s, t, p);
    SettledTasks(cfg, s, t, pc, p, next);
  }

  lemma SettledTasks(cfg: Config, s: State, t: nat, pc: Pc, p: nat, next: Option<Pc>)
    requires t in s.tasks && !s.tasks[t].Timer? && !pc.Timer? && p in s.calls
    ensures Settled(CancelTimer(At(s, t, pc), t, p), t, next).tasks == Settled(CancelTimer(s, t, p), t, next).tasks
  {
    assert TimerLive(At(s, t, pc), p) == TimerLive(s, p);
    assert CancelTimer(At(s, t, pc), t, p) == At(CancelTimer(s, t, p), t, pc) by { CutCommutes(s, t, pc, p); }
    Resettled(CancelTimer(s, t, p), t, pc, next);
  }

  lemma CutCommutes(s: State, t: nat, pc: Pc, p: nat)
    requires t in s.tasks && !s.tasks[t].Timer? && !pc.Timer? && p in s.calls
    requires TimerLive(At(s, t, pc), p) == TimerLive(s, p)
    ensures CancelTimer(At(s, t, pc), t, p) == At(CancelTimer(s, t, p), t, pc)
  {
    if TimerLive(s, p) {
      var u := s.calls[p].timer.value;
      assert u != t;
      var cut := Unwinding(Holds(s.tasks[u]), InFlight(s, s.tasks[u]));
      assert s.tasks[t := pc][u := cut] == s.tasks[u := cut][t := pc];
    }
  }

  lemma ItemsAdd(s: State, s1: State, s2: State, a: set<nat>, b: set<nat>)
    requires ItemsSettled(s, s1, a) && ItemsSettled(s1, s2, b)
    ensures ItemsSettled(s, s2, a + b)
  {
  }

  /** All of them, one by one. */
  lemma {:induction false} SettlesAll(cfg: Config, start: State, s: State, t: nat, free: bool, h: Handle, after: After,
                                      items: set<nat>) returns (s': State)
    requires t in s.tasks && !s.tasks[t].Timer? && forall p | p in items :: p in s.calls
    requires ComesTo(Turn(cfg, t, free), start, At(s, t, Closing(h, after, CloseSettle(items))))
    ensures ComesTo(Turn(cfg, t, free), start, Settled(s', t, AfterClose(after)))
    ensures ItemsSettled(s, s', items) && s'.tasks[t] == s.tasks[t]
    decreases |items|
  {
    var pc := Closing(h, after, CloseSettle(items));
    if items == {} {
      s' := s;
      SettlesNothing(cfg, start, s, t, free, h, after);
    } else {
      var p, s1 := SettlesNext(cfg, start, s, t, free, h, after, items);
      s' := SettlesAll(cfg, start, s1, t, free, h, after, items - {p});
      ItemsAdd(s, s1, s', {p}, items - {p});
      assert {p} + (items - {p}) == items;
    }
  }

  lemma SettlesNothing(cfg: Config, start: State, s: State, t: nat, free: bool, h: Handle, after: After)
    requires t in s.tasks && ComesTo(Turn(cfg, t, free), start, At(s, t, Closing(h, after, CloseSettle({}))))
    ensures ComesTo(Turn(cfg, t, free), start, Settled(s, t, AfterClose(after)))
  {
    var pc := Closing(h, after, CloseSettle({}));
    Resettled(s, t, pc, AfterClose(after));
    Acts(cfg, start, At(s, t, pc), t, free, pc, GatewayMachine.Move(Nop, AfterClose(after)), Settled(s, t, AfterClose(after)));
  }

  lemma SettlesNext(cfg: Config, start: State, s: State, t: nat, free: bool, h: Handle, after: After, items: set<nat>)
      returns (p: nat, s1: State)
    requires t in s.tasks && !s.tasks[t].Timer? && items != {} && forall p | p in items :: p in s.calls
    requires ComesTo(Turn(cfg, t, free), start, At(s, t, Closing(h, after, CloseSettle(items))))
    ensures p in items && ItemsSettled(s, s1, {p}) && s1.tasks[t] == s.tasks[t]
    ensures ComesTo(Turn(cfg, t, free), start, At(s1, t, Closing(h, after, CloseSettle(items - {p}))))
  {
    p := NextItem(Closing(h, after, CloseSettle(items)));
    s1 := SettlesOne(cfg, s, t, Closing(h, after, CloseSettle(items)), p, Some(Closing(h, after, CloseSettle(items - {p}))));
    SettleActs(cfg, start, s, t, free, h, after, items, p, s1);
  }

  lemma SettleActs(cfg: Config, start: State, s: State, t: nat, free: bool, h: Handle, after: After, items: set<nat>, p: nat, s1: State)
    requires t in s.tasks && items != {} && p == NextItem(Closing(h, after, CloseSettle(items)))
    requires var pc, next := Closing(h, after, CloseSettle(items)), Closing(h, after, CloseSettle(items - {p}));
             Settled(SettleCall(cfg, At(s, t, pc), t, p), t, Some(next)) == At(s1, t, next)
    requires ComesTo(Turn(cfg, t, free), start, At(s, t, Closing(h, after, CloseSettle(items))))
    ensures ComesTo(Turn(cfg, t, free), start, At(s1, t, Closing(h, after, CloseSettle(items - {p}))))
  {
    var pc, next := Closing(h, after, CloseSettle(items)), Closing(h, after, CloseSettle(items - {p}));
    Acts(cfg, start, At(s, t, pc), t, free, pc, GatewayMachine.Move(Settle(p), Some(next)), At(s1, t, next));
  }

  lemma Resettled(s: State, t: nat, pc: Pc, next: Option<Pc>)
    ensures Settled(At(s, t, pc), t, next) == Settled(s, t, next)
  {
    if next.None? {
      assert s.tasks[t := pc] - {t} == s.tasks - {t};
    } else {
      assert s.tasks[t := pc][t := next.value] == s.tasks[t := next.value];
    }
  }

  // ---------------------------------------------------------------- one disconnection

  /** The tables after the session and its waiters are out, and the rows closed. */
  ghost function Popped(s: State, t: nat, key: Key): State {
    PopSession(s, t, key, WaitersOf(s, key)).(rows := DisconnectedRows(s.rows, key))
  }

  lemma ClosePops(cfg: Config, start: State, s: State, t: nat, free: bool, h: Handle, after: After)
    requires t in s.tasks && LiveSession(s, h)
    requires ComesTo(Turn(cfg, t, free), start, At(s, t, Closing(h, after, PopIt)))
    ensures ComesTo(Turn(cfg, t, free), start, At(Popped(s, t, h.key), t, Closing(h, after, CloseSettle(WaitersOf(s, h.key)))))
  {
    var items := WaitersOf(s, h.key);
    var pop, rows := Closing(h, after, PopIt), Closing(h, after, CloseRows(items));
    assert WaitersOf(At(s, t, pop), h.key) == items;
    assert s.tasks[t := pop][t := rows] == s.tasks[t := rows];
    Acts(cfg, start, At(s, t, pop), t, free, pop, GatewayMachine.Move(Pop(h.key, items), Some(rows)),
         At(PopSession(s, t, h.key, items), t, rows));
    ClosesRows(cfg, start, PopSession(s, t, h.key, items), t, free, h, after, items);
  }

  lemma ClosesRows(cfg: Config, start: State, s: State, t: nat, free: bool, h: Handle, after: After, items: set<nat>)
    requires t in s.tasks
    requires ComesTo(Turn(cfg, t, free), start, At(s, t, Closing(h, after, CloseRows(items))))
    ensures ComesTo(Turn(cfg, t, free), start,
                    At(s.(rows := DisconnectedRows(s.rows, h.key)), t, Closing(h, after, CloseSettle(items))))
  {
    var rows, settle := Closing(h, after, CloseRows(items)), Closing(h, after, CloseSettle(items));
    assert s.tasks[t := rows][t := settle] == s.tasks[t := settle];
    Acts(cfg, start, At(s, t, rows), t, free, rows, GatewayMachine.Move(CloseCalls(h.key), Some(settle)),
         At(s.(rows := DisconnectedRows(s.rows, h.key)), t, settle));
  }

  lemma WaitersAre(s: State, key: Key)
    requires Tidy(s)
    ensures forall p :: p in WaitersOf(s, key) <==> Waits(s, p, {key})
  {
    forall p ensures p in WaitersOf(s, key) <==> Waits(s, p, {key}) {
      if Waits(s, p, {key}) {
        assert CallOf(s, p) in s.pending && s.pending[CallOf(s, p)] == p;
      }
    }
  }

  lemma RowsEnd(s: State, key: Key)
    ensures DisconnectedRows(s.rows, key) == map c | c in s.rows :: Ended(s.rows[c], {key})
  {
  }

  lemma PoppedIs(s: State, s': State, t: nat, key: Key)
    requires Tidy(s) && t in s.tasks && ItemsSettled(Popped(s, t, key), s', WaitersOf(s, key))
    ensures Disconnects(s, s', t, {key})
  {
    WaitersAre(s, key);
    RowsEnd(s, key);
    PoppedTables(s, s', t, key);
    PoppedFutures(s, s', t, key);
  }

  lemma PoppedTables(s: State, s': State, t: nat, key: Key)
    requires Tidy(s) && t in s.tasks && ItemsSettled(Popped(s, t, key), s', WaitersOf(s, key))
    requires forall p :: p in WaitersOf(s, key) <==> Waits(s, p, {key})
    ensures forall c :: c in s'.pending <==> c in s.pending && !Waits(s, s.pending[c], {key})
    ensures s'.calls.Keys == s.calls.Keys && forall p | p in s.calls :: s'.calls[p] == s.calls[p].(closer := s'.calls[p].closer)
    ensures forall c | c in s'.pending :: s'.pending[c] == s.pending[c]
  {
  }

  lemma PoppedFutures(s: State, s': State, t: nat, key: Key)
    requires Tidy(s) && t in s.tasks && ItemsSettled(Popped(s, t, key), s', WaitersOf(s, key))
    requires forall p :: p in WaitersOf(s, key) <==> Waits(s, p, {key})
    ensures FuturesClosed(s, s', {key}) && TimersCut(s, s', t, {key})
  {
  }

  /** From the section that takes the session out to the end of the disconnection. */
  lemma ClosesOne(cfg: Config, start: State, s: State, t: nat, free: bool, h: Handle, after: After) returns (s': State)
    requires t in s.tasks && !s.tasks[t].Timer? && LiveSession(s, h) && Tidy(s)
    requires ComesTo(Turn(cfg, t, free), start, At(s, t, Closing(h, after, PopIt)))
    ensures ComesTo(Turn(cfg, t, free), start, Settled(s', t, AfterClose(after)))
    ensures Disconnects(s, s', t, {h.key}) && t in s'.tasks && s'.tasks[t] == s.tasks[t]
  {
    ClosePops(cfg, start, s, t, free, h, after);
    s' := SettlesAll(cfg, start, Popped(s, t, h.key), t, free, h, after, WaitersOf(s, h.key));
    PoppedIs(s, s', t, h.key);
  }

  /** A disconnection of the live connection. */
  lemma DisconnectionLands(cfg: Config, s: State, t: nat, free: bool, h: Handle, after: After) returns (s': State)
    requires t in s.tasks && s.tasks[t] == Closing(h, after, CloseLock) && after.Finally?
    requires Alone(s, t, LifecycleLock) && LiveSession(s, h) && Tidy(s)
    ensures ComesTo(Turn(cfg, t, free), s, s') && t !in s'.tasks && Disconnects(s, s', t, {h.key})
  {
    assert At(s, t, Closing(h, after, CloseLock)) == s;
    StepsOn(Turn(cfg, t, free), s);
    Moves(cfg, s, s, t, free, Closing(h, after, CloseLock), Closing(h, after, PopIt));
    var s1 := ClosesOne(cfg, s, s, t, free, h, after);
    s' := Settled(s1, t, None);
    OwnTaskGoes(s, s1, s', t, {h.key});
  }

  lemma OwnTaskGoes(s: State, s1: State, s': State, t: nat, keys: set<Key>)
    requires Disconnects(s, s1, t, keys) && t in s.tasks && !s.tasks[t].Timer? && t in s1.tasks && !s1.tasks[t].Timer?
    requires s' == s1.(tasks := s'.tasks)
    requires t in s'.tasks ==> !s'.tasks[t].Timer?
    requires forall u | u != t :: (u in s'.tasks <==> u in s1.tasks) && (u in s1.tasks ==> s'.tasks[u] == s1.tasks[u])
    ensures Disconnects(s, s', t, keys)
  {
    assert forall p | Waits(s, p, keys) :: !TimerLive(s', p);
  }

  /** One of a connection that is not live any more changes nothing. */
  lemma DisconnectionIsLate(cfg: Config, s: State, t: nat, free: bool, h: Handle, after: After)
    requires t in s.tasks && s.tasks[t] == Closing(h, after, CloseLock) && after.Finally?
    requires Alone(s, t, LifecycleLock) && !LiveSession(s, h)
    ensures ComesTo(Turn(cfg, t, free), s, s.(tasks := s.tasks - {t}))
  {
    assert At(s, t, Closing(h, after, CloseLock)) == s;
    StepsOn(Turn(cfg, t, free), s);
    Moves(cfg, s, s, t, free, Closing(h, after, CloseLock), Closing(h, after, PopIt));
    Stops(cfg, s, s, t, free, Closing(h, after, PopIt));
  }

  // -------------------------------------------------------------- one after the other

  lemma DisconnectsNone(s: State, t: nat)
    ensures Disconnects(s, s, t, {})
  {
    assert s.sessions - {} == s.sessions;
    assert s.rows == map c | c in s.rows :: Ended(s.rows[c], {});
  }

  lemma EndedTwice(rows: map<nat, Row>, a: set<Key>, b: set<Key>)
    ensures forall c | c in rows :: Ended(Ended(rows[c], a), b) == Ended(rows[c], a + b)
  {
  }

  lemma DisconnectsBoth(s: State, s1: State, s2: State, t: nat, a: set<Key>, b: set<Key>)
    requires Tidy(s) && a !! b && Disconnects(s, s1, t, a) && Disconnects(s1, s2, t, b)
    requires t in s2.tasks ==> !s2.tasks[t].Timer?
    ensures Disconnects(s, s2, t, a + b) && Tidy(s1)
  {
    EndedTwice(s.rows, a, b);
    assert s.sessions - a - b == s.sessions - (a + b);
    StillWait(s, s1, t, a, b);
    PendingBoth(s, s1, s2, t, a, b);
    TimersBoth(s, s1, s2, t, a, b);
  }

  lemma StillWait(s: State, s1: State, t: nat, a: set<Key>, b: set<Key>)
    requires Tidy(s) && a !! b && Disconnects(s, s1, t, a)
    ensures Tidy(s1) && forall p :: Waits(s1, p, b) <==> Waits(s, p, b)
  {
    forall p ensures Waits(s1, p, b) <==> Waits(s, p, b) {
      if Waits(s, p, b) {
        assert CallOf(s, p) in s1.pending;
      }
    }
  }

  lemma PendingBoth(s: State, s1: State, s2: State, t: nat, a: set<Key>, b: set<Key>)
    requires Tidy(s) && a !! b && Disconnects(s, s1, t, a) && Disconnects(s1, s2, t, b)
    requires forall p :: Waits(s1, p, b) <==> Waits(s, p, b)
    ensures forall c :: c in s2.pending <==> c in s.pending && !Waits(s, s.pending[c], a + b)
    ensures forall c | c in s2.pending :: s2.pending[c] == s.pending[c]
    ensures FuturesClosed(s, s2, a + b)
  {
  }

  lemma TimersBoth(s: State, s1: State, s2: State, t: nat, a: set<Key>, b: set<Key>)
    requires TimersCut(s, s1, t, a) && TimersCut(s1, s2, t, b)
    requires forall p :: Waits(s1, p, b) <==> Waits(s, p, b)
    requires forall p :: Waits(s, p, a + b) <==> Waits(s, p, a) || Waits(s, p, b)
    requires t in s2.tasks ==> !s2.tasks[t].Timer?
    requires s2.calls.Keys == s1.calls.Keys && forall p | p in s1.calls :: s2.calls[p].timer == s1.calls[p].timer
    ensures TimersCut(s, s2, t, a + b)
  {
    forall p | Waits(s, p, a + b) ensures !TimerLive(s2, p) {
      if Waits(s, p, a) {
        assert !TimerLive(s1, p);
      } else {
        assert Waits(s1, p, b);
      }
    }
    forall u | u in s.tasks && u != t
      ensures s2.tasks[u] == s.tasks[u] || (s.tasks[u].Timer? && Waits(s, s.tasks[u].pid, a + b) && s2.tasks[u].Unwinding?)
    {
      assert u in s1.tasks && u in s2.tasks;
    }
  }

  // ------------------------------------------------------ several sessions of a client

  function KeysOf(handles: set<Handle>): set<Key> {
    set h | h in handles :: h.key
  }

  /** Sessions that are to be closed are live, and different. */
  ghost predicate AllLive(s: State, handles: set<Handle>) {
    forall h | h in handles :: LiveSession(s, h)
  }

  lemma KeysSplit(s: State, handles: set<Handle>, h: Handle)
    requires AllLive(s, handles) && h in handles
    ensures {h.key} !! KeysOf(handles - {h}) && {h.key} + KeysOf(handles - {h}) == KeysOf(handles)
  {
    forall g | g in handles - {h} ensures g.key != h.key {
      assert LiveSession(s, g) && LiveSession(s, h);
    }
  }

  lemma StillLive(s: State, s1: State, t: nat, handles: set<Handle>, h: Handle)
    requires AllLive(s, handles) && h in handles && Disconnects(s, s1, t, {h.key})
    ensures AllLive(s1, handles - {h})
  {
    KeysSplit(s, handles, h);
    forall g | g in handles - {h} ensures LiveSession(s1, g) {
      assert g.key in KeysOf(handles - {h});
    }
  }

  lemma {:induction false} ClosesEach(cfg: Config, start: State, s: State, t: nat, free: bool, after: After) returns (s': State)
    requires t in s.tasks && !s.tasks[t].Timer? && Tidy(s) && after.Then? && AllLive(s, after.rest)
    requires ComesTo(Turn(cfg, t, free), start, At(s, t, ClosingNext(after)))
    ensures ComesTo(Turn(cfg, t, free), start, At(s', t, ClosingNext(after.(rest := {}))))
    ensures Disconnects(s, s', t, KeysOf(after.rest)) && t in s'.tasks && s'.tasks[t] == s.tasks[t]
    decreases |after.rest|
  {
    if after.rest == {} {
      s' := s;
      DisconnectsNone(s, t);
    } else {
      var h, s1 := ClosesNext(cfg, start, s, t, free, after);
      StillLive(s, s1, t, after.rest, h);
      KeysSplit(s, after.rest, h);
      StillWait(s, s1, t, {h.key}, KeysOf(after.rest - {h}));
      s' := ClosesEach(cfg, start, s1, t, free, after.(rest := after.rest - {h}));
      DisconnectsBoth(s, s1, s', t, {h.key}, KeysOf(after.rest - {h}));
    }
  }

  lemma ClosesNext(cfg: Config, start: State, s: State, t: nat, free: bool, after: After) returns (h: Handle, s1: State)
    requires t in s.tasks && !s.tasks[t].Timer? && Tidy(s) && after.Then? && AllLive(s, after.rest) && after.rest != {}
    requires ComesTo(Turn(cfg, t, free), start, At(s, t, ClosingNext(after)))
    ensures h in after.rest && Disconnects(s, s1, t, {h.key}) && t in s1.tasks && s1.tasks[t] == s.tasks[t]
    ensures ComesTo(Turn(cfg, t, free), start, At(s1, t, ClosingNext(after.(rest := after.rest - {h}))))
  {
    var next := PlanNext(after).next.value;
    h := next.handle;
    var rest := after.(rest := after.rest - {h});
    Moves(cfg, start, s, t, free, ClosingNext(after), next);
    s1 := ClosesOne(cfg, start, s, t, free, h, rest);
  }

  /** The live sessions of a client. */
  ghost function SessionsOf(s: State, client: nat): set<Key> {
    set k | k in s.sessions && k.client == client
  }

  lemma HandlesAreLive(s: State, client: nat)
    ensures AllLive(s, HandlesOf(s, client)) && KeysOf(HandlesOf(s, client)) == SessionsOf(s, client)
  {
    forall k | k in SessionsOf(s, client) ensures k in KeysOf(HandlesOf(s, client)) {
      assert Handle(k, s.sessions[k].conn) in HandlesOf(s, client);
    }
  }

  /** A revocation ends every session of the client, and no other. */
  lemma RevocationLands(cfg: Config, s: State, t: nat, free: bool, client: nat) returns (s': State)
    requires t in s.tasks && s.tasks[t] == Revoking(client, false) && Alone(s, t, LifecycleLock) && Tidy(s)
    ensures ComesTo(Turn(cfg, t, free), s, s') && t !in s'.tasks && Disconnects(s, s', t, SessionsOf(s, client))
  {
    var after := Then(HandlesOf(s, client), None);
    RevocationLists(cfg, s, t, free, client);
    HandlesAreLive(s, client);
    var s1 := ClosesEach(cfg, s, s, t, free, after);
    s' := s1.(tasks := s1.tasks - {t});
    RevocationEnds(cfg, s, s1, t, free);
    OwnTaskGoes(s, s1, s', t, SessionsOf(s, client));
  }

  lemma RevocationEnds(cfg: Config, start: State, s: State, t: nat, free: bool)
    requires t in s.tasks && ComesTo(Turn(cfg, t, free), start, At(s, t, ClosingNext(Then({}, None))))
    ensures ComesTo(Turn(cfg, t, free), start, s.(tasks := s.tasks - {t}))
  {
    Stops(cfg, start, s, t, free, ClosingNext(Then({}, None)));
  }

  lemma RevocationLists(cfg: Config, s: State, t: nat, free: bool, client: nat)
    requires t in s.tasks && s.tasks[t] == Revoking(client, false) && Alone(s, t, LifecycleLock)
    ensures ComesTo(Turn(cfg, t, free), s, At(s, t, ClosingNext(Then(HandlesOf(s, client), None))))
  {
    assert At(s, t, Revoking(client, false)) == s;
    StepsOn(Turn(cfg, t, free), s);
    Moves(cfg, s, s, t, free, Revoking(client, false), Revoking(client, true));
    assert HandlesOf(At(s, t, Revoking(client, true)), client) == HandlesOf(s, client);
    Moves(cfg, s, s, t, free, Revoking(client, true), ClosingNext(Then(HandlesOf(s, client), None)));
  }

  // ---------------------------------------------------------------- registrations

  ghost predicate RegistrationStands(s: State, t: nat, key: Key, tools: map<nat, Tool>) {
    t in s.tasks && s.tasks[t] == Registering(key, tools, RegisterLock) && Alone(s, t, LifecycleLock)
  }

  /** A registration closes whatever other session the client has, and opens the new
      one with the tools it advertises; its key is remembered as the newest. */
  lemma RegistrationLands(cfg: Config, s: State, t: nat, free: bool, key: Key, tools: map<nat, Tool>) returns (s1: State, s': State)
    requires RegistrationStands(s, t, key, tools) && key !in s.seen && Tidy(s)
    ensures Disconnects(s, s1, t, SessionsOf(s, key.client))
    ensures ComesTo(Turn(cfg, t, free), s, s') && t !in s'.tasks
    ensures s' == s1.(sessions := s1.sessions[key := Session(s.nextConn, tools)], seen := Newest(s.seen + [key], cfg.seenRetention),
                      registered := s.registered + [key], nextConn := s.nextConn + 1, tasks := s'.tasks)
    ensures forall u | u != t :: (u in s'.tasks <==> u in s1.tasks) && (u in s1.tasks ==> s'.tasks[u] == s1.tasks[u])
  {
    var after := Then(HandlesOf(s, key.client), Some((key, tools)));
    RegistrationChecks(cfg, s, t, free, key, tools);
    HandlesAreLive(s, key.client);
    s1 := ClosesEach(cfg, s, s, t, free, after);
    s' := RegistrationOpens(cfg, s, s1, t, free, key, tools);
  }

  lemma RegistrationChecks(cfg: Config, s: State, t: nat, free: bool, key: Key, tools: map<nat, Tool>)
    requires RegistrationStands(s, t, key, tools) && key !in s.seen
    ensures ComesTo(Turn(cfg, t, free), s, At(s, t, ClosingNext(Then(HandlesOf(s, key.client), Some((key, tools))))))
  {
    var check := Registering(key, tools, RegisterCheck);
    assert At(s, t, Registering(key, tools, RegisterLock)) == s;
    StepsOn(Turn(cfg, t, free), s);
    Moves(cfg, s, s, t, free, Registering(key, tools, RegisterLock), check);
    assert HandlesOf(At(s, t, check), key.client) == HandlesOf(s, key.client);
    Moves(cfg, s, s, t, free, check, ClosingNext(Then(HandlesOf(s, key.client), Some((key, tools)))));
  }

  lemma RegistrationOpens(cfg: Config, start: State, s: State, t: nat, free: bool, key: Key, tools: map<nat, Tool>) returns (s': State)
    requires t in s.tasks
    requires ComesTo(Turn(cfg, t, free), start, At(s, t, ClosingNext(Then({}, Some((key, tools))))))
    ensures ComesTo(Turn(cfg, t, free), start, s')
    ensures s' == s.(sessions := s.sessions[key := Session(s.nextConn, tools)], seen := Newest(s.seen + [key], cfg.seenRetention),
                     registered := s.registered + [key], nextConn := s.nextConn + 1, tasks := s.tasks - {t})
  {
    var apply := Registering(key, tools, RegisterApply);
    RegistrationStores(cfg, start, s, t, free, key, tools);
    s' := Settled(OpenSession(cfg, At(s, t, apply), key, tools), t, None);
    Acts(cfg, start, At(s, t, apply), t, free, apply, GatewayMachine.Move(AddSession(key, tools), None), s');
    assert s.tasks[t := apply] - {t} == s.tasks - {t};
  }

  lemma RegistrationStores(cfg: Config, start: State, s: State, t: nat, free: bool, key: Key, tools: map<nat, Tool>)
    requires t in s.tasks
    requires ComesTo(Turn(cfg, t, free), start, At(s, t, ClosingNext(Then({}, Some((key, tools))))))
    ensures ComesTo(Turn(cfg, t, free), start, At(s, t, Registering(key, tools, RegisterApply)))
  {
    var store := Registering(key, tools, RegisterStore);
    Moves(cfg, start, s, t, free, ClosingNext(Then({}, Some((key, tools)))), store);
    Moves(cfg, start, s, t, free, store, Registering(key, tools, RegisterApply));
  }

  /** A key that is still remembered is refused. */
  lemma RegistrationIsRefused(cfg: Config, s: State, t: nat, free: bool, key: Key, tools: map<nat, Tool>)
    requires RegistrationStands(s, t, key, tools) && key in s.seen
    ensures ComesTo(Turn(cfg, t, free), s, s.(tasks := s.tasks - {t}))
  {
    assert At(s, t, Registering(key, tools, RegisterLock)) == s;
    StepsOn(Turn(cfg, t, free), s);
    Moves(cfg, s, s, t, free, Registering(key, tools, RegisterLock), Registering(key, tools, RegisterCheck));
    Stops(cfg, s, s, t, free, Registering(key, tools, RegisterCheck));
  }

  /** A refresh replaces the tools of the live connection, and of no other. */
  lemma RefreshLands(cfg: Config, s: State, t: nat, free: bool, h: Handle, tools: map<nat, Tool>)
    requires t in s.tasks && s.tasks[t] == Refreshing(h, tools, RegisterLock) && Alone(s, t, LifecycleLock)
    ensures ComesTo(Turn(cfg, t, free), s,
                    if LiveSession(s, h) then s.(sessions := s.sessions[h.key := Session(h.conn, tools)], tasks := s.tasks - {t})
                    else s.(tasks := s.tasks - {t}))
  {
    var check, store, apply := Refreshing(h, tools, RegisterCheck), Refreshing(h, tools, RegisterStore), Refreshing(h, tools, RegisterApply);
    assert At(s, t, Refreshing(h, tools, RegisterLock)) == s;
    StepsOn(Turn(cfg, t, free), s);
    Moves(cfg, s, s, t, free, Refreshing(h, tools, RegisterLock), check);
    if LiveSession(s, h) {
      Moves(cfg, s, s, t, free, check, store);
      Moves(cfg, s, s, t, free, store, apply);
      RefreshStores(cfg, s, t, free, h, tools);
    } else {
      Stops(cfg, s, s, t, free, check);
    }
  }

  lemma RefreshStores(cfg: Config, s: State, t: nat, free: bool, h: Handle, tools: map<nat, Tool>)
    requires t in s.tasks && LiveSession(s, h)
    requires ComesTo(Turn(cfg, t, free), s, At(s, t, Refreshing(h, tools, RegisterApply)))
    ensures ComesTo(Turn(cfg, t, free), s, s.(sessions := s.sessions[h.key := Session(h.conn, tools)], tasks := s.tasks - {t}))
  {
    var apply := Refreshing(h, tools, RegisterApply);
    assert s.tasks[t := apply] - {t} == s.tasks - {t};
    Acts(cfg, s, At(s, t, apply), t, free, apply, GatewayMachine.Move(SetTools(h.key, tools), None),
         s.(sessions := s.sessions[h.key := Session(h.conn, tools)], tasks := s.tasks - {t}));
  }
}
