/** The gateway object itself: the tables it updates in place, with its eviction
    and clean-up loops. Each method runs between two awaits, and is shown to
    have exactly the effect that the machine of interleaved tasks gives it. */
module AgentGateway {
  import opened ToolLifecycle
  import opened Options
  import opened ToolRepository
  import opened OrderedTable
  import opened GatewayMachine
  import opened GatewayInvariant

  /** The seen-session table without one key. */
  function Erase<T(==)>(items: seq<T>, x: T): (r: seq<T>)
    ensures x !in r && |r| <= |items|
    ensures x !in items ==> r == items
  {
    if items == [] then []
    else if items[0] == x then Erase(items[1..], x)
    else [items[0]] + Erase(items[1..], x)
  }

  // ---------------------------------------- what the small sections give their callers

  /** Other waiters keep their deadlines, and every lock its holders. */
  ghost predicate OthersKeep(s: State, s': State, pid: nat) {
    && (forall q | q != pid :: TimerLive(s', q) == TimerLive(s, q))
    && (forall l :: Held(s', l) == Held(s, l))
  }

  /** A waiter has no live deadline any more, unless it is the running task itself. */
  ghost predicate DeadlineIsOff(s: State, s': State, self: nat, pid: nat) {
    && (TimerLive(s', pid) ==> s'.calls[pid].timer == Some(self))
    && OthersKeep(s, s', pid)
  }

  lemma CancelTurnsOff(s: State, self: nat, pid: nat)
    ensures DeadlineIsOff(s, CancelTimer(s, self, pid), self, pid)
    ensures CancelTimer(CancelTimer(s, self, pid), self, pid) == CancelTimer(s, self, pid)
  {
    var s' := CancelTimer(s, self, pid);
    forall l ensures Held(s', l) == Held(s, l) {
      if t :| t in s.tasks && l in Holds(s.tasks[t]) {
        assert t in s'.tasks && l in Holds(s'.tasks[t]);
      }
    }
  }

  /** A waiter has a live deadline: the one it had, or one that is new. */
  ghost predicate DeadlineIsOn(s: State, s': State, pid: nat) {
    && TimerLive(s', pid)
    && (TimerLive(s, pid) ==> s' == s)
    && (!TimerLive(s, pid) ==> s'.calls[pid].timer.value !in s.tasks)
    && OthersKeep(s, s', pid)
  }

  lemma StartTurnsOn(s: State, pid: nat)
    requires pid in s.calls && s.nextTid !in s.tasks && !TimerLive(s, pid)
    ensures DeadlineIsOn(s, StartTimer(s, pid), pid)
  {
    var s' := StartTimer(s, pid);
    forall l ensures Held(s', l) == Held(s, l) {
      if t :| t in s.tasks && l in Holds(s.tasks[t]) {
        assert t in s'.tasks && l in Holds(s'.tasks[t]);
      }
    }
  }

  /** A waiter that was just made stands in the table, unresolved, under its call and
      for the live session; all older waiters and what is known of them are untouched. */
  ghost predicate EntersTable(s: State, s': State, request: Request, conn: nat) {
    && s.nextPid in s'.calls && s.nextPid in s'.futures
    && IsWaiting(s', request.call, s.nextPid) && s'.futures[s.nextPid] == Open
    && HandleOf(s', s.nextPid) == Handle(request.key, conn)
    && LiveSession(s', HandleOf(s', s.nextPid))
    && (forall p | p in s.calls && p in s.futures && p != s.nextPid ::
          p in s'.calls && p in s'.futures && s'.calls[p] == s.calls[p] && s'.futures[p] == s.futures[p])
    && (forall c | c in s.pending && c != request.call :: IsWaiting(s', c, s.pending[c]))
  }

  /** ... and the tables stay consistent. */
  lemma InsertEnters(s: State, self: nat, request: Request, conn: nat, awaiting: bool)
    requires LiveSession(s, Handle(request.key, conn))
    ensures EntersTable(s, InsertCall(s, self, request, conn, awaiting), request, conn)
    ensures WellFormed(s) && self < s.nextTid ==> WellFormed(InsertCall(s, self, request, conn, awaiting))
    ensures WellFormed(s) && SessionsOk(s) ==> SessionsOk(InsertCall(s, self, request, conn, awaiting))
  {
  }

  class Gateway {
    const terminalRetention: nat
    const seenRetention: nat
    var sessions: map<Key, Session>
    var pending: map<nat, nat>
    var calls: map<nat, Call>
    var futures: map<nat, Future>
    var terminal: seq<(nat, Record)>
    var seen: seq<Key>
    var tasks: map<nat, Pc>
    var nextConn: nat
    var nextPid: nat
    var nextTid: nat
    ghost var rows: map<nat, Row>
    ghost var sent: seq<nat>
    ghost var registered: seq<Key>

    ghost function View(): State
      reads this
    {
      State(sessions, pending, calls, futures, terminal, seen, rows, tasks, sent, registered, nextConn, nextPid, nextTid)
    }

    ghost function Configuration(): Config {
      Config(terminalRetention, seenRetention, false)
    }

    constructor (terminalRetention: nat, seenRetention: nat)
      ensures View() == Initial()
      ensures this.terminalRetention == terminalRetention && this.seenRetention == seenRetention
    {
      this.terminalRetention, this.seenRetention := terminalRetention, seenRetention;
      sessions, pending, calls, futures := map[], map[], map[], map[];
      terminal, seen, tasks := [], [], map[];
      nextConn, nextPid, nextTid := 0, 0, 0;
      rows, sent, registered := map[], [], [];
    }

    // ---------------------------------------------------------- bounded tables

    method RememberTerminalLocked(call: nat, record: Record)
      modifies this`terminal
      ensures terminal == Remember(old(terminal), call, record, terminalRetention)
    {
      terminal := Without(terminal, call) + [(call, record)];
      ghost var all := terminal;
      while |terminal| > terminalRetention
        invariant |terminal| <= |all| && terminal == all[|all| - |terminal|..]
        invariant |terminal| >= terminalRetention || terminal == all
      {
        terminal := terminal[1..];
      }
    }

    method RememberSeenSessionLocked(key: Key)
      modifies this`seen
      ensures seen == Newest(Erase(old(seen), key) + [key], seenRetention)
    {
      seen := Erase(seen, key) + [key];
      ghost var all := seen;
      while |seen| > seenRetention
        invariant |seen| <= |all| && seen == all[|all| - |seen|..]
        invariant |seen| >= seenRetention || seen == all
      {
        seen := seen[1..];
      }
    }

    // --------------------------------------------------------------- deadlines

    /** `self` is the task on whose behalf the method runs: it does not cancel itself. */
    method CancelTimeout(self: nat, pid: nat)
      modifies this`tasks
      ensures View() == CancelTimer(old(View()), self, pid)
      ensures DeadlineIsOff(old(View()), View(), self, pid)
    {
      CancelTurnsOff(View(), self, pid);
      if pid in calls && calls[pid].timer.Some? {
        var u := calls[pid].timer.value;
        if u != self && u in tasks && IsTimerFor(tasks[u], pid) {
          var op := None;
          if tasks[u].phase.TimerRun? && tasks[u].phase.ops != [] {
            op := Some((calls[pid].request.call, tasks[u].phase.ops[0]));
          }
          tasks := tasks[u := Unwinding(Holds(tasks[u]), op)];
        }
      }
    }

    method EnsureTimeoutLocked(pid: nat)
      requires pid in calls
      modifies this`tasks, this`calls, this`nextTid
      ensures View() == if TimerLive(old(View()), pid) then old(View()) else StartTimer(old(View()), pid)
      ensures old(nextTid !in tasks) ==> DeadlineIsOn(old(View()), View(), pid)
    {
      var timer := calls[pid].timer;
      if timer.Some? && timer.value in tasks && IsTimerFor(tasks[timer.value], pid) {
        return;
      }
      if nextTid !in tasks {
        StartTurnsOn(View(), pid);
      }
      tasks := tasks[nextTid := Timer(pid, Asleep)];
      calls := calls[pid := calls[pid].(timer := Some(nextTid))];
      nextTid := nextTid + 1;
    }

    /** The approval deadline ends and the execution deadline begins, unless the
        waiter was resolved or replaced in the meantime. */
    method BeginExecutionTimeout(self: nat, pid: nat) returns (ok: bool)
      requires WellFormed(View()) && pid in calls
      modifies this`tasks, this`calls, this`nextTid
      ensures ok == (futures[pid] == Open && IsWaiting(old(View()), CallOf(old(View()), pid), pid))
      ensures View() == if ok then RearmTimer(old(View()), self, pid) else old(View())
    {
      var call := calls[pid].request.call;
      if call !in pending || pending[call] != pid || futures[pid] != Open {
        return false;
      }
      CancelTimeout(self, pid);
      calls := calls[pid := calls[pid].(awaiting := false, timer := None)];
      EnsureTimeoutLocked(pid);
      return true;
    }

    // -------------------------------------------------------------- settlement

    method SetResult(pid: nat, how: Settlement)
      modifies this`futures
      ensures View() == Resolve(old(View()), pid, how)
    {
      if pid in futures && futures[pid] == Open {
        futures := futures[pid := Done(how)];
      }
    }

    /** _finish_with_result and _finish_with_exception. */
    method Finish(self: nat, call: nat, record: Record, how: Settlement)
      modifies this`pending, this`terminal, this`tasks, this`futures
      ensures View() == FinishCall(Configuration(), old(View()), self, call, record, how)
    {
      var waiter := if call in pending then Some(pending[call]) else None;
      pending := pending - {call};
      RememberTerminalLocked(call, record);
      if waiter.Some? {
        CancelTimeout(self, waiter.value);
        SetResult(waiter.value, how);
      }
    }

    /** The last section of a deadline, on the normal and on the failing path. */
    method ExpireLocked(pid: nat)
      requires pid in calls
      modifies this`pending, this`terminal, this`futures
      ensures View() == ExpireCall(Configuration(), old(View()), pid)
    {
      var request := calls[pid].request;
      var mine := request.call in pending && pending[request.call] == pid;
      pending := pending - {request.call};
      if mine {
        RememberTerminalLocked(request.call, Record(None, request.request, request.key, TimedOut));
        SetResult(pid, ByTimeout);
      }
    }

    // ---------------------------------------------------------------- sessions

    method WaitersOfLocked(key: Key, ids: seq<nat>) returns (items: seq<nat>)
      requires WellFormed(View())
      requires forall c :: c in pending <==> c in ids
      ensures forall p :: p in items <==> p in WaitersOf(View(), key)
    {
      items := [];
      var i := 0;
      while i < |ids|
        invariant 0 <= i <= |ids|
        invariant forall p | p in items :: p in WaitersOf(View(), key)
        invariant forall k | 0 <= k < i && calls[pending[ids[k]]].request.key == key :: pending[ids[k]] in items
      {
        assert ids[i] in pending;
        var pid := pending[ids[i]];
        if calls[pid].request.key == key {
          items := items + [pid];
        }
        i := i + 1;
      }
      forall p | p in WaitersOf(View(), key) ensures p in items {
        var c :| c in pending && pending[c] == p;
        var k :| 0 <= k < |ids| && ids[k] == c;
      }
    }

    method PopItemsLocked(self: nat, items: seq<nat>)
      requires Indexed(pending, calls) && forall p | p in items :: p in calls && p in pending.Values
      modifies this`pending, this`calls
      ensures pending == Dropped(old(pending), items)
      ensures calls == Closed(old(calls), items, self)
    {
      ghost var pending0, calls0 := pending, calls;
      var i := 0;
      while i < |items|
        invariant 0 <= i <= |items|
        invariant calls == Closed(calls0, items[..i], self)
        invariant pending == Dropped(pending0, items[..i])
      {
        var pid := items[i];
        assert items[..i + 1] == items[..i] + [pid];
        DropOne(pending0, calls0, items[..i], pid, self);
        pending := pending - {calls[pid].request.call};
        calls := calls[pid := calls[pid].(closer := Some(self))];
        i := i + 1;
      }
      assert items[..i] == items;
    }

    /** A disconnection takes the session and then, one by one, its waiters. `ids`
        enumerates the table. */
    method PopSessionLocked(self: nat, handle: Handle, ids: seq<nat>) returns (live: bool, items: seq<nat>)
      requires WellFormed(View())
      requires forall c :: c in pending <==> c in ids
      modifies this`sessions, this`pending, this`calls
      ensures live == LiveSession(old(View()), handle)
      ensures !live ==> View() == old(View()) && items == []
      ensures live ==> forall p :: p in items <==> p in WaitersOf(old(View()), handle.key)
      ensures live ==> View() == PopSession(old(View()), self, handle.key, WaitersOf(old(View()), handle.key))
    {
      items := [];
      if handle.key !in sessions || sessions[handle.key].conn != handle.conn {
        return false, items;
      }
      live := true;
      sessions := sessions - {handle.key};
      items := WaitersOfLocked(handle.key, ids);
      assert WaitersOf(View(), handle.key) == WaitersOf(old(View()), handle.key);
      PopItemsLocked(self, items);
      PopIsDrop(old(View()), self, handle.key, items);
    }

    method SettleItem(self: nat, pid: nat)
      requires pid in calls
      modifies this`terminal, this`tasks, this`futures
      ensures View() == SettleCall(Configuration(), old(View()), self, pid)
    {
      var request := calls[pid].request;
      CancelTimeout(self, pid);
      RememberTerminalLocked(request.call, Record(None, request.request, request.key, ClientDisconnected));
      SetResult(pid, ByDisconnection);
    }

    /** ... and, when their rows are closed, resolves them. */
    method SettleItems(self: nat, items: seq<nat>)
      requires forall p | p in items :: p in calls
      modifies this`terminal, this`tasks, this`futures
      ensures View() == SettleAll(Configuration(), old(View()), self, items)
    {
      ghost var s := View();
      var i := 0;
      while i < |items|
        invariant 0 <= i <= |items|
        invariant calls == s.calls
        invariant View() == SettleAll(Configuration(), s, self, items[..i])
      {
        SettleItem(self, items[i]);
        assert items[..i + 1][..i] == items[..i];
        i := i + 1;
      }
      assert items[..i] == items;
    }

    /** The part of register that runs after the capabilities are stored. */
    method AddSessionLocked(key: Key, tools: map<nat, Tool>)
      requires key !in seen
      modifies this`sessions, this`seen, this`registered, this`nextConn
      ensures View() == OpenSession(Configuration(), old(View()), key, tools)
    {
      sessions := sessions[key := Session(nextConn, tools)];
      nextConn := nextConn + 1;
      registered := registered + [key];
      RememberSeenSessionLocked(key);
    }

    /** The last section of dispatch before the write: the waiter enters the table
        only if the session it was routed to is still the live one. */
    method InsertLocked(self: nat, request: Request, conn: nat, awaiting: bool) returns (ok: bool)
      modifies this`pending, this`calls, this`futures, this`nextPid
      ensures ok == LiveSession(old(View()), Handle(request.key, conn))
      ensures View() == if ok then InsertCall(old(View()), self, request, conn, awaiting) else old(View())
      ensures ok ==> EntersTable(old(View()), View(), request, conn)
      ensures old(WellFormed(View())) && self < old(nextTid) ==> WellFormed(View())
      ensures old(WellFormed(View()) && SessionsOk(View())) ==> SessionsOk(View())
    {
      if request.key !in sessions || sessions[request.key].conn != conn {
        return false;
      }
      InsertEnters(View(), self, request, conn, awaiting);
      pending := pending[request.call := nextPid];
      calls := calls[nextPid := Call(request, conn, self, awaiting, None, None)];
      futures := futures[nextPid := Open];
      nextPid := nextPid + 1;
      return true;
    }
  }

  /** The machine's settling steps of one disconnection, in the order of its list. */
  ghost function SettleAll(cfg: Config, s: State, t: nat, items: seq<nat>): State {
    if items == [] then s
    else SettleCall(cfg, SettleAll(cfg, s, t, items[..|items| - 1]), t, items[|items| - 1])
  }

  lemma SettleOne(cfg: Config, s: State, t: nat, pid: nat)
    requires pid in s.calls && pid in s.futures
    ensures var s' := SettleCall(cfg, s, t, pid);
            && s'.calls == s.calls && s'.pending == s.pending
            && s'.futures == if s.futures[pid] == Open then s.futures[pid := Done(ByDisconnection)] else s.futures
  {
  }

  /** A disconnection resolves all its waiters and completes nobody else's. */
  lemma {:induction false} SettleAllResolves(cfg: Config, s: State, t: nat, items: seq<nat>)
    requires forall p | p in items :: p in s.calls && p in s.futures
    ensures var s' := SettleAll(cfg, s, t, items);
            && s'.calls == s.calls && s'.pending == s.pending && s'.futures.Keys == s.futures.Keys
            && forall p | p in s.futures ::
                 s'.futures[p] == if p in items && s.futures[p] == Open then Done(ByDisconnection) else s.futures[p]
  {
    if items != [] {
      var front, last := items[..|items| - 1], items[|items| - 1];
      assert items == front + [last];
      SettleAllResolves(cfg, s, t, front);
      SettleOne(cfg, SettleAll(cfg, s, t, front), t, last);
    }
  }

  // --------------------------------------------------- taking waiters out one by one

  ghost predicate Indexed(pending: map<nat, nat>, calls: map<nat, Call>) {
    forall c | c in pending :: pending[c] in calls && calls[pending[c]].request.call == c
  }

  ghost function Dropped(pending: map<nat, nat>, items: seq<nat>): map<nat, nat> {
    map c | c in pending && pending[c] !in items :: pending[c]
  }

  ghost function Closed(calls: map<nat, Call>, items: seq<nat>, t: nat): map<nat, Call> {
    map p | p in calls :: if p in items then calls[p].(closer := Some(t)) else calls[p]
  }

  lemma DropOne(pending: map<nat, nat>, calls: map<nat, Call>, items: seq<nat>, pid: nat, t: nat)
    requires Indexed(pending, calls) && pid in calls && pid in pending.Values
    ensures Dropped(pending, items + [pid]) == Dropped(pending, items) - {calls[pid].request.call}
    ensures Closed(calls, items + [pid], t)
            == Closed(calls, items, t)[pid := Closed(calls, items, t)[pid].(closer := Some(t))]
  {
    forall c | c in pending ensures pending[c] == pid <==> c == calls[pid].request.call {
    }
  }

  lemma PopIsDrop(s: State, t: nat, key: Key, items: seq<nat>)
    requires forall p :: p in items <==> p in WaitersOf(s, key)
    ensures PopSession(s, t, key, WaitersOf(s, key)).pending == Dropped(s.pending, items)
    ensures PopSession(s, t, key, WaitersOf(s, key)).calls == Closed(s.calls, items, t)
  {
  }
}
