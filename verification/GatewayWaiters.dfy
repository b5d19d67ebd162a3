/** Each kind of step keeps every waiter either watched, being sent, resolved or
    about to be resolved. */
module GatewayWaiters {
  import opened ToolLifecycle
  import opened Options
  import opened ToolRepository
  import opened OrderedTable
  import opened GatewayMachine
  import opened GatewayLocks
  import opened GatewayInvariant

  ghost predicate Waits(s: State, p: nat)
    requires p in s.calls
  {
    IsWaiting(s, CallOf(s, p), p)
  }

  /** The stepping task goes on doing for waiter `p` whatever it was doing. */
  ghost predicate KeepsRole(s: State, pc: Pc, next: Option<Pc>, p: nat)
    requires p in s.calls
  {
    && (Waits(s, p) ==>
          && (Sends(pc, p) <==> next.Some? && Sends(next.value, p))
          && (IsTimerFor(pc, p) ==> next.Some? && IsTimerFor(next.value, p)))
    && (p in ItemsOf(pc) ==> next.Some? && p in ItemsOf(next.value))
  }

  /** The tables a waiter's fate depends on are the same in both states. */
  ghost predicate SameTables(s: State, s': State) {
    s'.pending == s.pending && s'.calls == s.calls && s'.futures == s.futures
  }

  lemma QuietStep(s: State, s1: State, t: nat, next: Option<Pc>)
    requires WellFormed(s) && WaitersOk(s) && t in s.tasks
    requires SameTables(s, s1) && s1.tasks == s.tasks
    requires forall p | p in s.calls :: KeepsRole(s, s.tasks[t], next, p)
    ensures WaitersOk(Settled(s1, t, next))
  {
  }

  lemma InsertStep(s: State, t: nat, req: Request, conn: nat, awaiting: bool)
    requires WellFormed(s) && WaitersOk(s) && t in s.tasks
    requires s.tasks[t].Dispatching? && req.call !in s.pending
    ensures WaitersOk(Settled(InsertCall(s, t, req, conn, awaiting), t, Some(Sending(s.nextPid, Write(false)))))
  {
    var s' := Settled(InsertCall(s, t, req, conn, awaiting), t, Some(Sending(s.nextPid, Write(false))));
    forall p | p in s'.calls ensures WaiterOk(s', p) {
      if p != s.nextPid {
        assert KeepsRole(s, s.tasks[t], Some(Sending(s.nextPid, Write(false))), p);
        assert WaiterOk(s, p);
      }
    }
  }

  /** A waiter whose entry, future and helpers are as they were is still fine. */
  ghost predicate Untouched(s: State, s': State, p: nat) {
    && p in s.calls && p in s'.calls && p in s.futures && p in s'.futures
    && CallOf(s', p) == CallOf(s, p)
    && (IsWaiting(s', CallOf(s, p), p) <==> IsWaiting(s, CallOf(s, p), p))
    && s'.futures[p] == s.futures[p]
    && (BeingSent(s', p) <==> BeingSent(s, p))
    && (TimerLive(s, p) ==> TimerLive(s', p))
    && (InClosing(s, p) ==> InClosing(s', p))
  }

  lemma UntouchedIsOk(s: State, s': State, p: nat)
    requires WaiterOk(s, p) && Untouched(s, s', p)
    ensures WaiterOk(s', p)
  {
  }

  lemma StartFrame(s: State, t: nat, pid: nat, p: nat)
    requires WellFormed(s) && pid in s.calls && p in s.calls && t in s.tasks && !IsTimerFor(s.tasks[t], p)
    requires p in ItemsOf(s.tasks[t]) ==> false
    ensures var s' := Settled(StartTimer(s, pid), t, None);
            && (TimerLive(s, p) || p == pid ==> TimerLive(s', p))
            && (BeingSent(s, p) && s.calls[p].sender != t <==> BeingSent(s', p))
            && (InClosing(s, p) ==> InClosing(s', p))
  {
  }

  lemma ArmStep(s: State, t: nat, pid: nat)
    requires WellFormed(s) && WaitersOk(s) && t in s.tasks
    requires s.tasks[t] == Sending(pid, ArmIt) && pid in s.calls && s.calls[pid].sender == t
    ensures WaitersOk(Settled(ArmTimer(s, pid), t, None))
  {
    var s' := Settled(ArmTimer(s, pid), t, None);
    if ArmTimer(s, pid) == s {
      forall p | p in s'.calls ensures WaiterOk(s', p) {
        assert WaiterOk(s, p);
      }
    } else {
      forall p | p in s'.calls ensures WaiterOk(s', p) {
        assert WaiterOk(s, p);
        StartFrame(s, t, pid, p);
      }
    }
  }

  /** Cancelling one waiter's deadline leaves the other waiters' tasks alone. */
  ghost predicate OneTimerCut(s: State, s1: State, pid: nat) {
    && s1.tasks.Keys == s.tasks.Keys
    && (forall u, p | u in s.tasks :: Sends(s1.tasks[u], p) <==> Sends(s.tasks[u], p))
    && (forall u, p | u in s.tasks && p != pid :: IsTimerFor(s1.tasks[u], p) <==> IsTimerFor(s.tasks[u], p))
    && (forall u | u in s.tasks :: ItemsOf(s1.tasks[u]) == ItemsOf(s.tasks[u]))
  }

  lemma CancelFrame(s: State, t: nat, pid: nat)
    ensures var s1 := CancelTimer(s, t, pid);
            && SameTables(s, s1) && s1.nextTid == s.nextTid
            && (t in s.tasks ==> s1.tasks[t] == s.tasks[t])
            && OneTimerCut(s, s1, pid)
  {
  }

  lemma RearmStep(s: State, t: nat, pid: nat)
    requires WellFormed(s) && WaitersOk(s) && t in s.tasks
    requires s.tasks[t].Handling? && pid in s.calls && s.futures[pid] == Open
    ensures WaitersOk(Settled(RearmTimer(s, t, pid), t, None))
  {
    CancelFrame(s, t, pid);
    var s1 := CancelTimer(s, t, pid);
    var s' := Settled(RearmTimer(s, t, pid), t, None);
    forall p | p in s'.calls ensures WaiterOk(s', p) {
      assert WaiterOk(s, p);
      RearmOther(s, s1, s1.(calls := s1.calls[pid := s1.calls[pid].(awaiting := false)]), t, pid, p);
      if p == pid {
        assert TimerLive(s', p);
      } else {
        UntouchedIsOk(s, s', p);
      }
    }
  }

  lemma RearmOther(s: State, s1: State, s2: State, t: nat, pid: nat, p: nat)
    requires WellFormed(s) && t in s.tasks && s.tasks[t].Handling? && pid in s.calls && p in s.calls
    requires SameTables(s, s1) && OneTimerCut(s, s1, pid) && s1.nextTid == s.nextTid
    requires s2 == s1.(calls := s.calls[pid := s.calls[pid].(awaiting := false)])
    ensures var s' := Settled(StartTimer(s2, pid), t, None);
            && (BeingSent(s', p) <==> BeingSent(s, p))
            && (InClosing(s, p) ==> InClosing(s', p))
            && (p != pid ==> Untouched(s, s', p))
            && (p == pid ==> TimerLive(s', p))
  {
  }

  lemma ResolveFrame(s: State, pid: nat, how: Settlement)
    ensures var s1 := Resolve(s, pid, how);
            && s1.(futures := s.futures) == s && s1.futures.Keys == s.futures.Keys
            && (pid in s.futures ==> s1.futures[pid] != Open)
            && (forall p | p in s.futures && p != pid :: s1.futures[p] == s.futures[p])
            && (forall p | p in s.futures && s.futures[p] != Open :: s1.futures[p] == s.futures[p])
  {
  }

  /** After a call was taken out of the table and resolved, nothing else changed. */
  lemma FinishStep(cfg: Config, s: State, t: nat, call: nat, record: Record, how: Settlement, next: Option<Pc>)
    requires WellFormed(s) && WaitersOk(s) && t in s.tasks
    requires s.tasks[t].Handling? || s.tasks[t].Receiving?
    requires next.Some? ==> next.value.Closing? && next.value.place.CloseLock? && next.value.after == Finally(false, None)
    ensures WaitersOk(Settled(FinishCall(cfg, s, t, call, record, how), t, next))
  {
    var s0 := s.(pending := s.pending - {call},
                 terminal := Remember(s.terminal, call, record, cfg.terminalRetention));
    if call in s.pending {
      var pid := s.pending[call];
      var s1 := CancelTimer(s0, t, pid);
      CancelFrame(s0, t, pid);
      ResolveFrame(s1, pid, how);
      var s2 := Resolve(s1, pid, how);
      FinishOthers(s, s2, t, call, pid, next);
    } else {
      FinishOthers(s, s0, t, call, s.nextPid, next);
    }
  }

  lemma FinishOthers(s: State, s2: State, t: nat, call: nat, pid: nat, next: Option<Pc>)
    requires WellFormed(s) && WaitersOk(s) && t in s.tasks
    requires s.tasks[t].Handling? || s.tasks[t].Receiving?
    requires next.Some? ==> next.value.Closing? && next.value.place.CloseLock? && next.value.after == Finally(false, None)
    requires s2.calls == s.calls && s2.futures.Keys == s.futures.Keys
    requires s2.pending == s.pending - {call}
    requires call in s.pending ==> s.pending[call] == pid && s2.futures[pid] != Open
    requires call !in s.pending ==> pid !in s.calls
    requires forall p | p in s.futures && p != pid :: s2.futures[p] == s.futures[p]
    requires OneTimerCut(s, s2, pid)
    ensures WaitersOk(Settled(s2, t, next))
  {
    var s' := Settled(s2, t, next);
    forall p | p in s'.calls ensures WaiterOk(s', p) {
      assert WaiterOk(s, p);
      if p != pid {
        FinishOther(s, s2, t, call, pid, next, p);
        UntouchedIsOk(s, s', p);
      }
    }
  }

  lemma FinishOther(s: State, s2: State, t: nat, call: nat, pid: nat, next: Option<Pc>, p: nat)
    requires WellFormed(s) && p in s.calls && p != pid && t in s.tasks
    requires s.tasks[t].Handling? || s.tasks[t].Receiving?
    requires next.Some? ==> next.value.Closing? && next.value.place.CloseLock? && next.value.after == Finally(false, None)
    requires s2.calls == s.calls && s2.futures.Keys == s.futures.Keys && s2.futures[p] == s.futures[p]
    requires s2.pending == s.pending - {call}
    requires call in s.pending ==> s.pending[call] == pid
    requires OneTimerCut(s, s2, pid)
    ensures Untouched(s, Settled(s2, t, next), p)
  {
  }

  lemma ExpireStep(cfg: Config, s: State, t: nat, pid: nat)
    requires WellFormed(s) && WaitersOk(s) && t in s.tasks
    requires IsTimerFor(s.tasks[t], pid) && NoRival(s, pid)
    ensures WaitersOk(Settled(ExpireCall(cfg, s, pid), t, None))
  {
    var call := CallOf(s, pid);
    var s1 := ExpireCall(cfg, s, pid);
    assert s1.pending == s.pending - {call} && s1.calls == s.calls && s1.tasks == s.tasks;
    assert IsWaiting(s, call, pid) ==> s1.futures[pid] != Open;
    assert forall p | p in s.futures && p != pid :: s1.futures[p] == s.futures[p];
    assert !IsWaiting(s, call, pid) ==> s1.futures == s.futures && s1.pending == s.pending;
    ExpireOthers(s, s1, t, pid);
  }

  lemma ExpireOthers(s: State, s1: State, t: nat, pid: nat)
    requires WellFormed(s) && WaitersOk(s) && t in s.tasks
    requires IsTimerFor(s.tasks[t], pid) && NoRival(s, pid)
    requires s1.pending == s.pending - {CallOf(s, pid)} && s1.calls == s.calls && s1.tasks == s.tasks
    requires s1.futures.Keys == s.futures.Keys
    requires Waits(s, pid) ==> s1.futures[pid] != Open
    requires !Waits(s, pid) ==> s1.futures == s.futures && s1.pending == s.pending
    requires forall p | p in s.futures && p != pid :: s1.futures[p] == s.futures[p]
    ensures WaitersOk(Settled(s1, t, None))
  {
    var s' := Settled(s1, t, None);
    forall p | p in s'.calls ensures WaiterOk(s', p) {
      assert WaiterOk(s, p);
      if p != pid {
        assert Untouched(s, s', p);
      }
    }
  }

  lemma PopStep(s: State, t: nat, h: Handle, after: After)
    requires WellFormed(s) && WaitersOk(s) && SessionsOk(s) && t in s.tasks
    requires s.tasks[t] == Closing(h, after, PopIt) && SenderOk(s, t, h, after)
    requires LiveSession(s, h)
    ensures var items := WaitersOf(s, h.key);
            WaitersOk(Settled(PopSession(s, t, h.key, items), t, Some(Closing(h, after, CloseRows(items)))))
  {
    var items := WaitersOf(s, h.key);
    var s' := Settled(PopSession(s, t, h.key, items), t, Some(Closing(h, after, CloseRows(items))));
    forall p | p in s'.calls ensures WaiterOk(s', p) {
      assert WaiterOk(s, p);
      if p in items {
        assert InClosing(s', p);
        assert !IsWaiting(s', CallOf(s', p), p);
      } else {
        assert Waits(s, p) ==> s.calls[p].request.key != h.key;
        assert Waits(s, p) ==> !Sends(s.tasks[t], p);
      }
    }
  }

  lemma SettleStep(cfg: Config, s: State, t: nat, h: Handle, items: set<nat>, after: After, pid: nat)
    requires WellFormed(s) && WaitersOk(s) && t in s.tasks
    requires s.tasks[t] == Closing(h, after, CloseSettle(items)) && ItemsOk(s, t, items) && pid in items
    ensures WaitersOk(Settled(SettleCall(cfg, s, t, pid), t, Some(Closing(h, after, CloseSettle(items - {pid})))))
  {
    var req := s.calls[pid].request;
    CancelFrame(s, t, pid);
    var s1 := CancelTimer(s, t, pid);
    var s2 := s1.(terminal := Remember(s1.terminal, req.call, Record(None, req.request, req.key, ClientDisconnected), cfg.terminalRetention));
    ResolveFrame(s2, pid, ByDisconnection);
    var s' := Settled(SettleCall(cfg, s, t, pid), t, Some(Closing(h, after, CloseSettle(items - {pid}))));
    forall p | p in s'.calls ensures WaiterOk(s', p) {
      assert WaiterOk(s, p);
      assert BeingSent(s, p) <==> BeingSent(s', p);
      if p != pid {
        assert InClosing(s, p) ==> InClosing(s', p);
        assert TimerLive(s, p) ==> TimerLive(s', p);
      }
    }
  }
}
