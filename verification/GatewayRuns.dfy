/** The main results about the gateway, over whole runs: the invariant holds in
    every reachable state, so no waiter is ever stranded or resolved twice, every
    client has at most one live session, and no session key comes back early. */
module GatewayRuns {
  import opened ToolLifecycle
  import opened Options
  import opened ToolRepository
  import opened AgentProtocol
  import opened OrderedTable
  import opened GatewayMachine
  import opened GatewayLocks
  import opened GatewayInvariant
  import opened GatewayWaiters
  import opened GatewaySteps

  lemma DispatchingStep(cfg: Config, s: State, t: nat, ch: Choice)
    requires Core(cfg, s) && t in s.tasks && s.tasks[t].Dispatching?
    ensures Kept(cfg, s, Stepped(cfg, s, t, ch))
  {
    var pc := s.tasks[t];
    assert PcOk(s, t, pc);
    DispatchFacts(s, t, pc.req, pc.at, ch);
    var m := PlanDispatch(s, pc.req, pc.at, ch);
    if QuietFacts(s, t, pc, m) { QuietMove(cfg, s, t, m); } else { DispatchMove(cfg, s, t, pc.req, pc.at, m); }
  }

  lemma SendingStep(cfg: Config, s: State, t: nat, ch: Choice)
    requires Core(cfg, s) && t in s.tasks && s.tasks[t].Sending?
    ensures Kept(cfg, s, Stepped(cfg, s, t, ch))
  {
    var pc := s.tasks[t];
    assert PcOk(s, t, pc);
    SendFacts(s, t, pc.pid, pc.step, ch);
    var m := PlanSend(s, pc.pid, pc.step, ch);
    if QuietFacts(s, t, pc, m) { QuietMove(cfg, s, t, m); } else { SendMove(cfg, s, t, pc.pid); }
  }

  lemma HandlingStep(cfg: Config, s: State, t: nat, ch: Choice)
    requires Core(cfg, s) && t in s.tasks && s.tasks[t].Handling?
    ensures Kept(cfg, s, Stepped(cfg, s, t, ch))
  {
    var pc := s.tasks[t];
    EventFacts(s, t, pc.handle, pc.event, pc.turn, ch);
    var m := PlanEvent(s, pc.handle, pc.event, pc.turn, ch);
    if QuietFacts(s, t, pc, m) {
      QuietMove(cfg, s, t, m);
    } else if m.effect.Rearm? {
      RearmMove(cfg, s, t, m.effect.pid);
    } else {
      FinishMove(cfg, s, t, m.effect.call, m.effect.record, m.effect.how, m.next);
    }
  }

  lemma ReceivingStep(cfg: Config, s: State, t: nat, ch: Choice)
    requires Core(cfg, s) && t in s.tasks && s.tasks[t].Receiving?
    ensures Kept(cfg, s, Stepped(cfg, s, t, ch))
  {
    var pc := s.tasks[t];
    ResultFacts(s, t, pc.handle, pc.result, pc.stage, ch);
    var m := PlanResult(s, pc.handle, pc.result, pc.stage, ch);
    if QuietFacts(s, t, pc, m) {
      QuietMove(cfg, s, t, m);
    } else {
      FinishMove(cfg, s, t, m.effect.call, m.effect.record, m.effect.how, m.next);
    }
  }

  lemma TimerStep(cfg: Config, s: State, t: nat, ch: Choice)
    requires Core(cfg, s) && t in s.tasks && s.tasks[t].Timer?
    ensures Kept(cfg, s, Stepped(cfg, s, t, ch))
  {
    var pc := s.tasks[t];
    assert PcOk(s, t, pc);
    TimerFacts(s, t, pc.pid, pc.phase, ch);
    var m := PlanTimer(s, pc.pid, pc.phase, ch);
    if QuietFacts(s, t, pc, m) { QuietMove(cfg, s, t, m); } else { TimerMove(cfg, s, t, pc.pid); }
  }

  lemma ClosingMove(cfg: Config, s: State, t: nat, m: Move, item: nat)
    requires Core(cfg, s) && t in s.tasks && s.tasks[t].Closing?
    requires var pc := s.tasks[t];
             || QuietFacts(s, t, pc, m)
             || (cfg.closingMayFail && CalmFacts(s, t, m))
             || (&& pc.place.PopIt? && LiveSession(s, pc.handle)
                 && m == Move(Pop(pc.handle.key, WaitersOf(s, pc.handle.key)),
                              Some(Closing(pc.handle, pc.after, CloseRows(WaitersOf(s, pc.handle.key))))))
             || (&& pc.place.CloseSettle? && item in pc.place.items
                 && m == Move(Settle(item), Some(Closing(pc.handle, pc.after, CloseSettle(pc.place.items - {item})))))
    ensures Kept(cfg, s, Settled(Apply(cfg, s, t, m.effect), t, m.next))
  {
    var pc := s.tasks[t];
    if m.effect.Pop? {
      PopMove(cfg, s, t, pc.handle, pc.after);
    } else if m.effect.Settle? {
      SettleMove(cfg, s, t, pc.handle, pc.place.items, pc.after, item);
    } else {
      CalmMove(cfg, s, t, m);
    }
  }

  lemma ClosingStep(cfg: Config, s: State, t: nat, ch: Choice)
    requires Core(cfg, s) && t in s.tasks && s.tasks[t].Closing?
    requires FaultPossible(cfg, s.tasks[t], ch.fault)
    ensures Kept(cfg, s, Stepped(cfg, s, t, ch))
  {
    var pc := s.tasks[t];
    assert PcOk(s, t, pc);
    CloseFacts(cfg, s, t, pc.handle, pc.after, pc.place, ch);
    ClosingMove(cfg, s, t, PlanClose(s, pc.handle, pc.after, pc.place, ch), ch.item);
  }

  lemma RegisteringStep(cfg: Config, s: State, t: nat, ch: Choice)
    requires Core(cfg, s) && t in s.tasks && s.tasks[t].Registering?
    ensures Kept(cfg, s, Stepped(cfg, s, t, ch))
  {
    var pc := s.tasks[t];
    assert PcOk(s, t, pc);
    RegisterFacts(s, t, pc.key, pc.tools, pc.entry, ch);
    var m := PlanRegister(s, pc.key, pc.tools, pc.entry, ch);
    if QuietFacts(s, t, pc, m) { QuietMove(cfg, s, t, m); } else { RegisterMove(cfg, s, t, pc.key, pc.tools); }
  }

  lemma RemainingStep(cfg: Config, s: State, t: nat, ch: Choice)
    requires Core(cfg, s) && t in s.tasks
    requires s.tasks[t].ClosingNext? || s.tasks[t].Revoking? || s.tasks[t].Refreshing? || s.tasks[t].Unwinding?
    ensures Kept(cfg, s, Stepped(cfg, s, t, ch))
  {
    var pc := s.tasks[t];
    assert PcOk(s, t, pc);
    if pc.ClosingNext? { NextFacts(s, t, pc.after); } else { OtherFacts(s, t, pc, ch); }
    QuietMove(cfg, s, t, Plan(s, pc, ch));
  }

  lemma StepKeepsShared(cfg: Config, s: State, t: nat, ch: Choice)
    requires Core(cfg, s) && Enabled(cfg, s, Run(t, ch))
    ensures Kept(cfg, s, Stepped(cfg, s, t, ch))
  {
    var pc := s.tasks[t];
    if pc.Dispatching? { DispatchingStep(cfg, s, t, ch); }
    else if pc.Sending? { SendingStep(cfg, s, t, ch); }
    else if pc.Handling? { HandlingStep(cfg, s, t, ch); }
    else if pc.Receiving? { ReceivingStep(cfg, s, t, ch); }
    else if pc.Timer? { TimerStep(cfg, s, t, ch); }
    else if pc.Closing? { ClosingStep(cfg, s, t, ch); }
    else if pc.Registering? { RegisteringStep(cfg, s, t, ch); }
    else { RemainingStep(cfg, s, t, ch); }
  }

  // ------------------------------------------------------- arrivals from outside

  lemma SpawnKeepsShared(cfg: Config, s: State, pc: Pc)
    requires Core(cfg, s) && IsEntry(pc)
    ensures Kept(cfg, s, s.(tasks := s.tasks[s.nextTid := pc], nextTid := s.nextTid + 1))
  {
    var s' := s.(tasks := s.tasks[s.nextTid := pc], nextTid := s.nextTid + 1);
    forall t | t in s'.tasks ensures PcOk(s', t, s'.tasks[t]) {
      if t != s.nextTid {
        assert PcOk(s, t, s.tasks[t]);
        PcStable(s, s', {}, t, s.tasks[t]);
      }
    }
    if WaitersOk(s) {
      forall p | p in s'.calls ensures WaiterOk(s', p) {
        assert WaiterOk(s, p);
      }
    }
  }

  lemma RowsKeepShared(cfg: Config, s: State, rows: map<nat, Row>)
    requires Core(cfg, s)
    ensures Kept(cfg, s, s.(rows := rows))
  {
    var s' := s.(rows := rows);
    forall t | t in s'.tasks ensures PcOk(s', t, s'.tasks[t]) {
      PcStable(s, s', {}, t, s.tasks[t]);
    }
    if WaitersOk(s) {
      forall p | p in s'.calls ensures WaiterOk(s', p) {
        assert WaiterOk(s, p);
      }
    }
  }

  lemma AbandonKeepsShared(cfg: Config, s: State, pid: nat)
    requires Core(cfg, s) && pid in s.futures && !BeingSent(s, pid)
    ensures Kept(cfg, s, Resolve(s, pid, ByCaller))
  {
    var s' := Resolve(s, pid, ByCaller);
    forall t | t in s'.tasks ensures PcOk(s', t, s'.tasks[t]) {
      PcStable(s, s', {}, t, s.tasks[t]);
    }
    if WaitersOk(s) {
      forall p | p in s'.calls ensures WaiterOk(s', p) {
        assert WaiterOk(s, p);
      }
    }
  }

  lemma RowArrivalKeepsShared(cfg: Config, s: State, a: Action)
    requires Core(cfg, s) && (a.Propose? || (a.Prepare? && a.call in s.rows))
    ensures Kept(cfg, s, Arrive(s, a))
  {
    var rows := Arrive(s, a).rows;
    assert Arrive(s, a) == s.(rows := rows);
    RowsKeepShared(cfg, s, rows);
  }

  lemma SpawnArrivalKeepsShared(cfg: Config, s: State, a: Action)
    requires Core(cfg, s) && a.Spawn? && IsEntry(a.pc)
    ensures Kept(cfg, s, Arrive(s, a))
  {
    SpawnKeepsShared(cfg, s, a.pc);
  }

  lemma StepKeeps(cfg: Config, s: State, a: Action)
    requires Core(cfg, s) && Enabled(cfg, s, a)
    ensures Exclusive(Do(cfg, s, a)) && Kept(cfg, s, Do(cfg, s, a))
  {
    if a.Run? {
      RunKeepsExclusive(cfg, s, a.task, a.choice);
      StepKeepsShared(cfg, s, a.task, a.choice);
    } else {
      ArrivalKeepsExclusive(cfg, s, a);
      if a.Spawn? { SpawnArrivalKeepsShared(cfg, s, a); }
      else if a.Abandon? { AbandonKeepsShared(cfg, s, a.pid); }
      else { RowArrivalKeepsShared(cfg, s, a); }
    }
  }

  /** Whatever happens next in the gateway keeps the tables, the sessions and what the
      tasks rely on, also when a disconnection fails part way. */
  lemma EveryStepKeepsCore(cfg: Config, s: State, a: Action)
    requires Core(cfg, s) && Enabled(cfg, s, a)
    ensures Core(cfg, Do(cfg, s, a))
  {
    StepKeeps(cfg, s, a);
  }

  /** ... and, when none fails, every waiter. */
  lemma EveryStepKeepsInv(cfg: Config, s: State, a: Action)
    requires Inv(cfg, s) && !cfg.closingMayFail && Enabled(cfg, s, a)
    ensures Inv(cfg, Do(cfg, s, a))
  {
    StepKeeps(cfg, s, a);
    Assemble(cfg, Do(cfg, s, a));
  }

  lemma Assemble(cfg: Config, s: State)
    requires Core(cfg, s) && WaitersOk(s)
    ensures Inv(cfg, s)
  {
  }

  lemma {:induction false} RunsKeepCore(cfg: Config, states: seq<State>, actions: seq<Action>, i: nat)
    requires IsRun(cfg, states, actions) && i < |states|
    ensures Core(cfg, states[i])
  {
    if i > 0 {
      RunsKeepCore(cfg, states, actions, i - 1);
      EveryStepKeepsCore(cfg, states[i - 1], actions[i - 1]);
    }
  }

  lemma {:induction false} RunsKeepInv(cfg: Config, states: seq<State>, actions: seq<Action>, i: nat)
    requires IsRun(cfg, states, actions) && !cfg.closingMayFail && i < |states|
    ensures Inv(cfg, states[i])
  {
    if i > 0 {
      RunsKeepInv(cfg, states, actions, i - 1);
      EveryStepKeepsInv(cfg, states[i - 1], actions[i - 1]);
    }
  }

  // ------------------------------------------------------------- main results

  /** In every reachable state each waiter is: in the table and being sent, with
      nobody having resolved it; in the table and watched by a live deadline; or
      out of the table, and resolved or in the hands of a disconnection. */
  lemma NoWaiterIsStranded(cfg: Config, states: seq<State>, actions: seq<Action>, i: nat, pid: nat)
    requires IsRun(cfg, states, actions) && !cfg.closingMayFail && i < |states|
    requires pid in states[i].calls
    ensures var s := states[i];
            && pid in s.futures
            && if IsWaiting(s, CallOf(s, pid), pid)
               then (BeingSent(s, pid) && s.futures[pid] == Open) || TimerLive(s, pid)
               else s.futures[pid] != Open || InClosing(s, pid)
  {
    RunsKeepInv(cfg, states, actions, i);
    assert WaiterOk(states[i], pid);
  }

  /** When no task is left, every waiter ever made has been resolved and the table is empty. */
  lemma QuiescenceResolvesAll(cfg: Config, states: seq<State>, actions: seq<Action>, i: nat)
    requires IsRun(cfg, states, actions) && !cfg.closingMayFail && i < |states|
    requires states[i].tasks == map[]
    ensures states[i].pending == map[]
    ensures forall pid | pid in states[i].futures :: states[i].futures[pid] != Open
  {
    RunsKeepInv(cfg, states, actions, i);
    var s := states[i];
    forall pid | pid in s.calls ensures !IsWaiting(s, CallOf(s, pid), pid) && s.futures[pid] != Open {
      assert WaiterOk(s, pid);
    }
    if c :| c in s.pending {
      assert IsWaiting(s, CallOf(s, s.pending[c]), s.pending[c]);
      assert false;
    }
  }

  /** Each client has at most one live session, and every call in the table targets
      a live one: the connection it was sent to. */
  lemma OneLiveSessionPerClient(cfg: Config, states: seq<State>, actions: seq<Action>, i: nat)
    requires IsRun(cfg, states, actions) && i < |states|
    ensures var s := states[i];
            && (forall k, l | k in s.sessions && l in s.sessions && k.client == l.client :: k == l)
            && (forall c | c in s.pending ::
                  && s.pending[c] in s.calls
                  && CallOf(s, s.pending[c]) == c
                  && LiveSession(s, HandleOf(s, s.pending[c])))
  {
    RunsKeepCore(cfg, states, actions, i);
  }

  /** Two registrations of one session key lie more than the retention apart. */
  lemma SessionKeysAreSpaced(cfg: Config, states: seq<State>, actions: seq<Action>, i: nat, a: nat, b: nat)
    requires IsRun(cfg, states, actions) && i < |states|
    requires a < b < |states[i].registered| && states[i].registered[a] == states[i].registered[b]
    ensures b - a > cfg.seenRetention
  {
    RunsKeepCore(cfg, states, actions, i);
  }

  // -------------------------------------------------- a future is completed once

  ghost predicate FuturesGrow(s: State, s': State) {
    forall p | p in s.futures && s.futures[p] != Open :: p in s'.futures && s'.futures[p] == s.futures[p]
  }

  lemma ApplyFutures(cfg: Config, s: State, t: nat, e: Effect)
    requires WellFormed(s)
    ensures FuturesGrow(s, Apply(cfg, s, t, e))
  {
    match e
    case Rearm(pid) => CancelFrame(s, t, pid);
    case Finish(call, record, how) => FinishFutures(cfg, s, t, call, record, how);
    case Settle(pid) => SettleFutures(cfg, s, t, pid);
    case Expired(pid) => ExpireFutures(cfg, s, pid);
    case _ =>
  }

  lemma ExpireFutures(cfg: Config, s: State, pid: nat)
    ensures FuturesGrow(s, ExpireCall(cfg, s, pid))
  {
  }

  lemma FinishFutures(cfg: Config, s: State, t: nat, call: nat, record: Record, how: Settlement)
    ensures FuturesGrow(s, FinishCall(cfg, s, t, call, record, how))
  {
    var s0 := s.(pending := s.pending - {call},
                 terminal := Remember(s.terminal, call, record, cfg.terminalRetention));
    if call in s.pending {
      CancelFrame(s0, t, s.pending[call]);
      ResolveFrame(CancelTimer(s0, t, s.pending[call]), s.pending[call], how);
    }
  }

  lemma SettleFutures(cfg: Config, s: State, t: nat, pid: nat)
    ensures FuturesGrow(s, SettleCall(cfg, s, t, pid))
  {
    CancelFrame(s, t, pid);
  }

  lemma StepFutures(cfg: Config, s: State, a: Action)
    requires WellFormed(s) && Enabled(cfg, s, a)
    ensures FuturesGrow(s, Do(cfg, s, a))
  {
    if a.Run? {
      ApplyFutures(cfg, s, a.task, Plan(s, s.tasks[a.task], a.choice).effect);
    }
  }

  lemma FuturesGrowAt(cfg: Config, states: seq<State>, actions: seq<Action>, i: nat)
    requires IsRun(cfg, states, actions) && i < |actions|
    ensures FuturesGrow(states[i], states[i + 1])
  {
    RunsKeepCore(cfg, states, actions, i);
    StepFutures(cfg, states[i], actions[i]);
  }

  /** A future, once completed, keeps the outcome it was given for the rest of the run. */
  lemma FutureCompletesOnce(cfg: Config, states: seq<State>, actions: seq<Action>, i: nat, j: nat, pid: nat)
    requires IsRun(cfg, states, actions) && i <= j < |states|
    requires pid in states[i].futures && states[i].futures[pid] != Open
    ensures pid in states[j].futures && states[j].futures[pid] == states[i].futures[pid]
  {
    forall k | 0 <= k < |states| - 1 ensures FuturesGrow(states[k], states[k + 1]) {
      FuturesGrowAt(cfg, states, actions, k);
    }
    FuturesStay(states, i, j, pid);
  }

  lemma {:induction false} FuturesStay(states: seq<State>, i: nat, j: nat, pid: nat)
    requires i <= j < |states| && forall k | 0 <= k < |states| - 1 :: FuturesGrow(states[k], states[k + 1])
    requires pid in states[i].futures && states[i].futures[pid] != Open
    ensures pid in states[j].futures && states[j].futures[pid] == states[i].futures[pid]
    decreases j - i
  {
    if i < j {
      FuturesStay(states, i, j - 1, pid);
      assert FuturesGrow(states[j - 1], states[j - 1 + 1]);
    }
  }

  // ------------------------------------------- when a disconnection itself fails

  /** What a failing disconnection leaves behind: a waiter it had taken out of the
      table, or the waiter whose failed write it was cleaning up after. */
  ghost predicate Strands(s: State, pc: Pc)
    requires pc.Closing?
  {
    match pc.place
    case CloseLock =>
      && pc.after.Finally? && pc.after.sender.Some?
      && pc.after.sender.value in s.calls
      && Waits(s, pc.after.sender.value) && !TimerLive(s, pc.after.sender.value)
    case CloseRows(items) => exists p :: p in items && p in s.futures && s.futures[p] == Open
    case _ => false
  }

  lemma LostWaiters(s: State, s1: State, t: nat)
    requires WellFormed(s) && WaitersOk(s) && t in s.tasks && PcOk(s, t, s.tasks[t])
    requires s.tasks[t].Closing? && (s.tasks[t].place.CloseLock? || s.tasks[t].place.CloseRows?)
    requires SameTables(s, s1) && s1.tasks == s.tasks
    ensures WaitersOk(Settled(s1, t, None)) <==> !Strands(s, s.tasks[t])
  {
    var pc, s' := s.tasks[t], Settled(s1, t, None);
    if Strands(s, pc) {
      var p :| p in s.calls && if pc.place.CloseLock? then pc.after.sender == Some(p) && Waits(s, p) && !TimerLive(s, p)
                               else p in pc.place.items && s.futures[p] == Open;
      assert !WaiterOk(s', p);
    } else {
      forall p | p in s'.calls ensures WaiterOk(s', p) {
        assert WaiterOk(s, p);
      }
    }
  }

  /** A fault in the middle of a disconnection keeps the invariant exactly when no
      unresolved waiter depended on that disconnection. */
  lemma FailingDisconnection(cfg: Config, s: State, t: nat, ch: Choice)
    requires Inv(cfg, s) && Enabled(cfg, s, Run(t, ch)) && ch.fault != Smooth
    requires s.tasks[t].Closing? && (s.tasks[t].place.CloseLock? || s.tasks[t].place.CloseRows?)
    ensures Inv(cfg, Do(cfg, s, Run(t, ch))) <==> !Strands(s, s.tasks[t])
  {
    var pc := s.tasks[t];
    var m := PlanClose(s, pc.handle, pc.after, pc.place, ch);
    assert m.next.None? && IsQuiet(m.effect);
    var s1 := Apply(cfg, s, t, m.effect);
    QuietEffect(cfg, s, t, m.effect);
    QuietTables(cfg, s, s1);
    assert PcOk(s, t, pc);
    LostWaiters(s, s1, t);
    RunKeepsExclusive(cfg, s, t, ch);
    SettledTables(cfg, s1, t, None);
    TasksStep(s, s1, t, None);
  }
}
