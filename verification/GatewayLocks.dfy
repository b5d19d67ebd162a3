/** The gateway's locks: mutual exclusion on every run, one global acquisition
    order, and so no set of tasks can wait for one another. */
module GatewayLocks {
  import opened Options
  import opened ToolRepository
  import opened AgentProtocol
  import opened OrderedTable
  import opened GatewayMachine

  /** Dispatch before result before lifecycle. */
  function Level(l: Lock): nat {
    match l
    case DispatchLock => 0
    case ResultLock => 1
    case LifecycleLock => 2
  }

  /** Whatever a task holds when it asks for a lock comes strictly earlier in the
      order; in particular it never asks for a lock it already holds. */
  lemma AcquisitionOrder(pc: Pc, held: Lock)
    requires Wants(pc).Some? && held in Holds(pc)
    ensures Level(held) < Level(Wants(pc).value)
  {
  }

  /** Within any set of tasks some member waits for no other member: no waiting
      cycle exists, whatever else the tasks have done. */
  lemma {:induction false} NoWaitingCycle(s: State, group: set<nat>, from: nat) returns (free: nat)
    requires group <= s.tasks.Keys && from in group
    ensures free in group
    ensures forall u | u in group && Wants(s.tasks[free]).Some? :: Wants(s.tasks[free]).value !in Holds(s.tasks[u])
    decreases if Wants(s.tasks[from]).Some? then 2 - Level(Wants(s.tasks[from]).value) else 0
  {
    free := from;
    var want := Wants(s.tasks[from]);
    if want.Some? && exists u :: u in group && want.value in Holds(s.tasks[u]) {
      var u :| u in group && want.value in Holds(s.tasks[u]);
      if Wants(s.tasks[u]).Some? {
        AcquisitionOrder(s.tasks[u], want.value);
        free := NoWaitingCycle(s, group, u);
      } else {
        free := u;
      }
    }
  }

  /** While any task is left, some task can take its next step. */
  lemma SomeTaskCanStep(cfg: Config, s: State, world: World)
    requires s.tasks != map[]
    ensures exists t, ch :: Enabled(cfg, s, Run(t, ch)) && ch.world == world
  {
    var from :| from in s.tasks;
    var t := NoWaitingCycle(s, s.tasks.Keys, from);
    assert Enabled(cfg, s, Run(t, Choice(world, Smooth, false, 0)));
  }

  // ---------------------------------------------------------- mutual exclusion

  ghost function HeldBy(s: State): map<nat, set<Lock>> {
    map t | t in s.tasks :: Holds(s.tasks[t])
  }

  ghost predicate Disjoint(held: map<nat, set<Lock>>) {
    forall t, u, l: Lock | t in held && u in held && t != u && l in held[t] :: l !in held[u]
  }

  ghost predicate Exclusive(s: State) {
    Disjoint(HeldBy(s))
  }

  /** No task has an identity that has not been given out yet. */
  ghost predicate FreshTasks(s: State) {
    forall t | t in s.tasks :: t < s.nextTid
  }

  /** A step only adds the lock it was waiting for. */
  ghost predicate AddsOnlyWanted(pc: Pc, smooth: bool, next: Option<Pc>) {
    next.Some? ==>
      Holds(next.value) <= Holds(pc) + (if smooth && Wants(pc).Some? then {Wants(pc).value} else {})
  }

  lemma DispatchHolds(s: State, req: Request, at: DispatchAt, ch: Choice)
    ensures AddsOnlyWanted(Dispatching(req, at), ch.fault == Smooth, PlanDispatch(s, req, at, ch).next)
  {
  }

  lemma EventHolds(s: State, h: Handle, ev: Event, at: EventAt, ch: Choice)
    ensures AddsOnlyWanted(Handling(h, ev, at), ch.fault == Smooth, PlanEvent(s, h, ev, at, ch).next)
  {
  }

  lemma ResultHolds(s: State, h: Handle, res: Result, at: ResultAt, ch: Choice)
    ensures AddsOnlyWanted(Receiving(h, res, at), ch.fault == Smooth, PlanResult(s, h, res, at, ch).next)
  {
  }

  lemma TimerHolds(s: State, pid: nat, at: TimerAt, ch: Choice)
    requires at.AwaitDispatch? || at.AwaitResult? ==> ch.fault == Smooth
    ensures AddsOnlyWanted(Timer(pid, at), ch.fault == Smooth, PlanTimer(s, pid, at, ch).next)
  {
  }

  lemma CloseHolds(s: State, h: Handle, after: After, at: CloseAt, ch: Choice)
    ensures AddsOnlyWanted(Closing(h, after, at), ch.fault == Smooth, PlanClose(s, h, after, at, ch).next)
  {
  }

  lemma PlanHolds(cfg: Config, s: State, t: nat, ch: Choice)
    requires Enabled(cfg, s, Run(t, ch))
    ensures AddsOnlyWanted(s.tasks[t], ch.fault == Smooth, Plan(s, s.tasks[t], ch).next)
  {
    match s.tasks[t]
    case Dispatching(req, at) => DispatchHolds(s, req, at, ch);
    case Handling(h, ev, at) => EventHolds(s, h, ev, at, ch);
    case Receiving(h, res, at) => ResultHolds(s, h, res, at, ch);
    case Timer(pid, at) => TimerHolds(s, pid, at, ch);
    case Closing(h, after, at) => CloseHolds(s, h, after, at, ch);
    case _ =>
  }

  /** What an effect may do to the tasks: leave them alone, cancel a deadline task
      (which keeps its locks), or start one. */
  ghost predicate TasksEvolve(s: State, s': State, t: nat) {
    && FreshTasks(s') && s.nextTid <= s'.nextTid
    && (forall u | u in s.tasks :: u in s'.tasks && Holds(s'.tasks[u]) == Holds(s.tasks[u]))
    && (forall u | u in s'.tasks && u !in s.tasks :: Holds(s'.tasks[u]) == {})
    && (t in s.tasks ==> s'.tasks[t] == s.tasks[t])
  }

  lemma CancelEvolves(s: State, t: nat, pid: nat)
    requires FreshTasks(s)
    ensures TasksEvolve(s, CancelTimer(s, t, pid), t)
    ensures CancelTimer(s, t, pid).tasks.Keys == s.tasks.Keys
  {
  }

  lemma StartEvolves(s: State, t: nat, pid: nat)
    requires FreshTasks(s) && pid in s.calls
    ensures TasksEvolve(s, StartTimer(s, pid), t)
  {
  }

  lemma RearmEvolves(s: State, t: nat, pid: nat)
    requires FreshTasks(s)
    ensures TasksEvolve(s, RearmTimer(s, t, pid), t)
  {
    if pid in s.calls {
      CancelEvolves(s, t, pid);
      var s1 := CancelTimer(s, t, pid);
      StartEvolves(s1.(calls := s1.calls[pid := s1.calls[pid].(awaiting := false)]), t, pid);
    }
  }

  lemma FinishEvolves(cfg: Config, s: State, t: nat, call: nat, record: Record, how: Settlement)
    requires FreshTasks(s)
    ensures TasksEvolve(s, FinishCall(cfg, s, t, call, record, how), t)
  {
    if call in s.pending {
      CancelEvolves(s.(pending := s.pending - {call},
                       terminal := Remember(s.terminal, call, record, cfg.terminalRetention)), t, s.pending[call]);
    }
  }

  lemma SettleEvolves(cfg: Config, s: State, t: nat, pid: nat)
    requires FreshTasks(s)
    ensures TasksEvolve(s, SettleCall(cfg, s, t, pid), t)
  {
    CancelEvolves(s, t, pid);
  }

  lemma ApplyEvolves(cfg: Config, s: State, t: nat, e: Effect)
    requires FreshTasks(s) && t in s.tasks
    ensures TasksEvolve(s, Apply(cfg, s, t, e), t)
  {
    match e
    case Arm(pid) => if pid in s.calls { StartEvolves(s, t, pid); }
    case Rearm(pid) => RearmEvolves(s, t, pid);
    case Finish(call, record, how) => FinishEvolves(cfg, s, t, call, record, how);
    case Settle(pid) => SettleEvolves(cfg, s, t, pid);
    case _ =>
  }

  /** One task takes at most one lock, and only a free one. */
  lemma AcquireKeepsDisjoint(held: map<nat, set<Lock>>, held': map<nat, set<Lock>>, t: nat, taken: set<Lock>)
    requires Disjoint(held) && t in held
    requires forall l, u | l in taken && u in held :: l !in held[u]
    requires forall u | u in held' && u != t :: held'[u] == if u in held then held[u] else {}
    requires t in held' ==> held'[t] <= held[t] + taken
    ensures Disjoint(held')
  {
  }

  lemma MoveKeepsExclusive(s: State, s1: State, t: nat, smooth: bool, next: Option<Pc>)
    requires Exclusive(s) && FreshTasks(s) && t in s.tasks
    requires TasksEvolve(s, s1, t)
    requires AddsOnlyWanted(s.tasks[t], smooth, next)
    requires smooth ==> !Blocked(s, t)
    ensures Exclusive(Settled(s1, t, next)) && FreshTasks(Settled(s1, t, next))
  {
    var taken := if smooth && Wants(s.tasks[t]).Some? then {Wants(s.tasks[t]).value} else {};
    var s2 := Settled(s1, t, next);
    AcquireKeepsDisjoint(HeldBy(s), HeldBy(s2), t, taken);
  }

  lemma RunKeepsExclusive(cfg: Config, s: State, t: nat, ch: Choice)
    requires Exclusive(s) && FreshTasks(s) && Enabled(cfg, s, Run(t, ch))
    ensures Exclusive(Stepped(cfg, s, t, ch)) && FreshTasks(Stepped(cfg, s, t, ch))
  {
    var move := Plan(s, s.tasks[t], ch);
    PlanHolds(cfg, s, t, ch);
    ApplyEvolves(cfg, s, t, move.effect);
    MoveKeepsExclusive(s, Apply(cfg, s, t, move.effect), t, ch.fault == Smooth, move.next);
  }

  lemma ArrivalKeepsExclusive(cfg: Config, s: State, a: Action)
    requires Exclusive(s) && FreshTasks(s) && Enabled(cfg, s, a) && !a.Run?
    ensures Exclusive(Arrive(s, a)) && FreshTasks(Arrive(s, a))
  {
    var held, held' := HeldBy(s), HeldBy(Arrive(s, a));
    if a.Spawn? {
      assert Holds(a.pc) == {};
      assert forall u | u in held' :: held'[u] == if u in held then held[u] else {};
    } else {
      assert held' == held;
    }
  }

  /** In every run, at every moment, each lock has at most one holder. */
  lemma {:induction false} MutualExclusion(cfg: Config, states: seq<State>, actions: seq<Action>, i: nat)
    requires IsRun(cfg, states, actions) && i < |states|
    ensures Exclusive(states[i]) && FreshTasks(states[i])
  {
    if i > 0 {
      MutualExclusion(cfg, states, actions, i - 1);
      if actions[i - 1].Run? {
        RunKeepsExclusive(cfg, states[i - 1], actions[i - 1].task, actions[i - 1].choice);
      } else {
        ArrivalKeepsExclusive(cfg, states[i - 1], actions[i - 1]);
      }
    }
  }
}
