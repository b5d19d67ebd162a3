/** Runs of the gateway in which one task takes all the steps and nothing fails: what
    a coroutine does that nobody disturbs. A task that has to wait stands still. */
module GatewayAlone {
  import opened ToolLifecycle
  import opened Options
  import opened ToolRepository
  import opened GatewayMachine

  function Undisturbed(free: bool): Choice {
    Choice(World(true, free), Smooth, false, 0)
  }

  /** A disconnection settles its waiters in any order. */
  ghost function NextItem(pc: Pc): nat {
    if pc.Closing? && pc.place.CloseSettle? && pc.place.items != {} then
      var item :| item in pc.place.items;
      item
    else 0
  }

  ghost function Smoothly(pc: Pc, free: bool): Choice {
    Undisturbed(free).(item := NextItem(pc))
  }

  /** The next step of one task, unless it waits for a lock. */
  ghost function Turn(cfg: Config, t: nat, free: bool): State -> State {
    (s: State) =>
      if t in s.tasks && Enabled(cfg, s, Run(t, Smoothly(s.tasks[t], free)))
      then Do(cfg, s, Run(t, Smoothly(s.tasks[t], free))) else s
  }

  lemma TurnSteps(cfg: Config, t: nat, free: bool, s: State, m: Move)
    requires t in s.tasks && !Blocked(s, t)
    requires Plan(s, s.tasks[t], Smoothly(s.tasks[t], free)) == m
    ensures Turn(cfg, t, free)(s) == Settled(Apply(cfg, s, t, m.effect), t, m.next)
  {
  }

  ghost function Iterate(step: State -> State, s: State, n: nat): State
    decreases n
  {
    if n == 0 then s else Iterate(step, step(s), n - 1)
  }

  lemma {:induction false} IterateAdds(step: State -> State, s: State, m: nat, n: nat)
    ensures Iterate(step, s, m + n) == Iterate(step, Iterate(step, s, m), n)
    decreases m
  {
    if m > 0 {
      IterateAdds(step, step(s), m - 1, n);
    }
  }

  ghost predicate ComesTo(step: State -> State, s: State, s': State) {
    exists n: nat :: Iterate(step, s, n) == s'
  }

  lemma ComesAlong(step: State -> State, s: State, s1: State, s2: State)
    requires ComesTo(step, s, s1) && ComesTo(step, s1, s2)
    ensures ComesTo(step, s, s2)
  {
    var m: nat :| Iterate(step, s, m) == s1;
    var n: nat :| Iterate(step, s1, n) == s2;
    IterateAdds(step, s, m, n);
  }

  lemma StepsOn(step: State -> State, s: State)
    ensures ComesTo(step, s, step(s)) && ComesTo(step, s, s)
  {
    assert Iterate(step, step(s), 0) == step(s);
    assert Iterate(step, s, 1) == step(s);
    assert Iterate(step, s, 0) == s;
  }

  /** A task that has ended stays ended, so there is only one end to come to. */
  lemma EndIsUnique(cfg: Config, t: nat, free: bool, s: State, s1: State, s2: State)
    requires ComesTo(Turn(cfg, t, free), s, s1) && t !in s1.tasks
    requires ComesTo(Turn(cfg, t, free), s, s2) && t !in s2.tasks
    ensures s1 == s2
  {
    var step := Turn(cfg, t, free);
    var m: nat :| Iterate(step, s, m) == s1;
    var n: nat :| Iterate(step, s, n) == s2;
    if m <= n {
      IterateAdds(step, s, m, n - m);
      StandsStill(step, s1, n - m);
    } else {
      IterateAdds(step, s, n, m - n);
      StandsStill(step, s2, m - n);
    }
  }

  lemma {:induction false} StandsStill(step: State -> State, s: State, n: nat)
    requires step(s) == s
    ensures Iterate(step, s, n) == s
  {
    if n > 0 {
      StandsStill(step, s, n - 1);
    }
  }

  /** The task at another await. */
  function At(s: State, t: nat, pc: Pc): State {
    s.(tasks := s.tasks[t := pc])
  }

  /** No other task holds the lock. */
  ghost predicate Alone(s: State, t: nat, l: Lock) {
    forall u | u in s.tasks && u != t :: l !in Holds(s.tasks[u])
  }

  /** One more step, which only moves the task on. */
  lemma Moves(cfg: Config, start: State, s: State, t: nat, free: bool, pc: Pc, next: Pc)
    requires t in s.tasks && (Wants(pc).Some? ==> Alone(s, t, Wants(pc).value) && Wants(pc).value !in Holds(pc))
    requires Plan(At(s, t, pc), pc, Smoothly(pc, free)) == Goto(next)
    requires ComesTo(Turn(cfg, t, free), start, At(s, t, pc))
    ensures ComesTo(Turn(cfg, t, free), start, At(s, t, next))
  {
    var s1, step := At(s, t, pc), Turn(cfg, t, free);
    TurnSteps(cfg, t, free, s1, Goto(next));
    assert s.tasks[t := pc][t := next] == s.tasks[t := next];
    StepsOn(step, s1);
    ComesAlong(step, start, s1, At(s, t, next));
  }

  /** One more step, with an effect on the shared tables, which may end the task. */
  lemma Acts(cfg: Config, start: State, s: State, t: nat, free: bool, pc: Pc, m: Move, s': State)
    requires t in s.tasks && s.tasks[t] == pc && Wants(pc).None?
    requires Plan(s, pc, Smoothly(pc, free)) == m
    requires s' == Settled(Apply(cfg, s, t, m.effect), t, m.next)
    requires ComesTo(Turn(cfg, t, free), start, s)
    ensures ComesTo(Turn(cfg, t, free), start, s')
  {
    TurnSteps(cfg, t, free, s, m);
    StepsOn(Turn(cfg, t, free), s);
    ComesAlong(Turn(cfg, t, free), start, s, s');
  }

  /** One more step, which is a durable operation that succeeds. */
  lemma Transacts(cfg: Config, start: State, s: State, t: nat, free: bool, pc: Pc, call: nat, op: Operation,
                  row: Row, next: Pc, failed: Option<Pc>)
    requires t in s.tasks && Wants(pc).None? && call in s.rows && |s.rows[call].log| > 0
    requires Plan(At(s, t, pc), pc, Smoothly(pc, free))
             == Transact(Smoothly(pc, free), RunOperation(At(s, t, pc), call, op, World(true, free)), next, failed)
    requires Perform(s.rows[call], op, World(true, free)) == (row, Changed)
    requires ComesTo(Turn(cfg, t, free), start, At(s, t, pc))
    ensures ComesTo(Turn(cfg, t, free), start, At(s.(rows := s.rows[call := row]), t, next))
  {
    var s1, s2 := At(s, t, pc), At(s.(rows := s.rows[call := row]), t, next);
    assert RunOperation(s1, call, op, World(true, free)) == (WriteRow(call, row), Changed);
    assert s.tasks[t := pc][t := next] == s.tasks[t := next];
    Acts(cfg, start, s1, t, free, pc, Move(WriteRow(call, row), Some(next)), s2);
  }
}
