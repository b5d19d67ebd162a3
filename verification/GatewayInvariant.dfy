/** What every reachable state of the gateway satisfies: who may still resolve each
    waiter, which sessions are live, and what each suspended task relies on. */
module GatewayInvariant {
  import opened ToolLifecycle
  import opened Options
  import opened ToolRepository
  import opened AgentProtocol
  import opened OrderedTable
  import opened GatewayMachine
  import opened GatewayLocks

  // ---------------------------------------------------------------- statements

  /** Identities are given out once, and the tables refer to existing objects. */
  ghost predicate WellFormed(s: State) {
    && FreshTasks(s)
    && s.calls.Keys == s.futures.Keys
    && (forall c | c in s.pending :: s.pending[c] in s.calls && CallOf(s, s.pending[c]) == c)
    && (forall p | p in s.calls :: p < s.nextPid && CallFresh(s.calls[p], s.nextTid, s.nextConn))
    && (forall k | k in s.sessions :: s.sessions[k].conn < s.nextConn)
  }

  predicate CallFresh(call: Call, nextTid: nat, nextConn: nat) {
    && call.sender < nextTid && call.conn < nextConn
    && (call.timer.Some? ==> call.timer.value < nextTid)
    && (call.closer.Some? ==> call.closer.value < nextTid)
  }

  function ItemsOf(pc: Pc): set<nat> {
    if pc.Closing? && (pc.place.CloseRows? || pc.place.CloseSettle?) then pc.place.items else {}
  }

  /** A disconnection has taken the waiter out of the table and will resolve it. */
  predicate InClosing(s: State, pid: nat) {
    && pid in s.calls
    && s.calls[pid].closer.Some?
    && s.calls[pid].closer.value in s.tasks
    && pid in ItemsOf(s.tasks[s.calls[pid].closer.value])
  }

  /** The waiter property: in the table, it is being sent (and nobody resolved it)
      or a deadline watches it; out of the table, it is resolved or about to be. */
  ghost predicate WaiterOk(s: State, pid: nat) {
    && pid in s.calls
    && pid in s.futures
    && if IsWaiting(s, CallOf(s, pid), pid) then
      && (BeingSent(s, pid) || TimerLive(s, pid))
      && (BeingSent(s, pid) ==> s.futures[pid] == Open)
    else
      s.futures[pid] != Open || InClosing(s, pid)
  }

  ghost predicate WaitersOk(s: State) {
    forall p | p in s.calls :: WaiterOk(s, p)
  }

  /** Every waiter in the table targets the live session it was sent to, and a
      client never has two live sessions. */
  ghost predicate SessionsOk(s: State) {
    && (forall c | c in s.pending && s.pending[c] in s.calls :: LiveSession(s, HandleOf(s, s.pending[c])))
    && (forall k, l | k in s.sessions && l in s.sessions && k.client == l.client :: k == l)
  }

  function HandleOf(s: State, pid: nat): Handle
    requires pid in s.calls
  {
    Handle(s.calls[pid].request.key, s.calls[pid].conn)
  }

  /** Registered keys that are still remembered are exactly the newest ones, and no
      key comes back within the retention. */
  ghost predicate HistoryOk(cfg: Config, s: State) {
    && s.seen == Newest(s.registered, cfg.seenRetention)
    && Spaced(s.registered, cfg.seenRetention)
  }

  ghost predicate Spaced(keys: seq<Key>, gap: nat) {
    forall i, j | 0 <= i < j < |keys| && keys[i] == keys[j] :: j - i > gap
  }

  /** What a registration under way knows: the key is new, and the only live
      sessions of its client are the ones it has yet to close. */
  ghost predicate RegistrationOk(s: State, after: After, extra: set<Handle>) {
    after.Then? && after.register.Some? ==>
      && after.register.value.0 !in s.seen
      && HandlesOf(s, after.register.value.0.client) <= after.rest + extra
  }

  ghost predicate SenderOk(s: State, t: nat, h: Handle, after: After) {
    after.Finally? && after.sender.Some? ==>
      after.sender.value in s.calls && s.calls[after.sender.value].sender == t && HandleOf(s, after.sender.value) == h
  }

  ghost predicate ItemsOk(s: State, t: nat, items: set<nat>) {
    forall p | p in items ::
      p in s.calls && s.calls[p].closer == Some(t) && !IsWaiting(s, CallOf(s, p), p)
  }

  /** No other waiter object stands in the table under this waiter's call. */
  ghost predicate NoRival(s: State, pid: nat) {
    pid in s.calls && (CallOf(s, pid) in s.pending ==> s.pending[CallOf(s, pid)] == pid)
  }

  /** What a task relies on at the await where it is suspended. */
  ghost predicate PcOk(s: State, t: nat, pc: Pc) {
    match pc
    case Dispatching(req, at) =>
      && (at.QueueIt? || at.InsertIt? ==> req.call !in s.pending)
      && (!at.AwaitLock? && !at.Route? ==> at.conn < s.nextConn)
    case Sending(p, _) => p in s.calls && s.calls[p].sender == t
    case Timer(p, at) =>
      p in s.calls && (at.TimerRead? || at.TimerRun? || at.TimerFailed? ==> NoRival(s, p))
    case Closing(h, after, at) =>
      && (at.CloseLock? || at.PopIt? ==> SenderOk(s, t, h, after))
      && ItemsOk(s, t, ItemsOf(pc))
      && (at.CloseLock? ==> after.Finally?)
      && (at.CloseRows? ==> h.key !in s.sessions)
      && (!at.CloseLock? ==> RegistrationOk(s, after, if at.PopIt? then {h} else {}))
    case ClosingNext(after) => RegistrationOk(s, after, {})
    case Registering(key, _, at) =>
      at.RegisterStore? || at.RegisterApply? ==> key !in s.seen && HandlesOf(s, key.client) == {}
    case _ => true
  }

  ghost predicate TasksOk(s: State) {
    forall t | t in s.tasks :: PcOk(s, t, s.tasks[t])
  }

  ghost predicate Inv(cfg: Config, s: State) {
    && Exclusive(s)
    && WellFormed(s)
    && TasksOk(s)
    && SessionsOk(s)
    && HistoryOk(cfg, s)
    && WaitersOk(s)
  }

  // ------------------------------------------- interference between the tasks

  /** How far the shared tables may move under a task that holds none of `locks`. */
  ghost predicate Gentle(s: State, s': State, locks: set<Lock>) {
    && s.nextConn <= s'.nextConn
    && s.calls.Keys <= s'.calls.Keys
    && (forall p | p in s.calls ::
          && s'.calls[p].request == s.calls[p].request
          && s'.calls[p].conn == s.calls[p].conn
          && s'.calls[p].sender == s.calls[p].sender
          && (LifecycleLock !in locks ==> s'.calls[p].closer == s.calls[p].closer))
    && (DispatchLock !in locks ==> forall c | c in s'.pending :: c in s.pending && s'.pending[c] == s.pending[c])
    && (DispatchLock in locks ==>
          forall c | c in s'.pending && s'.pending[c] in s.calls :: c in s.pending && s'.pending[c] == s.pending[c])
    && (LifecycleLock !in locks ==>
          && s'.seen == s.seen
          && forall k | k in s'.sessions :: k in s.sessions && s'.sessions[k].conn == s.sessions[k].conn)
  }

  lemma HandlesShrink(s: State, s': State, client: nat)
    requires forall k | k in s'.sessions :: k in s.sessions && s'.sessions[k].conn == s.sessions[k].conn
    ensures HandlesOf(s', client) <= HandlesOf(s, client)
  {
  }

  /** What a suspended task relies on survives whatever the others do, as long as
      they hold none of its locks. */
  lemma PcStable(s: State, s': State, locks: set<Lock>, t: nat, pc: Pc)
    requires Gentle(s, s', locks) && locks !! Holds(pc)
    requires PcOk(s, t, pc)
    ensures PcOk(s', t, pc)
  {
    if LifecycleLock in Holds(pc) {
      HandlesShrinkAll(s, s');
    }
  }

  lemma HandlesShrinkAll(s: State, s': State)
    requires forall k | k in s'.sessions :: k in s.sessions && s'.sessions[k].conn == s.sessions[k].conn
    ensures forall client: nat :: HandlesOf(s', client) <= HandlesOf(s, client)
  {
    forall client: nat ensures HandlesOf(s', client) <= HandlesOf(s, client) {
      HandlesShrink(s, s', client);
    }
  }
}
