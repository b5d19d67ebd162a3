/** The Link's connection manager: attempts that may be overtaken by a newer
    generation or a shutdown at every await, and the retry backoff. */
module ConnectionManager {
  import opened Options

  // ---------------------------------------------------------------- data model

  datatype Profile = Profile(id: nat, enabled: bool, priority: int)

  datatype Phase =
    | Disconnected | Connecting | Authenticating | Connected | Failing | ReconnectWait | WaitingRetry
    | ManualOffline | Disconnecting

  /** A _connect_once: not yet begun, or probing the first of `todo`; `failed` are the
      profiles whose probes failed, in order. */
  datatype Attempt = Attempt(generation: nat, begun: bool, todo: seq<Profile>, failed: seq<Profile>, mismatch: bool, retryable: bool)

  /** What awaiting a finished attempt gives: a profile, none, or its exception. */
  datatype Result = Found | Nothing | Raised

  /** A round of a retry loop; `delay` is the backoff it read when the round began. */
  datatype Stage = Ready | Waiting(delay: nat) | Joined(delay: nat, attempt: nat) | Finishing

  /** The loop of schedule_reconnect, which is guarded by its generation, or the
      generator of reconnect_delays, which is not. */
  datatype Loop = Loop(generation: nat, guarded: bool, stage: Stage)

  datatype State = State(
    profiles: seq<Profile>,
    active: Option<Profile>,
    phase: Phase,
    auto: bool,
    backoff: nat,
    generation: nat,
    shutdown: bool,
    attempts: map<nat, Attempt>,           // under way
    results: map<nat, Result>,             // finished
    loops: map<nat, Loop>,                 // under way
    connectionTask: Option<nat>,
    reconnectTask: Option<nat>,
    next: nat                              // the next task's identity
  )

  datatype Probe = Answered | WrongServer | Unreachable

  function Initial(profiles: seq<Profile>): State {
    State(profiles, None, Disconnected, true, 1, 0, false, map[], map[], map[], None, None, 0)
  }

  // ------------------------------------------------------- the order of profiles

  function Insert(p: Profile, sorted: seq<Profile>): seq<Profile> {
    if sorted == [] || p.priority <= sorted[0].priority then [p] + sorted
    else [sorted[0]] + Insert(p, sorted[1..])
  }

  /** The enabled profiles by priority; equal priorities keep their order. */
  function Candidates(profiles: seq<Profile>): seq<Profile> {
    if profiles == [] then []
    else if profiles[0].enabled then Insert(profiles[0], Candidates(profiles[1..]))
    else Candidates(profiles[1..])
  }

  ghost predicate Ordered(s: seq<Profile>) {
    forall i, j | 0 <= i < j < |s| :: s[i].priority <= s[j].priority
  }

  lemma {:induction false} InsertContents(p: Profile, sorted: seq<Profile>)
    ensures multiset(Insert(p, sorted)) == multiset(sorted) + multiset{p}
  {
    if sorted != [] && p.priority > sorted[0].priority {
      InsertContents(p, sorted[1..]);
      assert sorted == [sorted[0]] + sorted[1..];
    }
  }

  lemma {:induction false} InsertKeepsOrder(p: Profile, sorted: seq<Profile>)
    requires Ordered(sorted)
    ensures Ordered(Insert(p, sorted))
  {
    if sorted != [] && p.priority > sorted[0].priority {
      var rest := sorted[1..];
      var r := Insert(p, rest);
      InsertKeepsOrder(p, rest);
      InsertContents(p, rest);
      forall j | 0 <= j < |r| ensures sorted[0].priority <= r[j].priority {
        assert r[j] in multiset(r);
        if r[j] != p {
          assert r[j] in multiset(rest);
          var k :| 0 <= k < |rest| && rest[k] == r[j];
          assert rest[k] == sorted[k + 1];
        }
      }
    }
  }

  function Enabled(profiles: seq<Profile>): multiset<Profile> {
    if profiles == [] then multiset{}
    else (if profiles[0].enabled then multiset{profiles[0]} else multiset{}) + Enabled(profiles[1..])
  }

  /** Exactly the enabled profiles, in order of priority. */
  lemma {:induction false} CandidatesAreSorted(profiles: seq<Profile>)
    ensures Ordered(Candidates(profiles)) && multiset(Candidates(profiles)) == Enabled(profiles)
  {
    if profiles != [] {
      CandidatesAreSorted(profiles[1..]);
      if profiles[0].enabled {
        InsertKeepsOrder(profiles[0], Candidates(profiles[1..]));
        InsertContents(profiles[0], Candidates(profiles[1..]));
      }
    }
  }

  /** The sort is stable. */
  lemma {:induction false} InsertIsStable(p: Profile, sorted: seq<Profile>, priority: int)
    ensures AtPriority(Insert(p, sorted), priority)
            == if p.priority == priority then [p] + AtPriority(sorted, priority) else AtPriority(sorted, priority)
  {
    if sorted != [] && p.priority > sorted[0].priority {
      InsertIsStable(p, sorted[1..], priority);
      AtPriorityOfCons(sorted[0], Insert(p, sorted[1..]), priority);
      AtPriorityOfCons(sorted[0], sorted[1..], priority);
      assert sorted == [sorted[0]] + sorted[1..];
    } else {
      AtPriorityOfCons(p, sorted, priority);
    }
  }

  lemma AtPriorityOfCons(x: Profile, rest: seq<Profile>, priority: int)
    ensures AtPriority([x] + rest, priority)
            == if x.priority == priority then [x] + AtPriority(rest, priority) else AtPriority(rest, priority)
  {
    assert ([x] + rest)[1..] == rest;
  }

  function AtPriority(s: seq<Profile>, priority: int): seq<Profile> {
    if s == [] then []
    else if s[0].priority == priority then [s[0]] + AtPriority(s[1..], priority)
    else AtPriority(s[1..], priority)
  }

  function OnlyEnabled(profiles: seq<Profile>): seq<Profile> {
    if profiles == [] then []
    else if profiles[0].enabled then [profiles[0]] + OnlyEnabled(profiles[1..])
    else OnlyEnabled(profiles[1..])
  }

  lemma {:induction false} CandidatesAreStable(profiles: seq<Profile>, priority: int)
    ensures AtPriority(Candidates(profiles), priority) == AtPriority(OnlyEnabled(profiles), priority)
  {
    if profiles != [] {
      CandidatesAreStable(profiles[1..], priority);
      if profiles[0].enabled {
        InsertIsStable(profiles[0], Candidates(profiles[1..]), priority);
        AtPriorityOfCons(profiles[0], OnlyEnabled(profiles[1..]), priority);
      }
    }
  }

  // ---------------------------------------------------------------------- steps

  datatype Action =
    | SetProfiles(profiles: seq<Profile>)
    | Disconnect(manual: bool)
    | MarkConnected
    | Shutdown                                   // its first section
    | Reap                                       // ... and its last
    | CheckLost                                  // check_active gives the connection up
    | SetPhase(phase: Phase)                     // the application shows another phase
    | Connect                                    // connect(), up to its await
    | BeginAttempt(id: nat)
    | EndProbe(id: nat, result: Probe)
    | DropAttempt(id: nat)                       // cancelled, or another exception
    | StartLoop                                  // schedule_reconnect makes a new task
    | StartGenerator                             // somebody iterates reconnect_delays
    | BeginRound(id: nat)
    | Wake(id: nat)                              // the delay is over
    | EndRound(id: nat)                          // the attempt has returned
    | DropLoop(id: nat)                          // cancelled, raised, or on_connected is done

  /** Does the attempt or the loop still speak for the manager? */
  predicate IsCurrent(s: State, generation: nat) {
    generation == s.generation && !s.shutdown
  }

  predicate ConnectRefused(s: State) {
    s.shutdown || s.phase in {ManualOffline, Disconnecting}
  }

  predicate ScheduleRefused(s: State) {
    s.shutdown || s.phase in {ManualOffline, Disconnecting} || !s.auto
  }

  predicate AttemptRuns(s: State) {
    s.connectionTask.Some? && s.connectionTask.value in s.attempts
  }

  predicate LoopRuns(s: State) {
    s.reconnectTask.Some? && s.reconnectTask.value in s.loops
  }

  predicate CanStep(s: State, a: Action) {
    match a
    case MarkConnected => s.shutdown || s.active.Some?
    case Reap => s.shutdown
    case BeginAttempt(id) => id in s.attempts && !s.attempts[id].begun
    case EndProbe(id, _) => id in s.attempts && s.attempts[id].begun && s.attempts[id].todo != []
    case DropAttempt(id) => id in s.attempts
    case StartLoop => !ScheduleRefused(s) && !LoopRuns(s)
    case BeginRound(id) => id in s.loops && s.loops[id].stage.Ready?
    case Wake(id) => id in s.loops && s.loops[id].stage.Waiting?
    case EndRound(id) =>
      && id in s.loops && s.loops[id].stage.Joined?
      && s.loops[id].stage.attempt in s.results && s.results[s.loops[id].stage.attempt] != Raised
    case DropLoop(id) => id in s.loops
    case _ => true
  }

  function Ended(s: State, id: nat, result: Result): State {
    s.(attempts := s.attempts - {id}, results := s.results[id := result])
  }

  /** The end of the profile list: failed, for good if no server was unreachable. */
  function GiveUp(s: State, id: nat, a: Attempt): State {
    Ended(s, id, Nothing).(phase := Failing, auto := s.auto && !(a.mismatch && !a.retryable))
  }

  /** connect(): nothing, the attempt under way, or a new one. */
  function Join(s: State): (r: (State, Option<nat>))
    ensures r.1.None? <==> ConnectRefused(s)
  {
    if ConnectRefused(s) then (s, None)
    else if AttemptRuns(s) then (s, s.connectionTask)
    else (s.(attempts := s.attempts[s.next := Attempt(s.generation, false, [], [], false, false)],
             connectionTask := Some(s.next), next := s.next + 1), Some(s.next))
  }

  /** _connect_once up to its first probe. */
  function Begin(s: State, id: nat): State
    requires id in s.attempts
  {
    var a := s.attempts[id];
    if !IsCurrent(s, a.generation) then Ended(s, id, Nothing)
    else
      var s1 := s.(phase := Connecting, active := None);
      var todo := Candidates(s.profiles);
      if todo == [] then GiveUp(s1, id, a)
      else s1.(attempts := s.attempts[id := Attempt(a.generation, true, todo, [], false, false)])
  }

  /** ... and after each probe. */
  function AfterProbe(s: State, id: nat, result: Probe): State
    requires id in s.attempts && s.attempts[id].todo != []
  {
    var a := s.attempts[id];
    if !IsCurrent(s, a.generation) then Ended(s, id, Nothing)
    else if result == Answered then Ended(s, id, Found).(active := Some(a.todo[0]), phase := Authenticating)
    else
      var a' := Attempt(a.generation, true, a.todo[1..], a.failed + [a.todo[0]],
                        a.mismatch || result == WrongServer, a.retryable || result == Unreachable);
      if a'.todo == [] then GiveUp(s, id, a') else s.(attempts := s.attempts[id := a'])
  }

  function Escalated(delay: nat): nat { if delay * 2 < 30 then delay * 2 else 30 }

  function WithLoop(s: State, id: nat, loop: Loop): State {
    s.(loops := s.loops[id := loop])
  }

  function WithoutLoop(s: State, id: nat): State {
    s.(loops := s.loops - {id})
  }

  function NewLoop(s: State, guarded: bool): State {
    WithLoop(s, s.next, Loop(s.generation, guarded, Ready)).(next := s.next + 1)
  }

  /** The condition of either loop, and what it does before it waits. */
  function Round(s: State, id: nat): State
    requires id in s.loops
  {
    var loop := s.loops[id];
    if s.active.Some? || !s.auto || (if loop.guarded then !IsCurrent(s, loop.generation) else s.phase == ManualOffline) then
      WithoutLoop(s, id)
    else
      WithLoop(s, id, loop.(stage := Waiting(s.backoff))).(phase := if loop.guarded then WaitingRetry else ReconnectWait)
  }

  /** The delay is over: a refused connect() counts as a round without a profile. */
  function Woken(s: State, id: nat): State
    requires id in s.loops && s.loops[id].stage.Waiting?
  {
    var loop := s.loops[id];
    var (s1, attempt) := Join(s);
    if loop.guarded && !IsCurrent(s, loop.generation) then WithoutLoop(s, id)
    else if attempt.None? then WithLoop(s, id, loop.(stage := Ready)).(backoff := Escalated(loop.stage.delay))
    else WithLoop(s1, id, loop.(stage := Joined(loop.stage.delay, attempt.value)))
  }

  /** The attempt returned; neither loop looks at its generation again before it
      writes the backoff. */
  function RoundEnded(s: State, id: nat): State
    requires CanStep(s, EndRound(id))
  {
    var loop := s.loops[id];
    var s1 := s.(backoff := Escalated(loop.stage.delay));
    if s.results[loop.stage.attempt] == Nothing then WithLoop(s1, id, loop.(stage := Ready))
    else if loop.guarded then WithLoop(s1, id, loop.(stage := Finishing))
    else WithoutLoop(s1, id)
  }

  function Do(s: State, a: Action): State
    requires CanStep(s, a)
  {
    match a
    case SetProfiles(profiles) =>
      if s.shutdown then s
      else s.(generation := s.generation + 1, profiles := profiles, active := None, phase := Disconnected, auto := true, backoff := 1)
    case Disconnect(manual) =>
      s.(generation := s.generation + 1, active := None, auto := s.auto && !manual,
         phase := if manual then ManualOffline else ReconnectWait)
    case MarkConnected => if s.shutdown then s else s.(phase := Connected, auto := true, backoff := 1)
    case Shutdown =>
      if s.shutdown then s
      else s.(shutdown := true, phase := Disconnecting, auto := false, generation := s.generation + 1)
    case Reap => s.(active := None, phase := Disconnected)
    case CheckLost => s.(active := None, phase := ReconnectWait)
    case SetPhase(phase) => s.(phase := phase)
    case Connect => Join(s).0
    case BeginAttempt(id) => Begin(s, id)
    case EndProbe(id, result) => AfterProbe(s, id, result)
    case DropAttempt(id) => Ended(s, id, Raised)
    case StartLoop => NewLoop(s, true).(reconnectTask := Some(s.next))
    case StartGenerator => NewLoop(s, false)
    case BeginRound(id) => Round(s, id)
    case Wake(id) => Woken(s, id)
    case EndRound(id) => RoundEnded(s, id)
    case DropLoop(id) => WithoutLoop(s, id)
  }

  ghost predicate IsRun(states: seq<State>, actions: seq<Action>) {
    && |states| == |actions| + 1
    && (exists profiles :: states[0] == Initial(profiles))
    && forall i | 0 <= i < |actions| :: CanStep(states[i], actions[i]) && states[i + 1] == Do(states[i], actions[i])
  }

  // --------------------------------------------------------------- main results

  /** What an attempt has found out so far: it goes through the candidates in order. */
  ghost predicate AttemptOk(s: State, a: Attempt) {
    a.generation <= s.generation && (a.begun && IsCurrent(s, a.generation) ==> a.failed + a.todo == Candidates(s.profiles))
  }

  /** The connection task is the only attempt, and each finished one has its result. */
  ghost predicate AttemptsOk(s: State) {
    && (forall id | id in s.attempts :: id < s.next && s.connectionTask == Some(id) && AttemptOk(s, s.attempts[id]))
    && (forall id | id in s.results :: id < s.next && id !in s.attempts)
  }

  predicate OnLadder(n: nat) {
    n in {1, 2, 4, 8, 16, 30}
  }

  predicate StageOk(stage: Stage) {
    stage.Waiting? || stage.Joined? ==> OnLadder(stage.delay)
  }

  /** The reconnect task is the only guarded loop. */
  ghost predicate LoopsOk(s: State) {
    && OnLadder(s.backoff)
    && forall id | id in s.loops ::
         id < s.next && StageOk(s.loops[id].stage) && (s.loops[id].guarded ==> s.reconnectTask == Some(id))
  }

  ghost predicate Inv(s: State) {
    AttemptsOk(s) && LoopsOk(s)
  }

  predicate OfAttempt(a: Action) {
    a.BeginAttempt? || a.EndProbe? || a.DropAttempt?
  }

  predicate OfLoop(a: Action) {
    a.StartLoop? || a.StartGenerator? || a.BeginRound? || a.Wake? || a.EndRound? || a.DropLoop?
  }

  lemma JoinKeeps(s: State)
    requires AttemptsOk(s)
    ensures AttemptsOk(Join(s).0)
  {
    forall id | id in s.attempts ensures AttemptOk(Join(s).0, s.attempts[id]) {
      assert AttemptOk(s, s.attempts[id]);
    }
  }

  lemma AttemptsCarryOver(s: State, s': State)
    requires AttemptsOk(s)
    requires s'.attempts == s.attempts && s'.results == s.results && s'.connectionTask == s.connectionTask && s'.next >= s.next
    requires s'.generation >= s.generation
    requires s'.generation == s.generation ==> s'.profiles == s.profiles && (s.shutdown ==> s'.shutdown)
    ensures AttemptsOk(s')
  {
    forall id | id in s'.attempts ensures AttemptOk(s', s'.attempts[id]) {
      assert AttemptOk(s, s.attempts[id]);
    }
  }

  lemma BeginKeeps(s: State, id: nat)
    requires AttemptsOk(s) && id in s.attempts && !s.attempts[id].begun
    ensures AttemptsOk(Begin(s, id))
  {
    assert [] + Candidates(s.profiles) == Candidates(s.profiles);
  }

  lemma ProbeKeeps(s: State, id: nat, result: Probe)
    requires AttemptsOk(s) && id in s.attempts && s.attempts[id].begun && s.attempts[id].todo != []
    ensures AttemptsOk(AfterProbe(s, id, result))
  {
    var t := s.attempts[id];
    assert t.failed + t.todo == (t.failed + [t.todo[0]]) + t.todo[1..];
  }

  lemma RoundKeeps(s: State, id: nat)
    requires Inv(s) && id in s.loops && s.loops[id].stage.Ready?
    ensures Inv(Round(s, id))
  {
    AttemptsCarryOver(s, Round(s, id));
  }

  function Refused(s: State, id: nat): State
    requires id in s.loops && s.loops[id].stage.Waiting?
  {
    WithLoop(s, id, s.loops[id].(stage := Ready)).(backoff := Escalated(s.loops[id].stage.delay))
  }

  function JoinedTo(s: State, loop: Loop, id: nat, attempt: nat): State
    requires loop.stage.Waiting?
  {
    WithLoop(s, id, loop.(stage := Joined(loop.stage.delay, attempt)))
  }

  lemma WokenCases(s: State, id: nat)
    requires id in s.loops && s.loops[id].stage.Waiting?
    ensures Woken(s, id) ==
      if s.loops[id].guarded && !IsCurrent(s, s.loops[id].generation) then WithoutLoop(s, id)
      else if ConnectRefused(s) then Refused(s, id)
      else JoinedTo(Join(s).0, s.loops[id], id, Join(s).1.value)
  {
  }

  lemma RefusedKeeps(s: State, id: nat)
    requires Inv(s) && id in s.loops && s.loops[id].stage.Waiting?
    ensures Inv(Refused(s, id))
  {
    AttemptsCarryOver(s, Refused(s, id));
  }

  lemma JoinedKeeps(s: State, id: nat, attempt: nat)
    requires Inv(s) && id in s.loops && s.loops[id].stage.Waiting?
    ensures Inv(JoinedTo(s, s.loops[id], id, attempt))
  {
    AttemptsCarryOver(s, JoinedTo(s, s.loops[id], id, attempt));
  }

  lemma JoinFrame(s: State)
    ensures var s1 := Join(s).0;
            && s1.loops == s.loops && s1.backoff == s.backoff && s1.reconnectTask == s.reconnectTask && s1.next >= s.next
            && s1.generation == s.generation
  {
  }

  lemma WokenKeeps(s: State, id: nat)
    requires Inv(s) && id in s.loops && s.loops[id].stage.Waiting?
    ensures Inv(Woken(s, id))
  {
    WokenCases(s, id);
    JoinKeeps(s);
    JoinFrame(s);
    DropKeeps(s, id);
    RefusedKeeps(s, id);
    var s1, attempt := Join(s).0, Join(s).1;
    if attempt.Some? {
      JoinedKeeps(s1, id, attempt.value);
    }
  }

  lemma RoundEndedKeeps(s: State, id: nat)
    requires Inv(s) && CanStep(s, EndRound(id))
    ensures Inv(RoundEnded(s, id))
  {
    AttemptsCarryOver(s, RoundEnded(s, id));
  }

  lemma StartKeeps(s: State)
    requires Inv(s)
    ensures Inv(NewLoop(s, false))
    ensures !LoopRuns(s) ==> Inv(NewLoop(s, true).(reconnectTask := Some(s.next)))
  {
    AttemptsCarryOver(s, NewLoop(s, false));
    AttemptsCarryOver(s, NewLoop(s, true).(reconnectTask := Some(s.next)));
  }

  lemma DropKeeps(s: State, id: nat)
    requires Inv(s)
    ensures Inv(WithoutLoop(s, id))
    ensures id in s.attempts ==> Inv(Ended(s, id, Raised))
  {
    AttemptsCarryOver(s, WithoutLoop(s, id));
  }

  predicate Outside(a: Action) {
    a.SetProfiles? || a.Disconnect? || a.MarkConnected? || a.Shutdown? || a.Reap? || a.CheckLost? || a.SetPhase?
  }

  lemma OutsideKeeps(s: State, a: Action)
    requires Inv(s) && CanStep(s, a) && Outside(a)
    ensures Inv(Do(s, a))
  {
    AttemptsCarryOver(s, Do(s, a));
  }

  lemma LoopsCarryOver(s: State, s': State)
    requires LoopsOk(s) && s'.loops == s.loops && s'.backoff == s.backoff
    requires s'.reconnectTask == s.reconnectTask && s'.next >= s.next
    ensures LoopsOk(s')
  {
  }

  lemma LoopsUntouched(s: State, a: Action)
    requires CanStep(s, a) && (OfAttempt(a) || a.Connect?)
    ensures var s' := Do(s, a);
            s'.loops == s.loops && s'.backoff == s.backoff && s'.reconnectTask == s.reconnectTask && s'.next >= s.next
  {
  }

  lemma AttemptActionKeeps(s: State, a: Action)
    requires AttemptsOk(s) && CanStep(s, a) && (OfAttempt(a) || a.Connect?)
    ensures AttemptsOk(Do(s, a))
  {
    match a
    case Connect => JoinKeeps(s);
    case BeginAttempt(id) => BeginKeeps(s, id);
    case EndProbe(id, result) => ProbeKeeps(s, id, result);
    case DropAttempt(id) =>
  }

  lemma LoopActionKeeps(s: State, a: Action)
    requires Inv(s) && CanStep(s, a) && OfLoop(a)
    ensures Inv(Do(s, a))
  {
    match a
    case StartLoop => StartKeeps(s);
    case StartGenerator => StartKeeps(s);
    case BeginRound(id) => RoundKeeps(s, id);
    case Wake(id) => WokenKeeps(s, id);
    case EndRound(id) => RoundEndedKeeps(s, id);
    case DropLoop(id) => DropKeeps(s, id);
  }

  lemma StepKeepsInv(s: State, a: Action)
    requires Inv(s) && CanStep(s, a)
    ensures Inv(Do(s, a))
  {
    if OfLoop(a) { LoopActionKeeps(s, a); }
    else if OfAttempt(a) || a.Connect? {
      AttemptActionKeeps(s, a);
      LoopsUntouched(s, a);
      LoopsCarryOver(s, Do(s, a));
    } else { OutsideKeeps(s, a); }
  }

  lemma {:induction false} RunsKeepInv(states: seq<State>, actions: seq<Action>, i: nat)
    requires IsRun(states, actions) && i < |states|
    ensures Inv(states[i])
  {
    if i > 0 {
      RunsKeepInv(states, actions, i - 1);
      StepKeepsInv(states[i - 1], actions[i - 1]);
    }
  }

  /** There is never more than one attempt and one scheduled loop under way. */
  lemma OneTaskOfEachKind(states: seq<State>, actions: seq<Action>, i: nat)
    requires IsRun(states, actions) && i < |states|
    ensures forall id, other | id in states[i].attempts && other in states[i].attempts :: id == other
    ensures forall id, other | id in states[i].loops && other in states[i].loops
              && states[i].loops[id].guarded && states[i].loops[other].guarded :: id == other
  {
    RunsKeepInv(states, actions, i);
    var s := states[i];
    forall id, other | id in s.attempts && other in s.attempts ensures id == other {
      assert s.connectionTask == Some(id) && s.connectionTask == Some(other);
    }
    forall id, other | id in s.loops && other in s.loops && s.loops[id].guarded && s.loops[other].guarded ensures id == other {
      assert s.reconnectTask == Some(id) && s.reconnectTask == Some(other);
    }
  }

  /** The steps that end what is under way: new profiles, a disconnection, a shutdown. */
  predicate Overtakes(s: State, a: Action) {
    a.Disconnect? || (!s.shutdown && (a.SetProfiles? || a.Shutdown?))
  }

  lemma GenerationStep(s: State, a: Action)
    requires CanStep(s, a)
    ensures Do(s, a).generation == s.generation + if Overtakes(s, a) then 1 else 0
  {
  }

  /** Attempts keep the generation they are given when they start. */
  ghost predicate Generations(s: State, s': State) {
    forall id | id in s'.attempts ::
      if id in s.attempts then s'.attempts[id].generation == s.attempts[id].generation
      else s'.attempts[id].generation == s.generation == s'.generation
  }

  lemma AttemptStep(s: State, a: Action)
    requires AttemptsOk(s) && CanStep(s, a)
    ensures Generations(s, Do(s, a))
  {
    match a
    case Connect => JoinGenerations(s);
    case BeginAttempt(id) => BeginGenerations(s, id);
    case EndProbe(id, result) => ProbeGenerations(s, id, result);
    case Wake(id) => WokenGenerations(s, id);
    case BeginRound(id) => assert Round(s, id).attempts == s.attempts;
    case EndRound(id) => assert RoundEnded(s, id).attempts == s.attempts;
    case _ =>
  }

  lemma JoinGenerations(s: State)
    requires AttemptsOk(s)
    ensures Generations(s, Join(s).0)
  {
  }

  lemma WokenGenerations(s: State, id: nat)
    requires AttemptsOk(s) && id in s.loops && s.loops[id].stage.Waiting?
    ensures Generations(s, Woken(s, id))
  {
    JoinGenerations(s);
  }

  lemma BeginGenerations(s: State, id: nat)
    requires id in s.attempts
    ensures Generations(s, Begin(s, id))
  {
  }

  lemma ProbeGenerations(s: State, id: nat, result: Probe)
    requires id in s.attempts && s.attempts[id].todo != []
    ensures Generations(s, AfterProbe(s, id, result))
  {
  }

  /** Generations along a run: what the steps above add up to. */
  ghost predicate Ages(states: seq<State>, actions: seq<Action>) {
    && |states| == |actions| + 1 && states[0].attempts == map[]
    && forall i | 0 <= i < |actions| :: AgesOnce(states[i], Overtakes(states[i], actions[i]), states[i + 1])
  }

  ghost predicate AgesOnce(s: State, overtakes: bool, s': State) {
    && Generations(s, s') && s'.generation == s.generation + (if overtakes then 1 else 0)
    && forall id | id in s.attempts :: s.attempts[id].generation <= s.generation
  }

  lemma RunsAge(states: seq<State>, actions: seq<Action>)
    requires IsRun(states, actions)
    ensures Ages(states, actions)
  {
    forall i | 0 <= i < |actions| ensures AgesOnce(states[i], Overtakes(states[i], actions[i]), states[i + 1]) {
      RunsKeepInv(states, actions, i);
      AttemptStep(states[i], actions[i]);
      GenerationStep(states[i], actions[i]);
    }
  }

  /** Since when an attempt has been under way, and what was overtaken meanwhile. */
  lemma {:induction false} AttemptIsBorn(states: seq<State>, actions: seq<Action>, i: nat, id: nat) returns (j: nat)
    requires Ages(states, actions) && i < |states| && id in states[i].attempts
    ensures j < i && id !in states[j].attempts && (forall k | j < k <= i :: id in states[k].attempts)
    ensures states[i].attempts[id].generation <= states[i].generation
    ensures states[i].attempts[id].generation == states[i].generation
            ==> forall k | j <= k < i :: !Overtakes(states[k], actions[k])
  {
    assert AgesOnce(states[i - 1], Overtakes(states[i - 1], actions[i - 1]), states[i]);
    if id in states[i - 1].attempts {
      j := AttemptIsBorn(states, actions, i - 1, id);
    } else {
      j := i - 1;
    }
  }

  /** An attempt touches the active profile, the phase or the reconnection flag only as
      long as neither new profiles nor a disconnection nor a shutdown has come since it
      was started. */
  lemma OvertakenAttemptsAreSilent(states: seq<State>, actions: seq<Action>, i: nat) returns (j: nat)
    requires IsRun(states, actions) && i < |actions| && OfAttempt(actions[i])
    requires states[i + 1].active != states[i].active || states[i + 1].phase != states[i].phase
             || states[i + 1].auto != states[i].auto
    ensures j < i && actions[i].id !in states[j].attempts && (forall k | j < k <= i :: actions[i].id in states[k].attempts)
    ensures !states[i].shutdown && forall k | j <= k < i :: !Overtakes(states[k], actions[k])
  {
    assert CanStep(states[i], actions[i]);
    RunsAge(states, actions);
    j := AttemptIsBorn(states, actions, i, actions[i].id);
    SpeaksWhenCurrent(states[i], actions[i]);
  }

  lemma SpeaksWhenCurrent(s: State, a: Action)
    requires CanStep(s, a) && OfAttempt(a)
    requires Do(s, a).active != s.active || Do(s, a).phase != s.phase || Do(s, a).auto != s.auto
    ensures IsCurrent(s, s.attempts[a.id].generation)
  {
  }

  /** When an attempt makes a profile active, that is the first enabled profile by
      priority whose probe succeeded: all candidates before it were probed and failed. */
  lemma FirstAnsweringProfileWins(states: seq<State>, actions: seq<Action>, i: nat)
    requires IsRun(states, actions) && i < |actions| && OfAttempt(actions[i])
    requires states[i + 1].active.Some? && states[i + 1].active != states[i].active
    ensures var s, a := states[i], actions[i];
            && a.EndProbe? && a.result == Answered
            && var failed := s.attempts[a.id].failed;
               && |failed| < |Candidates(s.profiles)|
               && failed == Candidates(s.profiles)[..|failed|]
               && states[i + 1].active == Some(Candidates(s.profiles)[|failed|])
  {
    RunsKeepInv(states, actions, i);
    assert CanStep(states[i], actions[i]) && states[i + 1] == Do(states[i], actions[i]);
    WinnerIs(states[i], actions[i]);
  }

  lemma WinnerIs(s: State, a: Action)
    requires AttemptsOk(s) && CanStep(s, a) && OfAttempt(a)
    requires Do(s, a).active.Some? && Do(s, a).active != s.active
    ensures && a.EndProbe? && a.result == Answered
            && var failed := s.attempts[a.id].failed;
               && |failed| < |Candidates(s.profiles)|
               && failed == Candidates(s.profiles)[..|failed|]
               && Do(s, a).active == Some(Candidates(s.profiles)[|failed|])
  {
    assert AttemptOk(s, s.attempts[a.id]);
  }

  /** Once a shutdown has begun no profile becomes active any more, and when it has
      cleared the active one it stays cleared. */
  lemma {:induction false} ShutdownIsFinal(states: seq<State>, actions: seq<Action>, i: nat, j: nat)
    requires IsRun(states, actions) && i <= j < |states| && states[i].shutdown
    ensures states[j].shutdown && (states[j].active == states[i].active || states[j].active.None?)
    decreases j - i
  {
    if i < j {
      ShutdownIsFinal(states, actions, i, j - 1);
      ShutdownStep(states[j - 1], actions[j - 1]);
    }
  }

  lemma ShutdownStep(s: State, a: Action)
    requires CanStep(s, a) && s.shutdown
    ensures Do(s, a).shutdown && (Do(s, a).active == s.active || Do(s, a).active.None?)
  {
  }

  /** What takes the connection away, and what the phase is then. */
  lemma ConnectionIsGone(s: State, a: Action)
    requires CanStep(s, a) && (a.Disconnect? || a.CheckLost? || a.Reap? || (a.SetProfiles? && !s.shutdown))
    ensures Do(s, a).active.None?
    ensures Do(s, a).phase == if a.CheckLost? || (a.Disconnect? && !a.manual) then ReconnectWait
                              else if a.Disconnect? then ManualOffline else Disconnected
  {
  }

  /** The first section of a shutdown stops everything but what is under way. */
  lemma ShutdownStops(s: State)
    requires !s.shutdown
    ensures var s' := Do(s, Shutdown);
            && s'.shutdown && s'.phase == Disconnecting && !s'.auto && s'.generation == s.generation + 1
            && ConnectRefused(s') && ScheduleRefused(s') && s'.active == s.active
    ensures forall id | id in s.attempts :: !IsCurrent(Do(s, Shutdown), s.attempts[id].generation)
  {
  }

  // ------------------------------------------------------------ an undisturbed attempt

  /** The attempt's probes end one after the other, and nothing else happens. */
  function Probed(s: State, id: nat, results: seq<Probe>): State
    decreases |results|
  {
    if results == [] || id !in s.attempts || s.attempts[id].todo == [] then s
    else Probed(AfterProbe(s, id, results[0]), id, results[1..])
  }

  /** An attempt in the middle of its probes. */
  ghost predicate Probing(s: State, id: nat) {
    && id in s.attempts && id !in s.results && IsCurrent(s, s.attempts[id].generation) && s.attempts[id].begun
    && s.attempts[id].todo != []
  }

  /** The first server that answers becomes the active one, whatever came before it. */
  lemma {:induction false} AnswerConnects(s: State, id: nat, results: seq<Probe>, k: nat)
    requires Probing(s, id) && |results| == |s.attempts[id].todo| && k < |results|
    requires results[k] == Answered && forall i | 0 <= i < k :: results[i] != Answered
    ensures var s' := Probed(s, id, results);
            && s'.active == Some(s.attempts[id].todo[k]) && s'.phase == Authenticating && s'.auto == s.auto
            && s'.attempts == s.attempts - {id} && s'.results == s.results[id := Found]
    decreases |results|
  {
    var s1 := AfterProbe(s, id, results[0]);
    if k == 0 {
      assert Probed(s1, id, results[1..]) == s1;
    } else {
      AnswerConnects(s1, id, results[1..], k - 1);
      assert s1.attempts[id].todo[k - 1] == s.attempts[id].todo[k];
      assert s1.attempts - {id} == s.attempts - {id};
    }
  }

  /** When none answers the attempt fails. Reconnecting is given up for good exactly when
      there was a server with another identity and none that was merely unreachable. */
  lemma {:induction false} SilenceFails(s: State, id: nat, results: seq<Probe>)
    requires Probing(s, id) && |results| == |s.attempts[id].todo|
    requires forall i | 0 <= i < |results| :: results[i] != Answered
    ensures var s', a := Probed(s, id, results), s.attempts[id];
            && s'.active == s.active && s'.phase == Failing
            && (s'.auto <==> s.auto && !((a.mismatch || WrongServer in results) && !(a.retryable || Unreachable in results)))
            && s'.attempts == s.attempts - {id} && s'.results == s.results[id := Nothing]
    decreases |results|
  {
    var s1 := AfterProbe(s, id, results[0]);
    assert results == [results[0]] + results[1..];
    if |results| == 1 {
      assert Probed(s1, id, results[1..]) == s1;
    } else {
      SilenceFails(s1, id, results[1..]);
      assert s1.attempts - {id} == s.attempts - {id};
    }
  }

  /** A whole attempt that nothing overtakes, from its beginning. */
  lemma AttemptRunsThrough(s: State, id: nat, results: seq<Probe>)
    requires id in s.attempts && id !in s.results && s.attempts[id] == Attempt(s.generation, false, [], [], false, false) && !s.shutdown
    requires |results| == |Candidates(s.profiles)|
    ensures var s', profiles := Probed(Begin(s, id), id, results), Candidates(s.profiles);
            && s'.attempts == s.attempts - {id}
            && (Answered in results ==>
                  exists k :: 0 <= k < |results| && results[k] == Answered && (forall i | 0 <= i < k :: results[i] != Answered)
                              && s'.active == Some(profiles[k]) && s'.phase == Authenticating && s'.auto == s.auto)
            && (Answered !in results ==>
                  s'.active.None? && s'.phase == Failing
                  && (s'.auto <==> s.auto && !(WrongServer in results && Unreachable !in results)))
            && s'.results == s.results[id := if Answered in results then Found else Nothing]
  {
    var s1 := Begin(s, id);
    if results == [] {
      assert Probed(s1, id, results) == s1;
    } else {
      assert Probing(s1, id);
      assert s1.attempts - {id} == s.attempts - {id};
      if Answered in results {
        var k := FirstAnswer(results);
        AnswerConnects(s1, id, results, k);
      } else {
        SilenceFails(s1, id, results);
      }
    }
  }

  lemma {:induction false} FirstAnswer(results: seq<Probe>) returns (k: nat)
    requires Answered in results
    ensures k < |results| && results[k] == Answered && forall i | 0 <= i < k :: results[i] != Answered
  {
    if results[0] == Answered {
      k := 0;
    } else {
      assert results == [results[0]] + results[1..];
      var j := FirstAnswer(results[1..]);
      k := j + 1;
    }
  }

  // -------------------------------------------------------------------- the backoff

  /** Written back, a delay is doubled, up to half a minute. */
  lemma DelaysDouble(s: State, a: Action)
    requires CanStep(s, a) && WrittenBack(s, a).Some?
    ensures var delay, backoff := WrittenBack(s, a).value, Do(s, a).backoff;
            if delay <= 15 then backoff == 2 * delay else backoff == 30
  {
    BackoffStep(s, a);
  }

  /** The delay that a step writes back, doubled. */
  function WrittenBack(s: State, a: Action): Option<nat>
    requires CanStep(s, a)
  {
    if a.EndRound? then Some(s.loops[a.id].stage.delay)
    else if a.Wake? && ConnectRefused(s) && !(s.loops[a.id].guarded && !IsCurrent(s, s.loops[a.id].generation)) then
      Some(s.loops[a.id].stage.delay)
    else None
  }

  predicate Resets(s: State, a: Action) {
    (a.MarkConnected? || a.SetProfiles?) && !s.shutdown
  }

  lemma BackoffStep(s: State, a: Action)
    requires CanStep(s, a)
    ensures Do(s, a).backoff
            == if Resets(s, a) then 1
               else if WrittenBack(s, a).Some? then Escalated(WrittenBack(s, a).value)
               else s.backoff
  {
  }

  /** The backoff stays in its ladder; a step lowers it exactly when the connection is
      confirmed, the profiles change, or a loop writes back what it made of a delay
      that another loop has meanwhile surpassed. */
  lemma BackoffFallsExactlyWhen(states: seq<State>, actions: seq<Action>, i: nat)
    requires IsRun(states, actions) && i < |actions|
    ensures var s, a := states[i], actions[i];
            && OnLadder(s.backoff)
            && (states[i + 1].backoff < s.backoff <==>
                 || (Resets(s, a) && s.backoff > 1)
                 || (WrittenBack(s, a).Some? && Escalated(WrittenBack(s, a).value) < s.backoff))
  {
    RunsKeepInv(states, actions, i);
    BackoffStep(states[i], actions[i]);
  }

  /** Without generators the delay of the loop under way is the backoff, unless that
      was reset. */
  ghost predicate Fresh(s: State) {
    && s.backoff >= 1
    && forall id | id in s.loops :: s.loops[id].guarded && StageFresh(s.loops[id].stage, s.backoff)
  }

  predicate StageFresh(stage: Stage, backoff: nat) {
    stage.Waiting? || stage.Joined? ==> stage.delay >= 1 && (backoff == stage.delay || backoff == 1)
  }

  lemma StepKeepsFresh(s: State, a: Action)
    requires LoopsOk(s) && Fresh(s) && CanStep(s, a) && !a.StartGenerator?
    ensures Fresh(Do(s, a))
  {
    if OfLoop(a) { LoopActionIsFresh(s, a); }
    else if OfAttempt(a) || a.Connect? { LoopsUntouched(s, a); }
  }

  lemma LoopActionIsFresh(s: State, a: Action)
    requires LoopsOk(s) && Fresh(s) && CanStep(s, a) && OfLoop(a) && !a.StartGenerator?
    ensures Fresh(Do(s, a))
  {
    match a
    case BeginRound(id) => RoundIsFresh(s, id);
    case Wake(id) => WokenIsFresh(s, id);
    case EndRound(id) => RoundEndedIsFresh(s, id);
    case _ =>
  }

  lemma RoundIsFresh(s: State, id: nat)
    requires Fresh(s) && id in s.loops && s.loops[id].stage.Ready?
    ensures Fresh(Round(s, id))
  {
  }

  lemma OnlyLoop(s: State, id: nat)
    requires LoopsOk(s) && Fresh(s) && id in s.loops
    ensures forall other | other in s.loops :: other == id
  {
    assert s.reconnectTask == Some(id);
  }

  lemma WokenIsFresh(s: State, id: nat)
    requires LoopsOk(s) && Fresh(s) && id in s.loops && s.loops[id].stage.Waiting?
    ensures Fresh(Woken(s, id))
  {
    OnlyLoop(s, id);
    WokenCases(s, id);
    JoinFrame(s);
    if Join(s).1.Some? {
      assert JoinedTo(Join(s).0, s.loops[id], id, Join(s).1.value).backoff == s.backoff;
    }
  }

  lemma RoundEndedIsFresh(s: State, id: nat)
    requires LoopsOk(s) && Fresh(s) && CanStep(s, EndRound(id))
    ensures Fresh(RoundEnded(s, id))
  {
    OnlyLoop(s, id);
  }

  lemma {:induction false} RunsKeepFresh(states: seq<State>, actions: seq<Action>, i: nat)
    requires IsRun(states, actions) && i < |states|
    requires forall k | 0 <= k < |actions| :: !actions[k].StartGenerator?
    ensures Fresh(states[i])
  {
    if i > 0 {
      RunsKeepFresh(states, actions, i - 1);
      RunsKeepInv(states, actions, i - 1);
      StepKeepsFresh(states[i - 1], actions[i - 1]);
    }
  }

  /** As the program schedules its reconnections, however often it asks for one, the
      backoff falls exactly on a confirmed connection or new profiles; and a loop writes
      back the double of the backoff, or of what it was when a reset came in between. */
  lemma ScheduledLoopsNeverLowerBackoff(states: seq<State>, actions: seq<Action>, i: nat)
    requires IsRun(states, actions) && i < |actions|
    requires forall k | 0 <= k < |actions| :: !actions[k].StartGenerator?
    ensures var s, a := states[i], actions[i];
            && (states[i + 1].backoff < s.backoff <==> Resets(s, a) && s.backoff > 1)
            && (WrittenBack(s, a).Some? ==> s.backoff in {1, WrittenBack(s, a).value})
  {
    RunsKeepFresh(states, actions, i);
    BackoffFallsExactlyWhen(states, actions, i);
    BackoffStep(states[i], actions[i]);
  }

  // --------------------------------------------------------------- concrete runs

  ghost predicate RunTo(states: seq<State>, actions: seq<Action>, s: State) {
    IsRun(states, actions) && states[|states| - 1] == s
  }

  ghost predicate Reachable(s: State) {
    exists states, actions :: RunTo(states, actions, s)
  }

  lemma ReachStep(s: State, a: Action)
    requires Reachable(s) && CanStep(s, a)
    ensures Reachable(Do(s, a))
  {
    var states, actions :| RunTo(states, actions, s);
    var states', actions' := states + [Do(s, a)], actions + [a];
    forall i | 0 <= i < |actions'|
      ensures CanStep(states'[i], actions'[i]) && states'[i + 1] == Do(states'[i], actions'[i])
    {
      if i < |actions| {
        assert states'[i] == states[i] && states'[i + 1] == states[i + 1] && actions'[i] == actions[i];
      }
    }
    assert RunTo(states', actions', Do(s, a));
  }

  /** A manager without profiles, with a retry loop and perhaps a generator; no attempt
      is under way. */
  ghost predicate Trying(s: State) {
    && Reachable(s) && s.profiles == [] && s.attempts == map[] && s.active.None? && s.auto && !s.shutdown
    && s.generation == 0 && s.phase !in {ManualOffline, Disconnecting} && s.next !in s.loops
    && forall id | id in s.loops :: s.loops[id].generation == 0
  }

  function Staged(s: State, id: nat, stage: Stage): map<nat, Loop>
    requires id in s.loops
  {
    s.loops[id := s.loops[id].(stage := stage)]
  }

  lemma RoundBegins(s: State, id: nat) returns (s': State)
    requires Trying(s) && id in s.loops && s.loops[id].stage.Ready?
    ensures Trying(s') && s'.loops == Staged(s, id, Waiting(s.backoff)) && s'.backoff == s.backoff && s'.next == s.next
  {
    s' := Do(s, BeginRound(id));
    ReachStep(s, BeginRound(id));
  }

  lemma AttemptStarts(s: State, id: nat) returns (s': State)
    requires Trying(s) && id in s.loops && s.loops[id].stage.Waiting?
    ensures Reachable(s') && s' == Do(s, Wake(id)) && s'.attempts == map[s.next := Attempt(0, false, [], [], false, false)]
    ensures s'.loops == Staged(s, id, Joined(s.loops[id].stage.delay, s.next)) && s'.next == s.next + 1
  {
    s' := Do(s, Wake(id));
    ReachStep(s, Wake(id));
  }

  /** There is no profile to probe, so the round ends without one. */
  lemma RoundFails(s: State, id: nat) returns (s': State)
    requires Trying(s) && id in s.loops && s.loops[id].stage.Waiting? && s.next + 1 !in s.loops
    ensures Trying(s') && s'.loops == Staged(s, id, Ready) && s'.backoff == Escalated(s.loops[id].stage.delay)
    ensures s'.next == s.next + 1
  {
    var s1 := AttemptStarts(s, id);
    var s2 := NothingToProbe(s1, s.next);
    assert s1.attempts - {s.next} == map[];
    assert Trying(s2);
    s' := RoundIsOver(s2, id, s.loops[id].stage.delay);
  }

  lemma RoundIsOver(s: State, id: nat, delay: nat) returns (s': State)
    requires Trying(s) && CanStep(s, EndRound(id)) && s.results[s.loops[id].stage.attempt] == Nothing
    requires s.loops[id].stage.delay == delay
    ensures Trying(s') && s'.loops == Staged(s, id, Ready) && s'.backoff == Escalated(delay) && s'.next == s.next
  {
    ReachStep(s, EndRound(id));
    EmptyRound(s, id);
    s' := Do(s, EndRound(id));
  }

  lemma EmptyRound(s: State, id: nat)
    requires CanStep(s, EndRound(id)) && s.results[s.loops[id].stage.attempt] == Nothing
    ensures Do(s, EndRound(id)) == s.(backoff := Escalated(s.loops[id].stage.delay), loops := Staged(s, id, Ready))
  {
  }

  lemma LoopStarts() returns (s: State)
    ensures Trying(s) && s.loops == map[0 := Loop(0, true, Ready)] && s.backoff == 1 && s.next == 1
  {
    assert RunTo([Initial([])], [], Initial([]));
    s := Do(Initial([]), StartLoop);
    ReachStep(Initial([]), StartLoop);
  }

  /** Beside the loop, which has read the delay 1, a generator's two failed rounds have
      raised the backoff to 4. */
  lemma GeneratorRaises() returns (s: State)
    ensures Trying(s) && 0 in s.loops && s.loops[0] == Loop(0, true, Waiting(1)) && s.backoff == 4
    ensures s.loops.Keys == {0, 1} && s.next == 4
  {
    var s0 := LoopStarts();
    var s1 := RoundBegins(s0, 0);
    var s2 := Do(s1, StartGenerator);
    ReachStep(s1, StartGenerator);
    assert s2.loops[1] == Loop(0, false, Ready);
    var s3 := RoundBegins(s2, 1);
    var s4 := RoundFails(s3, 1);
    var s5 := RoundBegins(s4, 1);
    s := RoundFails(s5, 1);
  }

  /** So a generator can lower the backoff: now the loop writes back what it made of its
      own first delay. */
  lemma GeneratorCanLowerBackoff() returns (s: State, s': State)
    ensures Reachable(s) && CanStep(s, EndRound(0)) && s' == Do(s, EndRound(0)) && s.backoff == 4 && s'.backoff == 2
  {
    var s0 := GeneratorRaises();
    var s1 := AttemptStarts(s0, 0);
    s := NothingToProbe(s1, s0.next);
    s' := Do(s, EndRound(0));
  }

  lemma NothingToProbe(s: State, attempt: nat) returns (s': State)
    requires Reachable(s) && attempt in s.attempts && s.attempts[attempt] == Attempt(0, false, [], [], false, false)
    requires s.profiles == []
    ensures Reachable(s') && s' == Do(s, BeginAttempt(attempt))
    ensures s'.results == s.results[attempt := Nothing] && s'.loops == s.loops && s'.backoff == s.backoff
    ensures s'.attempts == s.attempts - {attempt}
  {
    s' := Do(s, BeginAttempt(attempt));
    ReachStep(s, BeginAttempt(attempt));
  }

  /** The loop's second round, with the delay 2, awaits its attempt. */
  lemma SecondRoundWaits() returns (s: State, attempt: nat)
    ensures Reachable(s) && s.attempts == map[attempt := Attempt(0, false, [], [], false, false)]
    ensures s.loops == map[0 := Loop(0, true, Joined(2, attempt))] && !s.shutdown && s.generation == 0
  {
    var s0 := LoopStarts();
    var s1 := RoundBegins(s0, 0);
    var s2 := RoundFails(s1, 0);
    var s3 := RoundBegins(s2, 0);
    attempt := s3.next;
    s := AttemptStarts(s3, 0);
  }

  /** New profiles reset the backoff to 1, but a loop of the old ones that is awaiting
      its attempt raises it to 4 before any attempt with the new profiles is made. */
  lemma ResetIsOverwritten(profiles: seq<Profile>) returns (s: State, s': State, attempt: nat)
    ensures Reachable(s) && s.attempts.Keys == {attempt} && CanStep(s, SetProfiles(profiles))
    ensures var s1 := Do(s, SetProfiles(profiles));
            && s1.backoff == 1 && CanStep(s1, BeginAttempt(attempt))
            && var s2 := Do(s1, BeginAttempt(attempt));
               s2.attempts == map[] && CanStep(s2, EndRound(0)) && s' == Do(s2, EndRound(0))
    ensures Reachable(s') && s'.profiles == profiles && s'.backoff == 4
  {
    s, attempt := SecondRoundWaits();
    ReachStep(s, SetProfiles(profiles));
    var s1 := Do(s, SetProfiles(profiles));
    ReachStep(s1, BeginAttempt(attempt));
    var s2 := OvertakenEnds(s1, attempt);
    ReachStep(s2, EndRound(0));
    s' := Do(s2, EndRound(0));
  }

  lemma OvertakenEnds(s: State, attempt: nat) returns (s': State)
    requires attempt in s.attempts && !s.attempts[attempt].begun && s.attempts[attempt].generation != s.generation
    ensures s' == Do(s, BeginAttempt(attempt)) == Ended(s, attempt, Nothing)
  {
    s' := Do(s, BeginAttempt(attempt));
  }

  // ------------------------------------------------------------- the object itself

  /** The manager's fields, changed in place between two awaits. */
  class Manager {
    var profiles: seq<Profile>
    var active: Option<Profile>
    var phase: Phase
    var auto: bool
    var backoff: nat
    var generation: nat
    var shutdownStarted: bool
    var attempts: map<nat, Attempt>
    var results: map<nat, Result>
    var loops: map<nat, Loop>
    var connectionTask: Option<nat>
    var reconnectTask: Option<nat>
    var next: nat

    ghost function View(): State
      reads this
    {
      State(profiles, active, phase, auto, backoff, generation, shutdownStarted, attempts, results, loops,
            connectionTask, reconnectTask, next)
    }

    constructor (profiles: seq<Profile>)
      ensures View() == Initial(profiles)
    {
      this.profiles, active, phase, auto, backoff := profiles, None, Disconnected, true, 1;
      generation, shutdownStarted, next := 0, false, 0;
      attempts, results, loops := map[], map[], map[];
      connectionTask, reconnectTask := None, None;
    }

    method SetProfilesTo(profiles: seq<Profile>)
      modifies this
      ensures View() == Do(old(View()), SetProfiles(profiles))
      ensures old(Inv(View())) ==> forall id | id in attempts :: !IsCurrent(View(), attempts[id].generation)
      ensures !old(shutdownStarted) ==>
                this.profiles == profiles && active.None? && phase == Disconnected && auto && backoff == 1
      ensures old(shutdownStarted) ==> View() == old(View())
    {
      if shutdownStarted {
        return;
      }
      generation := generation + 1;
      this.profiles, active, phase := profiles, None, Disconnected;
      auto, backoff := true, 1;
    }

    method DisconnectNow(manual: bool)
      modifies this
      ensures View() == Do(old(View()), Disconnect(manual))
      ensures active.None? && phase == (if manual then ManualOffline else ReconnectWait) && auto == (old(auto) && !manual)
      ensures old(Inv(View())) ==> forall id | id in attempts :: !IsCurrent(View(), attempts[id].generation)
    {
      generation := generation + 1;
      active := None;
      if manual {
        auto := false;
        phase := ManualOffline;
      } else {
        phase := ReconnectWait;
      }
    }

    /** mark_connected raises without an active connection. */
    method ConfirmConnected() returns (ok: bool)
      modifies this
      ensures ok == CanStep(old(View()), MarkConnected)
      ensures View() == if ok then Do(old(View()), MarkConnected) else old(View())
      ensures ok <==> old(shutdownStarted) || old(active).Some?
      ensures ok && !old(shutdownStarted) ==> phase == Connected && auto && backoff == 1 && active == old(active)
      ensures !ok || old(shutdownStarted) ==> View() == old(View())
    {
      if shutdownStarted {
        return true;
      }
      if active.None? {
        return false;
      }
      phase, auto, backoff := Connected, true, 1;
      return true;
    }

    /** sorted(enabled profiles), by insertion. */
    method SortedCandidates() returns (sorted: seq<Profile>)
      ensures sorted == Candidates(profiles)
    {
      sorted := [];
      var i := |profiles|;
      while i > 0
        invariant 0 <= i <= |profiles| && sorted == Candidates(profiles[i..])
      {
        i := i - 1;
        assert profiles[i..][1..] == profiles[i + 1..];
        if profiles[i].enabled {
          sorted := Insert(profiles[i], sorted);
        }
      }
      assert profiles[0..] == profiles;
    }

    method End(id: nat, result: Result)
      modifies this`attempts, this`results
      ensures View() == Ended(old(View()), id, result)
    {
      attempts, results := attempts - {id}, results[id := result];
    }

    /** schedule_reconnect: at most one scheduled loop at a time, which a second request
        gets as well, unless reconnecting is out of the question. */
    method ScheduleReconnect() returns (task: Option<nat>)
      requires Inv(View())
      modifies this`loops, this`reconnectTask, this`next
      ensures task.None? <==> ScheduleRefused(old(View()))
      ensures View() == if CanStep(old(View()), StartLoop) then Do(old(View()), StartLoop) else old(View())
      ensures Inv(View())
      ensures task.Some? ==> task.value in loops && forall id | id in loops && loops[id].guarded :: id == task.value
    {
      if shutdownStarted || phase == Disconnecting || phase == ManualOffline || !auto {
        return None;
      }
      if reconnectTask.Some? && reconnectTask.value in loops {
        return reconnectTask;
      }
      StepKeepsInv(View(), StartLoop);
      task := Some(next);
      loops := loops[next := Loop(generation, true, Ready)];
      reconnectTask := task;
      next := next + 1;
    }

    /** connect(), up to the await of the attempt: everybody awaits the same one. */
    method ConnectOnce() returns (task: Option<nat>)
      requires Inv(View())
      modifies this`attempts, this`connectionTask, this`next
      ensures task.None? <==> ConnectRefused(old(View()))
      ensures (View(), task) == Join(old(View()))
      ensures Inv(View())
      ensures task.Some? ==> task.value in attempts && forall id | id in attempts :: id == task.value
    {
      JoinKeeps(View());
      if shutdownStarted || phase == ManualOffline || phase == Disconnecting {
        return None;
      }
      if connectionTask.Some? && connectionTask.value in attempts {
        return connectionTask;
      }
      task := Some(next);
      attempts := attempts[next := Attempt(generation, false, [], [], false, false)];
      connectionTask := task;
      next := next + 1;
    }

    /** The head of either loop: it goes on to wait, with the delay it has read, or ends. */
    method BeginRoundOf(id: nat) returns (delay: Option<nat>)
      requires id in loops && loops[id].stage.Ready?
      modifies this`loops, this`phase
      ensures View() == Do(old(View()), BeginRound(id))
      ensures delay.Some? <==> id in loops
      ensures delay.Some? ==> delay.value == backoff && loops[id].stage == Waiting(backoff)
      ensures delay.Some? <==> active.None? && auto && if old(loops)[id].guarded then old(loops)[id].generation == generation && !shutdownStarted
                                                       else old(phase) != ManualOffline
      ensures delay.Some? ==> phase == if old(loops)[id].guarded then WaitingRetry else ReconnectWait
    {
      var loop := loops[id];
      var go := active.None? && auto && if loop.guarded then loop.generation == generation && !shutdownStarted
                                         else phase != ManualOffline;
      if !go {
        loops := loops - {id};
        return None;
      }
      phase := if loop.guarded then WaitingRetry else ReconnectWait;
      loops := loops[id := loop.(stage := Waiting(backoff))];
      return Some(backoff);
    }

    /** ... and its tail, once connect() has returned with or without a profile. */
    method EndRoundOf(id: nat)
      requires CanStep(View(), EndRound(id))
      modifies this`loops, this`backoff
      ensures View() == Do(old(View()), EndRound(id))
    {
      var loop := loops[id];
      backoff := if loop.stage.delay * 2 < 30 then loop.stage.delay * 2 else 30;
      if results[loop.stage.attempt] == Nothing {
        loops := loops[id := loop.(stage := Ready)];
      } else if loop.guarded {
        loops := loops[id := loop.(stage := Finishing)];
      } else {
        loops := loops - {id};
      }
    }

    method BeginConnectOnce(id: nat)
      requires id in attempts && !attempts[id].begun
      modifies this
      ensures View() == Begin(old(View()), id)
    {
      var a := attempts[id];
      if a.generation != generation || shutdownStarted {
        End(id, Nothing);
        return;
      }
      phase, active := Connecting, None;
      var todo := SortedCandidates();
      if |todo| == 0 {
        FailAttempt(id, a);
      } else {
        attempts := attempts[id := Attempt(a.generation, true, todo, [], false, false)];
      }
    }

    method FailAttempt(id: nat, a: Attempt)
      modifies this
      ensures View() == GiveUp(old(View()), id, a)
    {
      End(id, Nothing);
      phase := Failing;
      if a.mismatch && !a.retryable {
        auto := false;
      }
    }

    method ProbeEnded(id: nat, result: Probe)
      requires id in attempts && attempts[id].todo != []
      modifies this
      ensures View() == AfterProbe(old(View()), id, result)
      ensures active != old(active) || phase != old(phase) || auto != old(auto)
              ==> old(IsCurrent(View(), attempts[id].generation))
    {
      var a := attempts[id];
      if a.generation != generation || shutdownStarted {
        End(id, Nothing);
        return;
      }
      if result == Answered {
        active, phase := Some(a.todo[0]), Authenticating;
        End(id, Found);
        return;
      }
      a := Attempt(a.generation, true, a.todo[1..], a.failed + [a.todo[0]],
                   a.mismatch || result == WrongServer, a.retryable || result == Unreachable);
      if |a.todo| == 0 {
        FailAttempt(id, a);
      } else {
        attempts := attempts[id := a];
      }
    }
  }
}
