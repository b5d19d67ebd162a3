/** How a chat turn ends: a turn that nobody disturbs is answered, one that is cut short
    while it streams is stored as interrupted, and a fresh request is admitted. */
module ChatOutcomes {
  import opened Options
  import opened ChatTurn

  // --------------------------------------------------------------- whose step it is

  predicate IsOwn(a: Action, t: nat) {
    (a.Run? && a.task == t) || (a.Start? && a.turn == t) || (a.Delete? && a.row == t)
  }

  /** The steps of others leave a turn and its rows alone. */
  lemma OthersKeep(s: State, a: Action, t: nat)
    requires TurnsOk(s) && Enabled(s, a) && !IsOwn(a, t)
    ensures var s' := Do(s, a);
            && (t in s'.turns <==> t in s.turns) && (t in s.turns ==> s'.turns[t] == s.turns[t])
            && RowOf(s', t) == RowOf(s, t) && (t in s'.users <==> t in s.users)
  {
    if a.Run? {
      assert TurnOk(s, a.task);
      if a.choice.fault != Smooth { BreakOk(s, a.task, a.choice.applied, a.choice.fault == CancelTask); }
      else { ResumeOk(s, a.task, a.choice); }
    }
  }

  /** Every await of the turn ends normally, and its row is not deleted. */
  predicate Quiet(a: Action, t: nat) {
    (a.Run? && a.task == t ==> a.choice.fault == Smooth) && !(a.Delete? && a.row == t)
  }

  // ------------------------------------------------------------ the undisturbed turn

  /** The row and the reports of a turn that nobody has disturbed, stage by stage. */
  predicate OnCourse(turn: Turn, stored: bool, row: Option<Assistant>) {
    && stored == row.Some?
    && match turn.at
       case Rejecting(_) => row.None? && turn.reports == [Rejection]
       case Accepting => row == Some(Generating) && turn.reports == []
       case Streaming => row == Some(Generating) && turn.reports == []
       case Completing => row == Some(Generating) && turn.reports == []
       case Announcing => row == Some(Finished) && turn.reports == [Completion]
       case Settling(_) => false
       case Correcting => false
       case Reporting => row.None? && turn.reports == [Interruption]
       case Ended =>
         || (row == Some(Finished) && turn.reports == [Completion])
         || (row.None? && turn.reports in {[Rejection], [Interruption]})
       case _ => row.None? && turn.reports == []
  }

  ghost predicate TurnOnCourse(s: State, t: nat) {
    if t in s.turns then OnCourse(s.turns[t], t in s.users, RowOf(s, t)) else RowOf(s, t).None? && t !in s.users
  }

  /** The end of the stream: the row is stored as completed, and the completion is sent. */
  lemma CompletionIsStored(s: State, t: nat, ch: Choice)
    requires TurnsOk(s) && Enabled(s, Run(t, ch)) && ch.fault == Smooth
    requires s.turns[t].at.Completing? && t in s.rows && s.rows[t] == Generating
    ensures var s' := Do(s, Run(t, ch));
            && s'.rows == s.rows[t := Finished] && s'.turns[t].at == Announcing && s'.turns[t].reports == [Completion]
            && s'.turns[t].persisted && s'.users == s.users
  {
    assert TurnOk(s, t);
  }

  lemma AdmissionStaysOnCourse(s: State, t: nat, ch: Choice)
    requires TurnsOk(s) && t in s.turns && TurnOnCourse(s, t) && InLock(s.turns[t].at) && !s.turns[t].at.Rejecting?
    ensures TurnOnCourse(Admission(s, t, s.turns[t], ch), t)
  {
    assert TurnOk(s, t);
    AdmissionOk(s, t, ch);
    var s' := Admission(s, t, s.turns[t], ch);
    assert s'.rows == s.rows && s'.users == s.users;
  }

  lemma AcceptanceStaysOnCourse(s: State, t: nat, ch: Choice)
    requires TurnsOk(s) && t in s.turns && TurnOnCourse(s, t)
    requires s.turns[t].at.Allocating? || s.turns[t].at.Explaining? || s.turns[t].at.Accepting? || s.turns[t].at.Streaming?
    ensures TurnOnCourse(Acceptance(s, t, s.turns[t], ch), t)
  {
    assert TurnOk(s, t);
  }

  lemma SettlementStaysOnCourse(s: State, t: nat)
    requires TurnsOk(s) && t in s.turns && TurnOnCourse(s, t)
    requires s.turns[t].at.Completing? || s.turns[t].at.Announcing? || s.turns[t].at.Reporting? || s.turns[t].at.Rejecting?
    ensures TurnOnCourse(Settlement(s, t, s.turns[t]), t)
  {
    assert TurnOk(s, t);
  }

  lemma OwnStepStaysOnCourse(s: State, t: nat, ch: Choice)
    requires TurnsOk(s) && Enabled(s, Run(t, ch)) && ch.fault == Smooth && TurnOnCourse(s, t)
    ensures TurnOnCourse(Do(s, Run(t, ch)), t)
  {
    var at := s.turns[t].at;
    assert TurnOk(s, t);
    if at.Entering? || at.Loading? || at.Preparing? || at.Creating? {}
    else if InLock(at) && !at.Rejecting? { AdmissionStaysOnCourse(s, t, ch); }
    else if at.Allocating? || at.Explaining? || at.Accepting? || at.Streaming? { AcceptanceStaysOnCourse(s, t, ch); }
    else { SettlementStaysOnCourse(s, t); }
  }

  lemma StepStaysOnCourse(s: State, a: Action, t: nat)
    requires TurnsOk(s) && Enabled(s, a) && Quiet(a, t) && TurnOnCourse(s, t)
    ensures TurnOnCourse(Do(s, a), t)
  {
    if !IsOwn(a, t) { OthersKeep(s, a, t); }
    else if a.Run? { OwnStepStaysOnCourse(s, t, a.choice); }
  }

  lemma {:induction false} RunStaysOnCourse(states: seq<State>, actions: seq<Action>, i: nat, t: nat)
    requires IsRun(states, actions) && i < |states| && forall k | 0 <= k < i :: Quiet(actions[k], t)
    ensures TurnOnCourse(states[i], t)
  {
    if i > 0 {
      RunStaysOnCourse(states, actions, i - 1, t);
      CourseNext(states, actions, i - 1, t);
    }
  }

  lemma CourseNext(states: seq<State>, actions: seq<Action>, i: nat, t: nat)
    requires IsRun(states, actions) && i < |actions| && Quiet(actions[i], t) && TurnOnCourse(states[i], t)
    ensures TurnOnCourse(states[i + 1], t)
  {
    RunsKeepTurns(states, actions, i);
    StepStaysOnCourse(states[i], actions[i], t);
  }

  /** A turn that nobody disturbs, whatever others do meanwhile: if it was admitted, it
      ends with a completed row and assistant.completed; if not, it ends without a row
      and with one message that says so. */
  lemma UndisturbedTurnIsAnswered(states: seq<State>, actions: seq<Action>, i: nat, t: nat)
    requires IsRun(states, actions) && i < |states| && forall k | 0 <= k < i :: Quiet(actions[k], t)
    requires t in states[i].turns && states[i].turns[t].at == Ended
    ensures var s, reports := states[i], states[i].turns[t].reports;
            if t in s.users then t in s.rows && s.rows[t] == Finished && reports == [Completion]
            else t !in s.rows && (reports == [Rejection] || reports == [Interruption])
  {
    RunStaysOnCourse(states, actions, i, t);
  }

  // --------------------------------------------------------------- the turn cut short

  /** A turn whose stream was cut short: interrupted, or, when its completion had been
      stored already, completed. */
  predicate CutShort(turn: Turn, row: Option<Assistant>, stored: bool, said: Report) {
    match turn.at
    case Settling(cancelled) =>
      && row == Some(if stored then Finished else Generating) && turn.reports == [] && turn.known && !turn.persisted
      && said == if stored then Completion else if cancelled then Cancellation else Interruption
    case Correcting => stored && row == Some(Finished) && turn.reports == [Completion] && said == Completion
    case Reporting => !stored && row == Some(Stopped) && turn.reports == [said]
    case Ended => row == Some(if stored then Finished else Stopped) && turn.reports == [said]
    case _ => false
  }

  ghost predicate TurnCutShort(s: State, t: nat, stored: bool, said: Report) {
    t in s.turns && CutShort(s.turns[t], RowOf(s, t), stored, said)
  }

  predicate Generates(at: Stage) {
    at.Accepting? || at.Streaming? || at.Completing?
  }

  /** What the client is told when the await with this outcome breaks. */
  function Told(at: Stage, ch: Choice): Report {
    if at.Completing? && ch.applied then Completion else if ch.fault == CancelTask then Cancellation else Interruption
  }

  lemma BreakCutsShort(s: State, t: nat, ch: Choice)
    requires TurnsOk(s) && Enabled(s, Run(t, ch)) && ch.fault != Smooth && TurnOnCourse(s, t) && Generates(s.turns[t].at)
    ensures TurnCutShort(Do(s, Run(t, ch)), t, s.turns[t].at.Completing? && ch.applied, Told(s.turns[t].at, ch))
  {
    assert TurnOk(s, t);
  }

  lemma StepStaysCutShort(s: State, a: Action, t: nat, stored: bool, said: Report)
    requires TurnsOk(s) && Enabled(s, a) && Quiet(a, t) && TurnCutShort(s, t, stored, said)
    ensures TurnCutShort(Do(s, a), t, stored, said)
  {
    if !IsOwn(a, t) {
      OthersKeep(s, a, t);
    } else {
      assert TurnOk(s, t);
      assert Do(s, a) == Settlement(s, t, s.turns[t]);
    }
  }

  lemma {:induction false} RunStaysCutShort(states: seq<State>, actions: seq<Action>, i: nat, j: nat, t: nat, stored: bool, said: Report)
    requires IsRun(states, actions) && i <= j < |states| && TurnCutShort(states[i], t, stored, said)
    requires forall k | i <= k < j :: Quiet(actions[k], t)
    ensures TurnCutShort(states[j], t, stored, said)
    decreases j - i
  {
    if i < j {
      RunStaysCutShort(states, actions, i, j - 1, t, stored, said);
      CutNext(states, actions, j - 1, t, stored, said);
    }
  }

  lemma CutNext(states: seq<State>, actions: seq<Action>, i: nat, t: nat, stored: bool, said: Report)
    requires IsRun(states, actions) && i < |actions| && Quiet(actions[i], t) && TurnCutShort(states[i], t, stored, said)
    ensures TurnCutShort(states[i + 1], t, stored, said)
  {
    RunsKeepTurns(states, actions, i);
    StepStaysCutShort(states[i], actions[i], t, stored, said);
  }

  /** A turn that is cut short once, after it was accepted and before its completion is
      announced, and then left alone: it ends interrupted, with chat.cancelled for a
      cancellation and LLM_STREAM_INTERRUPTED for an exception; only if the completion
      had just been stored it ends completed, with assistant.completed. */
  lemma TurnCutShortIsReported(states: seq<State>, actions: seq<Action>, i: nat, j: nat, t: nat, ch: Choice)
    requires IsRun(states, actions) && i < j < |states| && actions[i] == Run(t, ch) && ch.fault != Smooth
    requires forall k | 0 <= k < j && k != i :: Quiet(actions[k], t)
    requires t in states[i].turns && Generates(states[i].turns[t].at)
    requires t in states[j].turns && states[j].turns[t].at == Ended
    ensures var s, late := states[j], states[i].turns[t].at.Completing? && ch.applied;
            && t in s.rows && s.rows[t] == (if late then Finished else Stopped)
            && s.turns[t].reports == [if late then Completion else if ch.fault == CancelTask then Cancellation else Interruption]
  {
    RunStaysOnCourse(states, actions, i, t);
    RunsKeepTurns(states, actions, i);
    CutBegins(states, actions, i, t, ch);
    RunStaysCutShort(states, actions, i + 1, j, t, states[i].turns[t].at.Completing? && ch.applied, Told(states[i].turns[t].at, ch));
  }

  lemma CutBegins(states: seq<State>, actions: seq<Action>, i: nat, t: nat, ch: Choice)
    requires IsRun(states, actions) && i < |actions| && actions[i] == Run(t, ch) && ch.fault != Smooth
    requires TurnsOk(states[i]) && TurnOnCourse(states[i], t) && t in states[i].turns && Generates(states[i].turns[t].at)
    ensures TurnCutShort(states[i + 1], t, states[i].turns[t].at.Completing? && ch.applied, Told(states[i].turns[t].at, ch))
  {
    assert Enabled(states[i], actions[i]);
    BreakCutsShort(states[i], t, ch);
  }

  // ------------------------------------------------------------------ an orphaned row

  /** The turn ends without knowing of the row that was allocated for it. */
  ghost predicate Orphaned(s: State, t: nat, said: Report) {
    && t in s.turns && (s.turns[t].at.Reporting? || s.turns[t].at.Ended?) && s.turns[t].reports == [said]
    && t in s.rows && s.rows[t] == Generating
  }

  /** When the allocation breaks, the turn reports it; but if the allocation had been
      committed all the same, its row stays generating. */
  lemma AllocationBreaks(s: State, t: nat, ch: Choice)
    requires TurnsOk(s) && Enabled(s, Run(t, ch)) && ch.fault != Smooth && s.turns[t].at.Allocating?
    ensures var s', said := Do(s, Run(t, ch)), if ch.fault == CancelTask then Cancellation else Interruption;
            && s'.turns[t].at == Reporting && s'.turns[t].reports == [said]
            && (Orphaned(s', t, said) <==> ch.applied && !Clashes(s, s.turns[t].request))
            && (!Orphaned(s', t, said) ==> t !in s'.rows)
  {
    assert TurnOk(s, t);
  }

  lemma OrphanStays(s: State, a: Action, t: nat, said: Report)
    requires TurnsOk(s) && Enabled(s, a) && a != Delete(t) && Orphaned(s, t, said)
    ensures Orphaned(Do(s, a), t, said)
  {
    if !IsOwn(a, t) { OthersKeep(s, a, t); }
    else { assert TurnOk(s, t); }
  }

  /** ... for the rest of the run, unless it is deleted. */
  lemma {:induction false} OrphanedForGood(states: seq<State>, actions: seq<Action>, i: nat, j: nat, t: nat, said: Report)
    requires IsRun(states, actions) && i <= j < |states| && Orphaned(states[i], t, said)
    requires forall k | i <= k < j :: actions[k] != Delete(t)
    ensures Orphaned(states[j], t, said)
    decreases j - i
  {
    if i < j {
      OrphanedForGood(states, actions, i, j - 1, t, said);
      OrphanNext(states, actions, j - 1, t, said);
    }
  }

  lemma OrphanNext(states: seq<State>, actions: seq<Action>, i: nat, t: nat, said: Report)
    requires IsRun(states, actions) && i < |actions| && actions[i] != Delete(t) && Orphaned(states[i], t, said)
    ensures Orphaned(states[i + 1], t, said)
  {
    RunsKeepTurns(states, actions, i);
    OrphanStays(states[i], actions[i], t, said);
  }

  // ---------------------------------------------------------------- a fresh request

  /** A step of the task t whose await ends normally. */
  ghost function Turning(t: nat): (State, Choice) -> Option<State> {
    (s: State, ch: Choice) => if Enabled(s, Run(t, ch)) && ch.fault == Smooth then Some(Do(s, Run(t, ch))) else None
  }

  /** These steps follow one another. */
  ghost predicate Follows(step: (State, Choice) -> Option<State>, s: State, choices: seq<Choice>, s': State)
    decreases |choices|
  {
    if choices == [] then s == s'
    else step(s, choices[0]).Some? && Follows(step, step(s, choices[0]).value, choices[1..], s')
  }

  /** The task t alone takes these steps, and every await ends normally. */
  ghost predicate Plays(s: State, t: nat, choices: seq<Choice>, s': State) {
    Follows(Turning(t), s, choices, s')
  }

  ghost predicate ComesTo(s: State, t: nat, s': State) {
    exists choices :: Plays(s, t, choices, s')
  }

  lemma {:induction false} FollowsBoth(step: (State, Choice) -> Option<State>, s: State, a: seq<Choice>, s1: State, b: seq<Choice>, s2: State)
    requires Follows(step, s, a, s1) && Follows(step, s1, b, s2)
    ensures Follows(step, s, a + b, s2)
    decreases |a|
  {
    if a == [] {
      assert a + b == b;
    } else {
      FollowsBoth(step, step(s, a[0]).value, a[1..], s1, b, s2);
      assert (a + b)[0] == a[0] && (a + b)[1..] == a[1..] + b;
    }
  }

  /** One more await that ends normally; `flag` is how the settings or the model decide. */
  lemma Passes(start: State, s: State, t: nat, flag: bool, newId: nat, s': State)
    requires ComesTo(start, t, s)
    requires var ch := Choice(Smooth, false, false, newId, flag); Enabled(s, Run(t, ch)) && s' == Do(s, Run(t, ch))
    ensures ComesTo(start, t, s')
  {
    var choices :| Plays(start, t, choices, s);
    var ch := Choice(Smooth, false, false, newId, flag);
    assert [ch][1..] == [];
    assert Plays(s', t, [], s');
    assert Plays(s, t, [ch], s');
    FollowsBoth(Turning(t), start, choices, s, [ch], s');
    assert Plays(start, t, choices + [ch], s');
  }

  /** A request whose ids nobody has used or is using, in a conversation that is free. */
  ghost predicate Fresh(s: State, t: nat, r: Request) {
    && t in s.turns && s.turns[t] == Turn(r, Claims(false, false, false, None), Entering, false, false, false, [])
    && t !in s.users && t !in s.rows
    && (forall u | u in s.turns :: !InLock(s.turns[u].at))
    && !RequestStored(s, r.rid) && r.rid !in s.requests && !MessageStored(s, r.mid) && r.mid !in s.messages
    && (r.conv.Some? ==> r.conv.value !in s.conversations)
  }

  /** Lookups only look at the stored users. */
  lemma SameUsers(s: State, s1: State)
    requires s1.users == s.users
    ensures forall u, mid :: IsMessage(s1, u, mid) == IsMessage(s, u, mid)
    ensures forall x :: RequestStored(s1, x) == RequestStored(s, x) && MessageStored(s1, x) == MessageStored(s, x)
                        && RetryStored(s1, x) == RetryStored(s, x)
    ensures forall r :: Clashes(s1, r) == Clashes(s, r)
  {
    assert forall u, mid :: IsMessage(s1, u, mid) == IsMessage(s, u, mid);
    forall x ensures MessageStored(s1, x) == MessageStored(s, x) {
      if MessageStored(s, x) {
        var u :| IsMessage(s, u, x);
        assert IsMessage(s1, u, x);
      }
      if MessageStored(s1, x) {
        var u :| IsMessage(s1, u, x);
        assert IsMessage(s, u, x);
      }
    }
  }

  function With(s: State, t: nat, turn: Turn): State { s.(turns := s.turns[t := turn]) }

  lemma RequestIsClaimed(s: State, t: nat, r: Request)
    requires Fresh(s, t, r)
    ensures ComesTo(s, t, With(s, t, Turn(r, Claims(true, false, false, None), if r.retryOf.Some? then FindingTarget else FindingMessage,
                                          false, false, false, [])).(requests := s.requests + {r.rid}))
  {
    assert Plays(s, t, [], s);
    var s1 := With(s, t, s.turns[t].(at := FindingRequest));
    Passes(s, s, t, true, 0, s1);
    assert !RequestStored(s1, r.rid);
    var turn2 := Turn(r, Claims(true, false, false, None), if r.retryOf.Some? then FindingTarget else FindingMessage, false, false, false, []);
    assert s.turns[t := s.turns[t].(at := FindingRequest)][t := turn2] == s.turns[t := turn2];
    Passes(s, s1, t, true, 0, With(s, t, turn2).(requests := s.requests + {r.rid}));
  }

  /** The message to be retried was interrupted, is in this conversation, and has not been
      retried; `u` is the turn that it belongs to. */
  ghost predicate Retryable(s: State, r: Request, u: nat) {
    && r.retryOf.Some? && IsMessage(s, u, r.retryOf.value) && (forall v | IsMessage(s, v, r.retryOf.value) :: v == u)
    && u in s.rows && s.rows[u] == Stopped
    && (r.conv.Some? ==> r.conv.value == s.users[u].conv) && s.users[u].conv !in s.conversations
    && !RetryStored(s, r.retryOf.value) && r.retryOf.value !in s.retries
  }

  lemma RetryIsClaimed(start: State, s: State, t: nat, turn: Turn, u: nat)
    requires ComesTo(start, t, s) && t in s.turns && s.turns[t] == turn && turn.at == FindingTarget && Retryable(s, turn.request, u)
    ensures ComesTo(start, t, With(s, t, turn.(at := FindingMessage, claims := turn.claims.(retry := true),
                                               request := turn.request.(conv := Some(s.users[u].conv))))
                              .(retries := s.retries + {turn.request.retryOf.value}))
  {
    var s1 := With(s, t, turn.(at := FindingRetry(s.users[u].conv, true)));
    assert MessageStored(s, turn.request.retryOf.value);
    Passes(start, s, t, true, 0, s1);
    assert !RetryStored(s1, turn.request.retryOf.value);
    var turn2 := turn.(at := FindingMessage, claims := turn.claims.(retry := true), request := turn.request.(conv := Some(s.users[u].conv)));
    assert s.turns[t := turn.(at := FindingRetry(s.users[u].conv, true))][t := turn2] == s.turns[t := turn2];
    Passes(start, s1, t, true, 0, With(s, t, turn2).(retries := s.retries + {turn.request.retryOf.value}));
  }

  /** The claimed message enters its conversation, or waits for a new one. */
  lemma MessageIsClaimed(start: State, s: State, t: nat, turn: Turn)
    requires ComesTo(start, t, s) && t in s.turns && s.turns[t] == turn && turn.at == FindingMessage
    requires !MessageStored(s, turn.request.mid) && turn.request.mid !in s.messages
    requires turn.request.conv.Some? ==> turn.request.conv.value !in s.conversations
    ensures ComesTo(start, t,
                    With(s, t, turn.(at := Preparing, claims := turn.claims.(message := true, conv :=
                           if turn.request.conv.Some? then turn.request.conv else turn.claims.conv)))
                      .(messages := s.messages + {turn.request.mid},
                        conversations := s.conversations + if turn.request.conv.Some? then {turn.request.conv.value} else {}))
  {
    var conv := turn.request.conv;
    var at := if conv.Some? then Loading else Preparing;
    var turn1 := turn.(at := at, claims := turn.claims.(message := true, conv := if conv.Some? then conv else turn.claims.conv));
    var s1 := With(s, t, turn1).(messages := s.messages + {turn.request.mid},
                                 conversations := s.conversations + if conv.Some? then {conv.value} else {});
    assert s.conversations + {} == s.conversations;
    Passes(start, s, t, true, 0, s1);
    if conv.Some? {
      assert s.turns[t := turn1][t := turn1.(at := Preparing)] == s.turns[t := turn1.(at := Preparing)];
      Passes(start, s1, t, true, 0, With(s1, t, turn1.(at := Preparing)));
    }
  }

  /** The prompt is built, and a conversation is made if there is none. */
  lemma TurnIsPrepared(start: State, s: State, t: nat, turn: Turn, newId: nat)
    requires ComesTo(start, t, s) && t in s.turns && s.turns[t] == turn && turn.at == Preparing
    requires turn.claims.conv.None? ==> newId !in s.conversations
    ensures var c := if turn.claims.conv.Some? then turn.claims.conv.value else newId;
            ComesTo(start, t, With(s, t, turn.(at := Allocating, claims := turn.claims.(conv := Some(c))))
                                .(conversations := s.conversations + if turn.claims.conv.Some? then {} else {c}))
  {
    assert s.conversations + {} == s.conversations;
    if turn.claims.conv.Some? {
      Passes(start, s, t, true, 0, With(s, t, turn.(at := Allocating)));
    } else {
      var s1 := With(s, t, turn.(at := Creating));
      Passes(start, s, t, true, 0, s1);
      var turn2 := turn.(at := Allocating, claims := turn.claims.(conv := Some(newId)));
      assert s.turns[t := turn.(at := Creating)][t := turn2] == s.turns[t := turn2];
      Passes(start, s1, t, true, newId, With(s, t, turn2).(conversations := s.conversations + {newId}));
    }
  }

  /** Both rows are allocated, the answer streams and is stored, and the completion sent. */
  lemma TurnIsAnswered(start: State, s: State, t: nat, turn: Turn)
    requires ComesTo(start, t, s) && t in s.turns && s.turns[t] == turn && turn.at == Allocating && t !in s.rows && t !in s.users
    requires !Clashes(s, turn.request) && turn.claims.conv.Some? && turn.reports == []
    ensures ComesTo(start, t,
                    With(s, t, turn.(at := Announcing, known := true, persisted := true, attempted := true, reports := [Completion]))
                      .(users := s.users[t := User(turn.request.rid, turn.request.mid, turn.request.retryOf, turn.claims.conv.value)],
                        rows := s.rows[t := Finished]))
  {
    var r := turn.request;
    var known := turn.(known := true);
    var s1 := s.(users := s.users[t := User(r.rid, r.mid, r.retryOf, turn.claims.conv.value)], rows := s.rows[t := Generating]);
    Passes(start, s, t, true, 0, With(s1, t, known.(at := Accepting)));
    TurnStreams(start, s1, t, known.(at := Accepting));
    TurnIsStored(start, s1, t, known.(at := Completing));
    assert s.rows[t := Generating][t := Finished] == s.rows[t := Finished];
  }

  lemma TurnStreams(start: State, s: State, t: nat, turn: Turn)
    requires t in s.turns && turn.at == Accepting && ComesTo(start, t, With(s, t, turn))
    ensures ComesTo(start, t, With(s, t, turn.(at := Completing)))
  {
    assert s.turns[t := turn][t := turn.(at := Streaming)] == s.turns[t := turn.(at := Streaming)];
    Passes(start, With(s, t, turn), t, true, 0, With(s, t, turn.(at := Streaming)));
    assert s.turns[t := turn.(at := Streaming)][t := turn.(at := Completing)] == s.turns[t := turn.(at := Completing)];
    Passes(start, With(s, t, turn.(at := Streaming)), t, false, 0, With(s, t, turn.(at := Completing)));
  }

  lemma TurnIsStored(start: State, s: State, t: nat, turn: Turn)
    requires t in s.turns && turn.at == Completing && turn.reports == [] && t in s.rows && s.rows[t] == Generating
    requires ComesTo(start, t, With(s, t, turn))
    ensures ComesTo(start, t, With(s, t, turn.(at := Announcing, persisted := true, attempted := true, reports := [Completion]))
                                .(rows := s.rows[t := Finished]))
  {
    var stored := turn.(at := Announcing, persisted := true, attempted := true, reports := [Completion]);
    assert s.turns[t := turn][t := stored] == s.turns[t := stored] && [] + [Completion] == [Completion];
    Passes(start, With(s, t, turn), t, true, 0, With(s, t, stored).(rows := s.rows[t := Finished]));
  }

  /** ... and the claims are given back. */
  lemma TurnEnds(start: State, s: State, t: nat, turn: Turn)
    requires ComesTo(start, t, s) && t in s.turns && s.turns[t] == turn && turn.at == Announcing
    requires turn.claims.request && turn.claims.message && turn.claims.conv.Some? && turn.claims.retry == turn.request.retryOf.Some?
    ensures ComesTo(start, t, With(s, t, turn.(at := Ended))
                                .(requests := s.requests - {turn.request.rid}, messages := s.messages - {turn.request.mid},
                                  conversations := s.conversations - {turn.claims.conv.value},
                                  retries := if turn.request.retryOf.Some? then s.retries - {turn.request.retryOf.value} else s.retries))
  {
    assert s.turns[t := turn] == s.turns;
    Passes(start, s, t, true, 0, With(s, t, turn.(at := Ended))
                                   .(requests := s.requests - {turn.request.rid}, messages := s.messages - {turn.request.mid},
                                     conversations := s.conversations - {turn.claims.conv.value},
                                     retries := if turn.request.retryOf.Some? then s.retries - {turn.request.retryOf.value} else s.retries));
  }

  /** The conversation that a request ends up in. */
  ghost function Home(s: State, r: Request, u: nat, newId: nat): nat {
    if r.retryOf.Some? && u in s.users then s.users[u].conv else if r.conv.Some? then r.conv.value else newId
  }

  ghost predicate Welcome(s: State, t: nat, r: Request, u: nat, newId: nat) {
    && Fresh(s, t, r) && (r.retryOf.Some? ==> Retryable(s, r, u)) && Home(s, r, u, newId) !in s.conversations
  }

  /** Everything is claimed. */
  ghost function Claimed(s: State, t: nat, r: Request, u: nat, newId: nat): State {
    With(s, t, Turn(r.(conv := if r.retryOf.Some? then Some(Home(s, r, u, newId)) else r.conv),
                    Claims(true, true, r.retryOf.Some?, Some(Home(s, r, u, newId))), Allocating, false, false, false, []))
      .(requests := s.requests + {r.rid}, messages := s.messages + {r.mid},
        conversations := s.conversations + {Home(s, r, u, newId)},
        retries := if r.retryOf.Some? then s.retries + {r.retryOf.value} else s.retries)
  }

  lemma RequestIsAdmitted(s: State, t: nat, r: Request, u: nat, newId: nat)
    requires Welcome(s, t, r, u, newId)
    ensures ComesTo(s, t, Claimed(s, t, r, u, newId))
  {
    var home := Home(s, r, u, newId);
    var r1 := r.(conv := if r.retryOf.Some? then Some(home) else r.conv);
    var turn1 := Turn(r1, Claims(true, false, r.retryOf.Some?, None), FindingMessage, false, false, false, []);
    var s1 := With(s, t, turn1).(requests := s.requests + {r.rid}, retries := if r.retryOf.Some? then s.retries + {r.retryOf.value} else s.retries);
    RequestIsClaimed(s, t, r);
    if r.retryOf.Some? {
      RetryFollows(s, t, r, u);
    }
    assert ComesTo(s, t, s1) by {
      if r.retryOf.None? {
        assert r1 == r.(conv := r.conv) == r;
      }
    }
    SameUsers(s, s1);
    MessageIsClaimed(s, s1, t, turn1);
    MessageFollows(s, s1, t, turn1, home);
    var last := turn1.(at := Allocating, claims := turn1.claims.(message := true, conv := Some(home)));
    assert s.turns[t := turn1][t := last] == s.turns[t := last];
  }

  lemma RetryFollows(s: State, t: nat, r: Request, u: nat)
    requires Fresh(s, t, r) && Retryable(s, r, u)
    requires ComesTo(s, t, With(s, t, Turn(r, Claims(true, false, false, None), FindingTarget, false, false, false, []))
                             .(requests := s.requests + {r.rid}))
    ensures ComesTo(s, t, With(s, t, Turn(r.(conv := Some(s.users[u].conv)), Claims(true, false, true, None), FindingMessage,
                                          false, false, false, []))
                            .(requests := s.requests + {r.rid}, retries := s.retries + {r.retryOf.value}))
  {
    var turn := Turn(r, Claims(true, false, false, None), FindingTarget, false, false, false, []);
    var s1 := With(s, t, turn).(requests := s.requests + {r.rid});
    SameUsers(s, s1);
    assert Retryable(s1, r, u);
    RetryIsClaimed(s, s1, t, turn, u);
    var turn2 := Turn(r.(conv := Some(s.users[u].conv)), Claims(true, false, true, None), FindingMessage, false, false, false, []);
    assert s.turns[t := turn][t := turn2] == s.turns[t := turn2];
  }

  lemma MessageFollows(start: State, s: State, t: nat, turn: Turn, home: nat)
    requires t in s.turns && s.turns[t] == turn && turn.at == FindingMessage && turn.claims.conv.None?
    requires turn.request.conv.Some? ==> turn.request.conv.value == home
    requires home !in s.conversations
    requires ComesTo(start, t,
                     With(s, t, turn.(at := Preparing, claims := turn.claims.(message := true, conv :=
                            if turn.request.conv.Some? then turn.request.conv else turn.claims.conv)))
                       .(messages := s.messages + {turn.request.mid},
                         conversations := s.conversations + if turn.request.conv.Some? then {turn.request.conv.value} else {}))
    ensures ComesTo(start, t, With(s, t, turn.(at := Allocating, claims := turn.claims.(message := true, conv := Some(home))))
                                .(messages := s.messages + {turn.request.mid}, conversations := s.conversations + {home}))
  {
    var turn1 := turn.(at := Preparing, claims := turn.claims.(message := true, conv := turn.request.conv));
    var turn2 := turn.(at := Allocating, claims := turn.claims.(message := true, conv := Some(home)));
    var s1 := With(s, t, turn1).(messages := s.messages + {turn.request.mid},
                                 conversations := s.conversations + if turn.request.conv.Some? then {turn.request.conv.value} else {});
    TurnIsPrepared(start, s1, t, turn1, home);
    assert s.turns[t := turn1][t := turn2] == s.turns[t := turn2];
    assert s.conversations + {home} + {} == s.conversations + {home} && s.conversations + {} + {home} == s.conversations + {home};
  }

  /** A fresh request, a retry of an interrupted message or not, in an old conversation
      or a new one, is admitted and answered when nothing goes wrong: both rows are
      stored with its ids, the completion is announced, and no claim is left. */
  lemma FreshRequestIsAnswered(s: State, t: nat, r: Request, u: nat, newId: nat) returns (s': State)
    requires Welcome(s, t, r, u, newId)
    ensures ComesTo(s, t, s')
    ensures t in s'.turns && s'.turns[t].at == Ended && s'.turns[t].reports == [Completion]
    ensures s'.users == s.users[t := User(r.rid, r.mid, r.retryOf, Home(s, r, u, newId))] && s'.rows == s.rows[t := Finished]
    ensures s'.turns == s.turns[t := s'.turns[t]]
    ensures s'.requests == s.requests && s'.messages == s.messages && s'.retries == s.retries && s'.conversations == s.conversations
  {
    var s1 := Claimed(s, t, r, u, newId);
    var turn := s1.turns[t];
    RequestIsAdmitted(s, t, r, u, newId);
    NothingClashes(s, s1, r);
    TurnIsAnswered(s, s1, t, turn);
    var turn2 := turn.(at := Announcing, known := true, persisted := true, attempted := true, reports := [Completion]);
    var s2 := With(s1, t, turn2).(users := s.users[t := User(r.rid, r.mid, r.retryOf, Home(s, r, u, newId))], rows := s.rows[t := Finished]);
    s' := Released(s, s2, t, turn2);
    GivenBack(s, t, r, u, newId);
    assert s.turns[t := turn][t := turn2][t := turn2.(at := Ended)] == s.turns[t := turn2.(at := Ended)];
  }

  lemma NothingClashes(s: State, s1: State, r: Request)
    requires !RequestStored(s, r.rid) && !MessageStored(s, r.mid) && (r.retryOf.Some? ==> !RetryStored(s, r.retryOf.value))
    requires s1.users == s.users
    ensures forall conv :: !Clashes(s1, r.(conv := conv))
  {
    SameUsers(s, s1);
  }

  lemma Released(start: State, s: State, t: nat, turn: Turn) returns (s': State)
    requires ComesTo(start, t, s) && t in s.turns && s.turns[t] == turn && turn.at == Announcing
    requires turn.claims.request && turn.claims.message && turn.claims.conv.Some? && turn.claims.retry == turn.request.retryOf.Some?
    ensures ComesTo(start, t, s')
    ensures s' == With(s, t, turn.(at := Ended))
                    .(requests := s.requests - {turn.request.rid}, messages := s.messages - {turn.request.mid},
                      conversations := s.conversations - {turn.claims.conv.value},
                      retries := if turn.request.retryOf.Some? then s.retries - {turn.request.retryOf.value} else s.retries)
  {
    TurnEnds(start, s, t, turn);
    s' := With(s, t, turn.(at := Ended))
            .(requests := s.requests - {turn.request.rid}, messages := s.messages - {turn.request.mid},
              conversations := s.conversations - {turn.claims.conv.value},
              retries := if turn.request.retryOf.Some? then s.retries - {turn.request.retryOf.value} else s.retries);
  }

  lemma GivenBack(s: State, t: nat, r: Request, u: nat, newId: nat)
    requires Welcome(s, t, r, u, newId)
    ensures var c := Claimed(s, t, r, u, newId);
            && c.requests - {r.rid} == s.requests && c.messages - {r.mid} == s.messages
            && c.conversations - {Home(s, r, u, newId)} == s.conversations
            && (r.retryOf.Some? ==> c.retries - {r.retryOf.value} == s.retries)
  {
  }

  // -------------------------------------------------------------- a request refused

  /** The turn is rejected where it stands, and nothing else changes. */
  predicate TurnedAway(s: State, s': State, t: nat, locked: bool)
    requires t in s.turns
  {
    s' == With(s, t, s.turns[t].(at := Rejecting(locked), reports := s.turns[t].reports + [Rejection]))
  }

  /** Lookups that miss nothing refuse every id that is stored or in flight. */
  lemma DuplicateIsRejected(s: State, t: nat, ch: Choice)
    requires Enabled(s, Run(t, ch)) && ch.fault == Smooth && !ch.stale
    ensures var r, s' := s.turns[t].request, Do(s, Run(t, ch));
            && (s.turns[t].at.FindingRequest? ==>
                  (TurnedAway(s, s', t, true) <==> RequestStored(s, r.rid) || r.rid in s.requests))
            && (s.turns[t].at.FindingMessage? ==>
                  (TurnedAway(s, s', t, true) <==> MessageStored(s, r.mid) || r.mid in s.messages))
  {
  }

  /** A conversation that is generating refuses a further turn, which has claimed its
      message by then. */
  lemma BusyConversationRejects(s: State, t: nat, ch: Choice)
    requires Enabled(s, Run(t, ch)) && ch.fault == Smooth && !ch.stale && s.turns[t].at.FindingMessage?
    requires !MessageStored(s, s.turns[t].request.mid) && s.turns[t].request.mid !in s.messages
    ensures var r, turn, s' := s.turns[t].request, s.turns[t], Do(s, Run(t, ch));
            s'.turns[t].at == Rejecting(false) <==> r.conv.Some? && r.conv.value in s.conversations
  {
  }

  /** A retry is refused unless its target was interrupted, lies in the conversation that
      is asked for, and has not been retried and is not being retried. */
  lemma RetryIsRejected(s: State, t: nat, first: Choice, second: Choice, u: nat)
    requires Enabled(s, Run(t, first)) && first.fault == Smooth && !first.stale && s.turns[t].at.FindingTarget?
    requires var r := s.turns[t].request;
             r.retryOf.Some? && IsMessage(s, u, r.retryOf.value) && forall v | IsMessage(s, v, r.retryOf.value) :: v == u
    requires Enabled(Do(s, Run(t, first)), Run(t, second)) && second.fault == Smooth && !second.stale
    ensures var r, s' := s.turns[t].request, Do(Do(s, Run(t, first)), Run(t, second));
            && (s'.turns[t].at == FindingMessage <==>
                  && u in s.rows && s.rows[u] == Stopped && !RetryStored(s, r.retryOf.value) && r.retryOf.value !in s.retries
                  && (r.conv.Some? ==> r.conv.value == s.users[u].conv))
            && (s'.turns[t].at != FindingMessage ==> s'.turns[t].at == Rejecting(true) && s'.retries == s.retries)
  {
    var s1 := Do(s, Run(t, first));
    assert MessageStored(s, s.turns[t].request.retryOf.value);
    assert s1 == With(s, t, s.turns[t].(at := FindingRetry(s.users[u].conv, u in s.rows && s.rows[u] == Stopped)));
    SameUsers(s, s1);
  }

  /** So is one whose target does not exist. */
  lemma MissingTargetIsRejected(s: State, t: nat, ch: Choice)
    requires Enabled(s, Run(t, ch)) && ch.fault == Smooth && s.turns[t].at.FindingTarget? && s.turns[t].request.retryOf.Some?
    requires !MessageStored(s, s.turns[t].request.retryOf.value)
    ensures TurnedAway(s, Do(s, Run(t, ch)), t, true)
  {
  }
}
