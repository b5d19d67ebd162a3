/** The chat turn: concurrent `generate` tasks that claim identifiers, allocate a
    durable turn, stream and settle, with a cancellation or an exception possible at
    every await, and the transaction in flight applied or not. */
module ChatTurn {
  import opened Options

  // ---------------------------------------------------------------- data model

  datatype Request = Request(rid: nat, mid: nat, retryOf: Option<nat>, conv: Option<nat>)

  datatype Claims = Claims(request: bool, message: bool, retry: bool, conv: Option<nat>)

  /** The durable state of an allocated assistant message. */
  datatype Assistant = Generating | Finished | Stopped

  /** The durable user message, with the identifiers its table keeps unique. */
  datatype User = User(rid: nat, mid: nat, retryOf: Option<nat>, conv: nat)

  /** Events that end a turn for the client: a rejection before acceptance,
      assistant.completed, chat.cancelled, LLM_STREAM_INTERRUPTED. */
  datatype Report = Rejection | Completion | Cancellation | Interruption

  /** The await at which a task is suspended. */
  datatype Stage =
    | Entering                                    // the idempotency lock
    | FindingRequest | FindingTarget | FindingRetry(conv: nat, stopped: bool) | FindingMessage
    | Rejecting(locked: bool)
    | Loading | Preparing | Creating | Allocating | Explaining
    | Accepting | Streaming | Completing
    | Announcing                                  // assistant.completed, in the body
    | Settling(cancelled: bool)                   // the handler's update to interrupted
    | Correcting                                  // assistant.completed, in a handler
    | Reporting                                   // the handler's own terminal event
    | Ended

  datatype Turn = Turn(
    request: Request,
    claims: Claims,
    at: Stage,
    known: bool,                                  // assistant_message_id is set
    persisted: bool,
    attempted: bool,
    reports: seq<Report>                          // the terminal sends attempted
  )

  datatype State = State(
    turns: map<nat, Turn>,
    requests: set<nat>,
    messages: set<nat>,
    retries: set<nat>,
    conversations: set<nat>,
    users: map<nat, User>,                        // by the turn that allocated it
    rows: map<nat, Assistant>
  )

  datatype Fault = Smooth | Raise | CancelTask

  /** How an await ends; whether a transaction cut short was applied; whether a
      lookup missed a row; a new conversation id; which way the model or the
      settings decide. */
  datatype Choice = Choice(fault: Fault, applied: bool, stale: bool, newId: nat, flag: bool)

  predicate InLock(at: Stage) {
    at.FindingRequest? || at.FindingTarget? || at.FindingRetry? || at.FindingMessage? || (at.Rejecting? && at.locked)
  }

  // -------------------------------------------------------------- shared tables

  ghost predicate RequestStored(s: State, rid: nat) {
    exists u :: u in s.users && s.users[u].rid == rid
  }

  ghost predicate IsMessage(s: State, u: nat, mid: nat) {
    u in s.users && s.users[u].mid == mid
  }

  ghost predicate MessageStored(s: State, mid: nat) {
    exists u :: IsMessage(s, u, mid)
  }

  ghost predicate RetryStored(s: State, target: nat) {
    exists u :: u in s.users && s.users[u].retryOf == Some(target)
  }

  /** The unique indexes of the messages table. */
  ghost predicate Clashes(s: State, r: Request) {
    RequestStored(s, r.rid) || MessageStored(s, r.mid) || (r.retryOf.Some? && RetryStored(s, r.retryOf.value))
  }

  function WithTurn(s: State, t: nat, turn: Turn): State {
    s.(turns := s.turns[t := turn])
  }

  /** The finally clause: give back exactly what this task claimed. */
  function Finish(s: State, t: nat): State
    requires t in s.turns
  {
    var turn := s.turns[t];
    s.(turns := s.turns[t := turn.(at := Ended)],
       conversations := if turn.claims.conv.Some? then s.conversations - {turn.claims.conv.value} else s.conversations,
       requests := if turn.claims.request then s.requests - {turn.request.rid} else s.requests,
       messages := if turn.claims.message then s.messages - {turn.request.mid} else s.messages,
       retries := if turn.claims.retry && turn.request.retryOf.Some? then s.retries - {turn.request.retryOf.value} else s.retries)
  }

  function Reject(s: State, t: nat, turn: Turn): State {
    WithTurn(s, t, turn.(at := Rejecting(InLock(turn.at)), reports := turn.reports + [Rejection]))
  }

  /** The handler's terminal event. */
  function Tell(s: State, t: nat, turn: Turn, cancelled: bool): State {
    WithTurn(s, t, turn.(at := Reporting, reports := turn.reports + [if cancelled then Cancellation else Interruption]))
  }

  /** The except clauses, entered from the body of the task. */
  function Handle(s: State, t: nat, turn: Turn, cancelled: bool): State {
    if turn.persisted then Finish(WithTurn(s, t, turn), t)
    else if turn.known then WithTurn(s, t, turn.(at := Settling(cancelled)))
    else Tell(s, t, turn, cancelled)
  }

  /** An await that does not return: in a handler nothing more is sent. */
  function Break(s: State, t: nat, turn: Turn, cancelled: bool): State {
    if turn.at.Settling? || turn.at.Correcting? || turn.at.Reporting? then Finish(WithTurn(s, t, turn), t)
    else Handle(s, t, turn, cancelled)
  }

  /** update_message(..., expected_state="generating"). */
  function CompareAndSet(s: State, t: nat, to: Assistant): State {
    if t in s.rows && s.rows[t] == Generating then s.(rows := s.rows[t := to]) else s
  }

  /** allocate_turn: both rows, or nothing. */
  ghost function Allocate(s: State, t: nat, turn: Turn): State {
    if Clashes(s, turn.request) || turn.claims.conv.None? then s
    else
      var r := turn.request;
      s.(users := s.users[t := User(r.rid, r.mid, r.retryOf, turn.claims.conv.value)],
         rows := s.rows[t := Generating])
  }

  /** What the transaction in flight does to the tables. */
  ghost function Applied(s: State, t: nat, turn: Turn): State {
    match turn.at
    case Allocating => Allocate(s, t, turn)
    case Completing => CompareAndSet(s, t, Finished)
    case Settling(_) => CompareAndSet(s, t, Stopped)
    case _ => s
  }

  // ------------------------------------------------------------- the happy paths

  // Admission, under the idempotency lock.

  ghost function FindRequest(s: State, t: nat, turn: Turn, ch: Choice): State {
    var r := turn.request;
    if (RequestStored(s, r.rid) && !ch.stale) || r.rid in s.requests then Reject(s, t, turn)
    else
      WithTurn(s.(requests := s.requests + {r.rid}), t,
               turn.(claims := turn.claims.(request := true),
                     at := if r.retryOf.Some? then FindingTarget else FindingMessage))
  }

  ghost function FindTarget(s: State, t: nat, turn: Turn, ch: Choice): State {
    var r := turn.request;
    if r.retryOf.None? || ch.stale || !MessageStored(s, r.retryOf.value) then Reject(s, t, turn)
    else
      var u :| IsMessage(s, u, r.retryOf.value);
      WithTurn(s, t, turn.(at := FindingRetry(s.users[u].conv, u in s.rows && s.rows[u] == Stopped)))
  }

  ghost function FindRetry(s: State, t: nat, turn: Turn, conv: nat, stopped: bool, ch: Choice): State {
    var r := turn.request;
    if r.retryOf.None? || (RetryStored(s, r.retryOf.value) && !ch.stale) || !stopped
       || (r.conv.Some? && r.conv.value != conv) || r.retryOf.value in s.retries
    then Reject(s, t, turn)
    else
      WithTurn(s.(retries := s.retries + {r.retryOf.value}), t,
               turn.(claims := turn.claims.(retry := true), request := r.(conv := Some(conv)), at := FindingMessage))
  }

  ghost function FindMessage(s: State, t: nat, turn: Turn, ch: Choice): State {
    var mid := turn.request.mid;
    if (MessageStored(s, mid) && !ch.stale) || mid in s.messages then Reject(s, t, turn)
    else EnterConversation(s.(messages := s.messages + {mid}), t, turn.(claims := turn.claims.(message := true)))
  }

  /** The lock is released; a conversation that is generating is not entered. */
  function EnterConversation(s: State, t: nat, turn: Turn): State {
    var conv := turn.request.conv;
    var free := conv.Some? && conv.value !in s.conversations;
    s.(turns := s.turns[t := Entered(turn, free)],
       conversations := if free then s.conversations + {conv.value} else s.conversations)
  }

  function Entered(turn: Turn, free: bool): Turn {
    if free then turn.(claims := turn.claims.(conv := turn.request.conv), at := Loading)
    else if turn.request.conv.None? then turn.(at := Preparing)
    else turn.(at := Rejecting(false), reports := turn.reports + [Rejection])
  }

  ghost function Admission(s: State, t: nat, turn: Turn, ch: Choice): State {
    match turn.at
    case FindingRequest => FindRequest(s, t, turn, ch)
    case FindingTarget => FindTarget(s, t, turn, ch)
    case FindingRetry(conv, stopped) => FindRetry(s, t, turn, conv, stopped, ch)
    case FindingMessage => FindMessage(s, t, turn, ch)
    case _ => s
  }

  /** From the loaded history to the claimed conversation. */
  function Preparation(s: State, t: nat, turn: Turn, ch: Choice): State {
    match turn.at
    case Loading => if ch.flag then WithTurn(s, t, turn.(at := Preparing)) else Reject(s, t, turn)
    case Preparing =>
      if !ch.flag then Reject(s, t, turn)
      else WithTurn(s, t, turn.(at := if turn.claims.conv.None? then Creating else Allocating))
    case Creating =>
      WithTurn(s.(conversations := s.conversations + {ch.newId}), t,
               turn.(claims := turn.claims.(conv := Some(ch.newId)), at := Allocating))
    case _ => s
  }

  /** From the allocated turn to the end of the stream. */
  ghost function Acceptance(s: State, t: nat, turn: Turn, ch: Choice): State {
    match turn.at
    case Allocating =>
      if Clashes(s, turn.request) then WithTurn(s, t, turn.(at := Explaining))
      else WithTurn(Allocate(s, t, turn), t, turn.(at := Accepting, known := true))
    case Explaining =>
      // the lookups that explain a clash; a clash they do not find is raised again
      if Clashes(s, turn.request) && !ch.stale then Reject(s, t, turn) else Handle(s, t, turn, false)
    case Accepting => WithTurn(s, t, turn.(at := Streaming))
    case Streaming => if ch.flag then s else WithTurn(s, t, turn.(at := Completing))
    case _ => s
  }

  /** emit_durable_completion after a row was read: validation lets only a completed
      row through, and the attempt is noted before it. */
  function Emit(s: State, t: nat, turn: Turn, next: Stage): State {
    if t in s.rows && s.rows[t] == Finished then
      WithTurn(s, t, turn.(at := next, persisted := true, attempted := true, reports := turn.reports + [Completion]))
    else Finish(WithTurn(s, t, turn.(persisted := true, attempted := true)), t)
  }

  function Complete(s: State, t: nat, turn: Turn): State {
    var s1 := CompareAndSet(s, t, Finished);
    if t !in s1.rows then Handle(s1, t, turn, false) else Emit(s1, t, turn, Announcing)
  }

  function Settle(s: State, t: nat, turn: Turn, cancelled: bool): State {
    var s1 := CompareAndSet(s, t, Stopped);
    if t in s1.rows && s1.rows[t] == Finished then Emit(s1, t, turn, Correcting)
    else Tell(s1, t, turn, cancelled)
  }

  function Settlement(s: State, t: nat, turn: Turn): State {
    match turn.at
    case Completing => Complete(s, t, turn)
    case Settling(cancelled) => Settle(s, t, turn, cancelled)
    case Ended => s
    case _ => Finish(s.(turns := s.turns[t := turn]), t)
  }

  ghost function Resume(s: State, t: nat, turn: Turn, ch: Choice): State {
    if turn.at.Entering? then WithTurn(s, t, turn.(at := FindingRequest))
    else if turn.at.FindingRequest? || turn.at.FindingTarget? || turn.at.FindingRetry? || turn.at.FindingMessage? then
      Admission(s, t, turn, ch)
    else if turn.at.Completing? || turn.at.Settling? || turn.at.Announcing? || turn.at.Correcting? || turn.at.Reporting?
            || turn.at.Rejecting? || turn.at.Ended? then
      Settlement(s, t, turn)
    else if turn.at.Loading? || turn.at.Preparing? || turn.at.Creating? then Preparation(s, t, turn, ch)
    else Acceptance(s, t, turn, ch)
  }

  // ---------------------------------------------------------------------- runs

  datatype Action =
    | Start(turn: nat, request: Request)
    | Run(task: nat, choice: Choice)
    | Delete(row: nat)                            // the conversation is deleted

  ghost predicate Enabled(s: State, a: Action) {
    match a
    case Start(t, _) => t !in s.turns
    case Run(t, ch) =>
      && t in s.turns && !s.turns[t].at.Ended?
      && (ch.fault == Smooth && s.turns[t].at.Entering? ==> forall u | u in s.turns :: !InLock(s.turns[u].at))
      // a new conversation id is not known to any other request yet
      && (s.turns[t].at.Creating? ==> ch.newId !in s.conversations)
    case Delete(t) => t in s.rows
  }

  ghost function Do(s: State, a: Action): State
    requires Enabled(s, a)
  {
    match a
    case Start(t, r) => WithTurn(s, t, Turn(r, Claims(false, false, false, None), Entering, false, false, false, []))
    case Run(t, ch) =>
      var turn := s.turns[t];
      if ch.fault == Smooth then Resume(s, t, turn, ch)
      else Break(if ch.applied then Applied(s, t, turn) else s, t, turn, ch.fault == CancelTask)
    case Delete(t) => s.(rows := s.rows - {t})
  }

  function Initial(): State {
    State(map[], {}, {}, {}, {}, map[], map[])
  }

  ghost predicate IsRun(states: seq<State>, actions: seq<Action>) {
    && |states| == |actions| + 1
    && states[0] == Initial()
    && forall i | 0 <= i < |actions| :: Enabled(states[i], actions[i]) && states[i + 1] == Do(states[i], actions[i])
  }

  // -------------------------------------------------------------- durable truth

  predicate IsCompleted(s: State, t: nat) {
    t in s.rows && s.rows[t] == Finished
  }

  /** Has the turn got to where its rows exist? */
  predicate BeforeRows(at: Stage) {
    || at.Entering? || InLock(at) || at.Loading? || at.Preparing? || at.Creating? || at.Allocating? || at.Explaining?
    || at.Rejecting?
  }

  predicate InBody(at: Stage) {
    BeforeRows(at) || at.Accepting? || at.Streaming? || at.Completing?
  }

  function RowOf(s: State, t: nat): Option<Assistant> {
    if t in s.rows then Some(s.rows[t]) else None
  }

  /** What a turn has reported, and what that says about its durable row. */
  predicate Fits(turn: Turn, stored: bool, row: Option<Assistant>) {
    && (row.Some? ==> stored)
    && (BeforeRows(turn.at) ==> row.None? && !stored && !turn.known)
    && (InBody(turn.at) ==>
          && !turn.persisted && !turn.attempted && row != Some(Finished)
          && turn.reports == if turn.at.Rejecting? then [Rejection] else [])
    && (turn.at.Loading? || turn.at.Allocating? ==> turn.claims.conv.Some?)
    && (turn.at.Accepting? || turn.at.Streaming? || turn.at.Completing? ==> turn.known && stored)
    && (turn.at.Settling? ==> turn.known && !turn.persisted && !turn.attempted && turn.reports == [])
    && (turn.at.Announcing? || turn.at.Correcting? ==> turn.persisted && turn.reports == [Completion])
    && (turn.at.Reporting? ==> turn.reports != [])
    && Truthful(turn.reports, row)
  }

  /** At most one of the three terminal events, at most a failed rejection before it,
      and each in accordance with the durable row. */
  predicate Truthful(reports: seq<Report>, row: Option<Assistant>) {
    || reports == [] || reports == [Rejection]
    || (reports == [Completion] && (row.None? || row == Some(Finished)))
    || ((reports == [Cancellation] || reports == [Interruption]
         || reports == [Rejection, Cancellation] || reports == [Rejection, Interruption]) && row != Some(Finished))
  }

  predicate TurnOk(s: State, t: nat)
    requires t in s.turns
  {
    Fits(s.turns[t], t in s.users, RowOf(s, t))
  }

  ghost predicate TurnsOk(s: State) {
    && (forall t | t in s.turns :: TurnOk(s, t))
    && (forall t | t in s.users || t in s.rows :: t in s.turns)
  }

  /** Only one task's turn and rows differ; the claims are not looked at. */
  ghost predicate OnlyTurn(s: State, s': State, t: nat) {
    && s'.turns.Keys == s.turns.Keys + {t}
    && (forall u | u in s.turns && u != t :: s'.turns[u] == s.turns[u])
    && (forall u | u != t :: (u in s'.users <==> u in s.users) && RowOf(s', u) == RowOf(s, u))
  }

  lemma OnlyTurnOk(s: State, s': State, t: nat)
    requires TurnsOk(s) && OnlyTurn(s, s', t) && TurnOk(s', t)
    ensures TurnsOk(s')
  {
    forall u | u in s'.turns ensures TurnOk(s', u) {
      if u != t { assert TurnOk(s, u); }
    }
    forall u | u in s'.users || u in s'.rows ensures u in s'.turns {
      if u != t { assert RowOf(s', u) == RowOf(s, u); }
    }
  }

  lemma FinishOk(s: State, t: nat)
    requires t in s.turns && Truthful(s.turns[t].reports, RowOf(s, t)) && (RowOf(s, t).Some? ==> t in s.users)
    ensures OnlyTurn(s, Finish(s, t), t) && TurnOk(Finish(s, t), t)
  {
  }

  lemma HandleOk(s: State, t: nat, turn: Turn, cancelled: bool)
    requires t in s.turns
    requires Truthful(turn.reports, RowOf(s, t)) && (RowOf(s, t).Some? ==> t in s.users)
    requires turn.persisted || (!turn.attempted && (turn.reports == [] || (!turn.known && turn.reports == [Rejection])))
    requires !turn.persisted && !turn.known ==> RowOf(s, t) != Some(Finished)
    ensures var s' := Handle(s, t, turn, cancelled); OnlyTurn(s, s', t) && TurnOk(s', t)
  {
    if turn.persisted { FinishOk(WithTurn(s, t, turn), t); }
  }

  lemma AdmissionOk(s: State, t: nat, ch: Choice)
    requires t in s.turns && TurnOk(s, t) && InLock(s.turns[t].at) && !s.turns[t].at.Rejecting?
    ensures var s' := Admission(s, t, s.turns[t], ch); OnlyTurn(s, s', t) && TurnOk(s', t)
  {
    var turn, s' := s.turns[t], Admission(s, t, s.turns[t], ch);
    assert s'.rows == s.rows && s'.users == s.users && s'.turns == s.turns[t := s'.turns[t]];
    assert s'.turns[t].reports == if s'.turns[t].at.Rejecting? then [Rejection] else [];
  }

  lemma AllocationOk(s: State, t: nat)
    requires t in s.turns && TurnOk(s, t) && s.turns[t].at.Allocating? && !Clashes(s, s.turns[t].request)
    ensures var s' := WithTurn(Allocate(s, t, s.turns[t]), t, s.turns[t].(at := Accepting, known := true));
            OnlyTurn(s, s', t) && TurnOk(s', t)
  {
  }

  lemma PreparationOk(s: State, t: nat, ch: Choice)
    requires t in s.turns && TurnOk(s, t)
    requires s.turns[t].at.Loading? || s.turns[t].at.Preparing? || s.turns[t].at.Creating?
    ensures var s' := Preparation(s, t, s.turns[t], ch); OnlyTurn(s, s', t) && TurnOk(s', t)
  {
  }

  lemma AcceptanceOk(s: State, t: nat, ch: Choice)
    requires t in s.turns && TurnOk(s, t)
    requires s.turns[t].at.Allocating? || s.turns[t].at.Explaining? || s.turns[t].at.Accepting? || s.turns[t].at.Streaming?
    ensures var s' := Acceptance(s, t, s.turns[t], ch); OnlyTurn(s, s', t) && TurnOk(s', t)
  {
    var turn := s.turns[t];
    if turn.at.Allocating? {
      if !Clashes(s, turn.request) { AllocationOk(s, t); }
    } else if turn.at.Explaining? {
      HandleOk(s, t, turn, false);
    }
  }

  lemma EmitOk(s: State, t: nat, turn: Turn, next: Stage)
    requires t in s.turns && turn.reports == [] && (RowOf(s, t).Some? ==> t in s.users) && (next.Announcing? || next.Correcting?)
    ensures var s' := Emit(s, t, turn, next); OnlyTurn(s, s', t) && TurnOk(s', t)
  {
    if RowOf(s, t) != Some(Finished) {
      FinishOk(WithTurn(s, t, turn.(persisted := true, attempted := true)), t);
    }
  }

  lemma OnlyTurnComposes(s: State, s1: State, s': State, t: nat)
    requires t in s.turns && OnlyTurn(s, s1, t) && OnlyTurn(s1, s', t)
    ensures OnlyTurn(s, s', t)
  {
  }

  lemma CompletingOk(s: State, t: nat)
    requires t in s.turns && TurnOk(s, t) && s.turns[t].at.Completing?
    ensures var s' := Complete(s, t, s.turns[t]); OnlyTurn(s, s', t) && TurnOk(s', t)
  {
    var turn, s1 := s.turns[t], CompareAndSet(s, t, Finished);
    if t in s1.rows { EmitOk(s1, t, turn, Announcing); } else { HandleOk(s1, t, turn, false); }
    OnlyTurnComposes(s, s1, Complete(s, t, turn), t);
  }

  lemma SettlingOk(s: State, t: nat)
    requires t in s.turns && TurnOk(s, t) && s.turns[t].at.Settling?
    ensures var s' := Settle(s, t, s.turns[t], s.turns[t].at.cancelled); OnlyTurn(s, s', t) && TurnOk(s', t)
  {
    var turn, s1 := s.turns[t], CompareAndSet(s, t, Stopped);
    if RowOf(s1, t) == Some(Finished) { EmitOk(s1, t, turn, Correcting); }
    OnlyTurnComposes(s, s1, Settle(s, t, turn, turn.at.cancelled), t);
  }

  lemma SettlementOk(s: State, t: nat)
    requires t in s.turns && TurnOk(s, t) && !s.turns[t].at.Entering?
    ensures var s' := Settlement(s, t, s.turns[t]); OnlyTurn(s, s', t) && TurnOk(s', t)
  {
    var turn := s.turns[t];
    if turn.at.Completing? { CompletingOk(s, t); }
    else if turn.at.Settling? { SettlingOk(s, t); }
    else if !turn.at.Ended? { FinishOk(s.(turns := s.turns[t := turn]), t); }
  }

  lemma AppliedOk(s: State, t: nat)
    requires t in s.turns && TurnOk(s, t)
    ensures var s1, turn := Applied(s, t, s.turns[t]), s.turns[t];
            && s1.turns == s.turns && OnlyTurn(s, s1, t)
            && Truthful(turn.reports, RowOf(s1, t)) && (RowOf(s1, t).Some? ==> t in s1.users)
            && (RowOf(s, t) != Some(Finished) && !turn.at.Completing? ==> RowOf(s1, t) != Some(Finished))
  {
  }

  /** An await that breaks after its transaction left the state s1. */
  lemma BreakFrom(s: State, s1: State, t: nat, cancelled: bool)
    requires t in s.turns && TurnOk(s, t) && !s.turns[t].at.Ended?
    requires s1.turns == s.turns && OnlyTurn(s, s1, t)
    requires Truthful(s.turns[t].reports, RowOf(s1, t)) && (RowOf(s1, t).Some? ==> t in s1.users)
    requires RowOf(s, t) != Some(Finished) && !s.turns[t].at.Completing? ==> RowOf(s1, t) != Some(Finished)
    ensures var s' := Break(s1, t, s.turns[t], cancelled); OnlyTurn(s, s', t) && TurnOk(s', t)
  {
    var turn := s.turns[t];
    if turn.at.Settling? || turn.at.Correcting? || turn.at.Reporting? {
      FinishOk(WithTurn(s1, t, turn), t);
    } else {
      HandleOk(s1, t, turn, cancelled);
    }
    OnlyTurnComposes(s, s1, Break(s1, t, turn, cancelled), t);
  }

  lemma BreakOk(s: State, t: nat, applied: bool, cancelled: bool)
    requires t in s.turns && TurnOk(s, t) && !s.turns[t].at.Ended?
    ensures var s' := Break(if applied then Applied(s, t, s.turns[t]) else s, t, s.turns[t], cancelled);
            OnlyTurn(s, s', t) && TurnOk(s', t)
  {
    if applied {
      AppliedOk(s, t);
      BreakFrom(s, Applied(s, t, s.turns[t]), t, cancelled);
    } else {
      BreakFrom(s, s, t, cancelled);
    }
  }

  lemma ResumeOk(s: State, t: nat, ch: Choice)
    requires t in s.turns && TurnOk(s, t)
    ensures var s' := Resume(s, t, s.turns[t], ch); OnlyTurn(s, s', t) && TurnOk(s', t)
  {
    var at := s.turns[t].at;
    if at.Entering? {}
    else if InLock(at) && !at.Rejecting? { AdmissionOk(s, t, ch); }
    else if at.Loading? || at.Preparing? || at.Creating? { PreparationOk(s, t, ch); }
    else if at.Allocating? || at.Explaining? || at.Accepting? || at.Streaming? { AcceptanceOk(s, t, ch); }
    else { SettlementOk(s, t); }
  }

  lemma StepOk(s: State, a: Action)
    requires TurnsOk(s) && Enabled(s, a)
    ensures TurnsOk(Do(s, a))
  {
    match a
    case Start(t, _) => OnlyTurnOk(s, Do(s, a), t);
    case Delete(t) => OnlyTurnOk(s, Do(s, a), t);
    case Run(t, ch) =>
      assert TurnOk(s, t);
      if ch.fault != Smooth { BreakOk(s, t, ch.applied, ch.fault == CancelTask); } else { ResumeOk(s, t, ch); }
      OnlyTurnOk(s, Do(s, a), t);
  }

  lemma TurnsOkNext(states: seq<State>, actions: seq<Action>, i: nat)
    requires IsRun(states, actions) && i < |actions| && TurnsOk(states[i])
    ensures TurnsOk(states[i + 1])
  {
    StepOk(states[i], actions[i]);
  }

  lemma {:induction false} RunsKeepTurns(states: seq<State>, actions: seq<Action>, i: nat)
    requires IsRun(states, actions) && i < |states|
    ensures TurnsOk(states[i])
  {
    if i > 0 {
      RunsKeepTurns(states, actions, i - 1);
      TurnsOkNext(states, actions, i - 1);
    }
  }

  /** Whatever is cut short, and wherever: assistant.completed goes out only for a
      completed row, chat.cancelled and LLM_STREAM_INTERRUPTED only for a row that is
      not and never becomes completed, and at most one of the three is attempted. */
  lemma DurableTruth(states: seq<State>, actions: seq<Action>, i: nat, t: nat)
    requires IsRun(states, actions) && i < |states| && t in states[i].turns
    ensures var s, reports := states[i], states[i].turns[t].reports;
            && (Completion in reports && t in s.rows ==> s.rows[t] == Finished)
            && (Cancellation in reports || Interruption in reports ==> !IsCompleted(s, t))
            && (|reports| <= 1 || (|reports| == 2 && reports[0] == Rejection && reports[1] in {Cancellation, Interruption}))
  {
    RunsKeepTurns(states, actions, i);
    assert TurnOk(states[i], t);
  }

  /** A second terminal event follows exactly when the send of a rejection failed. */
  lemma RejectionFollowedWhenItsSendFails(s: State, t: nat, ch: Choice)
    requires TurnsOk(s) && Enabled(s, Run(t, ch)) && s.turns[t].at.Rejecting?
    ensures var turn := Do(s, Run(t, ch)).turns[t];
            && (ch.fault == Smooth <==> turn.at == Ended)
            && turn.reports == [Rejection] + (if ch.fault == Smooth then [] else if ch.fault == CancelTask then [Cancellation] else [Interruption])
  {
    assert TurnOk(s, t);
  }

  ghost predicate Durable(s: State, t: nat) {
    t in s.users && t in s.turns && !BeforeRows(s.turns[t].at) && (IsCompleted(s, t) || t !in s.rows)
  }

  lemma OwnStepKeepsCompleted(s: State, t: nat, ch: Choice)
    requires TurnsOk(s) && Enabled(s, Run(t, ch)) && Durable(s, t)
    ensures Durable(Do(s, Run(t, ch)), t)
  {
    assert TurnOk(s, t);
    if ch.fault == Smooth { ResumeOk(s, t, ch); }
  }

  lemma StepKeepsCompleted(s: State, a: Action, t: nat)
    requires TurnsOk(s) && Enabled(s, a) && Durable(s, t)
    ensures Durable(Do(s, a), t)
  {
    if a.Run? && a.task == t {
      OwnStepKeepsCompleted(s, t, a.choice);
    } else if a.Run? {
      assert TurnOk(s, a.task);
      if a.choice.fault != Smooth { BreakOk(s, a.task, a.choice.applied, a.choice.fault == CancelTask); }
      else { ResumeOk(s, a.task, a.choice); }
      assert RowOf(Do(s, a), t) == RowOf(s, t);
    }
  }

  /** A completed row stays completed as long as it exists, and once deleted it
      never comes back. */
  lemma {:induction false} CompletedNeverRegresses(states: seq<State>, actions: seq<Action>, i: nat, j: nat, t: nat)
    requires IsRun(states, actions) && i <= j < |states| && IsCompleted(states[i], t)
    ensures Durable(states[j], t)
    decreases j - i
  {
    RunsKeepTurns(states, actions, i);
    assert TurnOk(states[i], t);
    if i < j {
      CompletedNeverRegresses(states, actions, i, j - 1, t);
      DurableNext(states, actions, j - 1, t);
    }
  }

  lemma DurableNext(states: seq<State>, actions: seq<Action>, i: nat, t: nat)
    requires IsRun(states, actions) && i < |actions| && Durable(states[i], t)
    ensures Durable(states[i + 1], t)
  {
    RunsKeepTurns(states, actions, i);
    StepKeepsCompleted(states[i], actions[i], t);
  }

  // ---------------------------------------------------------------------- claims

  /** What a live task claims of each kind. */
  datatype Kind = ByRequest | ByMessage | ByRetry | ByConversation

  function ClaimOf(turn: Turn, kind: Kind): Option<nat> {
    if turn.at.Ended? then None
    else
      match kind
      case ByRequest => if turn.claims.request then Some(turn.request.rid) else None
      case ByMessage => if turn.claims.message then Some(turn.request.mid) else None
      case ByRetry => if turn.claims.retry then turn.request.retryOf else None
      case ByConversation => turn.claims.conv
  }

  function InFlight(s: State, kind: Kind): set<nat> {
    match kind
    case ByRequest => s.requests
    case ByMessage => s.messages
    case ByRetry => s.retries
    case ByConversation => s.conversations
  }

  ghost function ClaimsOf(s: State, kind: Kind): map<nat, Option<nat>> {
    map t | t in s.turns :: ClaimOf(s.turns[t], kind)
  }

  /** The claimed ids are exactly the in-flight set, and no two tasks claim one id. */
  ghost predicate Matches(claims: map<nat, Option<nat>>, inflight: set<nat>) {
    && (forall t | t in claims && claims[t].Some? :: claims[t].value in inflight)
    && (forall x | x in inflight :: exists t :: t in claims && claims[t] == Some(x))
    && (forall t, u | t in claims && u in claims && claims[t].Some? && claims[t] == claims[u] :: t == u)
  }

  ghost predicate ClaimsOk(s: State) {
    && (forall kind :: Matches(ClaimsOf(s, kind), InFlight(s, kind)))
    && (forall t | t in s.turns :: StageClaims(s.turns[t]))
  }

  function Value(claim: Option<nat>): set<nat> {
    if claim.Some? then {claim.value} else {}
  }

  /** A task keeps its claim, gives it up, or takes a free id; the set follows. */
  predicate Moves(before: Option<nat>, after: Option<nat>, inflight: set<nat>, inflight': set<nat>) {
    || (after == before && inflight' == inflight)
    || (after == None && inflight' == inflight - Value(before))
    || (before == None && after.Some? && after.value !in inflight && inflight' == inflight + {after.value})
  }

  lemma MoveMatches(claims: map<nat, Option<nat>>, t: nat, after: Option<nat>, inflight: set<nat>, inflight': set<nat>)
    requires Matches(claims, inflight)
    requires Moves(if t in claims then claims[t] else None, after, inflight, inflight')
    ensures Matches(claims[t := after], inflight')
  {
    var claims' := claims[t := after];
    forall x | x in inflight' ensures exists u :: u in claims' && claims'[u] == Some(x) {
      if after != Some(x) {
        var u :| u in claims && claims[u] == Some(x);
        assert claims'[u] == Some(x);
      } else {
        assert claims'[t] == Some(x);
      }
    }
  }

  /** Which claims a task holds at each await. */
  predicate StageClaims(turn: Turn) {
    var claims := turn.claims;
    && (claims.retry ==> turn.request.retryOf.Some?)
    && (turn.at.Entering? || turn.at.FindingRequest? ==> claims == Claims(false, false, false, None))
    && (turn.at.FindingTarget? || turn.at.FindingRetry? ==> claims == Claims(true, false, false, None))
    && (turn.at.FindingMessage? ==>
          claims.request && !claims.message && claims.conv.None? && (turn.request.retryOf.Some? ==> claims.retry))
    && (turn.at.Loading? || turn.at.Preparing? || turn.at.Creating? || Generative(turn.at) ==>
          claims.request && claims.message && (turn.request.retryOf.Some? ==> claims.retry))
    && (turn.at.Creating? ==> claims.conv.None?)
    && (Generative(turn.at) ==> claims.conv.Some?)
  }

  /** From the allocation to the announced completion. */
  predicate Generative(at: Stage) {
    at.Allocating? || at.Accepting? || at.Streaming? || at.Completing? || at.Announcing?
  }

  /** One task moved: its claims of every kind moved with the in-flight sets. */
  ghost predicate Claimed(s: State, s': State, t: nat)
    requires t in s.turns
  {
    && t in s'.turns
    && s'.turns == s.turns[t := s'.turns[t]]
    && StageClaims(s'.turns[t])
    && forall kind :: Moves(ClaimOf(s.turns[t], kind), ClaimOf(s'.turns[t], kind), InFlight(s, kind), InFlight(s', kind))
  }

  lemma ClaimedOk(s: State, s': State, t: nat)
    requires ClaimsOk(s) && t in s.turns && Claimed(s, s', t)
    ensures ClaimsOk(s')
  {
    forall kind ensures Matches(ClaimsOf(s', kind), InFlight(s', kind)) {
      MoveMatches(ClaimsOf(s, kind), t, ClaimOf(s'.turns[t], kind), InFlight(s, kind), InFlight(s', kind));
      assert ClaimsOf(s', kind) == ClaimsOf(s, kind)[t := ClaimOf(s'.turns[t], kind)];
    }
  }

  lemma FinishClaims(s: State, s1: State, t: nat)
    requires t in s.turns && !s.turns[t].at.Ended? && StageClaims(s.turns[t])
    requires SameSets(s, s1) && t in s1.turns && s1.turns == s.turns[t := s1.turns[t]] && !s1.turns[t].at.Ended?
    requires s1.turns[t].claims == s.turns[t].claims && s1.turns[t].request == s.turns[t].request
    ensures Claimed(s, Finish(s1, t), t)
  {
  }

  predicate SameSets(s: State, s1: State) {
    s1.requests == s.requests && s1.messages == s.messages && s1.retries == s.retries && s1.conversations == s.conversations
  }

  lemma FindRequestClaims(s: State, t: nat, ch: Choice)
    requires t in s.turns && StageClaims(s.turns[t]) && s.turns[t].at.FindingRequest?
    ensures Claimed(s, FindRequest(s, t, s.turns[t], ch), t)
  {
  }

  lemma FindTargetClaims(s: State, t: nat, ch: Choice)
    requires t in s.turns && StageClaims(s.turns[t]) && s.turns[t].at.FindingTarget?
    ensures Claimed(s, FindTarget(s, t, s.turns[t], ch), t)
  {
  }

  lemma FindRetryClaims(s: State, t: nat, ch: Choice)
    requires t in s.turns && StageClaims(s.turns[t]) && s.turns[t].at.FindingRetry?
    ensures Claimed(s, FindRetry(s, t, s.turns[t], s.turns[t].at.conv, s.turns[t].at.stopped, ch), t)
  {
  }

  /** Nothing was claimed or given up. */
  lemma SameClaims(s: State, s': State, t: nat)
    requires t in s.turns && t in s'.turns && s'.turns == s.turns[t := s'.turns[t]] && SameSets(s, s')
    requires s'.turns[t].claims == s.turns[t].claims && s'.turns[t].request == s.turns[t].request
    requires !s.turns[t].at.Ended? && !s'.turns[t].at.Ended? && StageClaims(s'.turns[t])
    ensures Claimed(s, s', t)
  {
  }

  /** The message was claimed, and perhaps the conversation with it. */
  lemma MessageClaims(s: State, s': State, t: nat, conv: Option<nat>)
    requires t in s.turns && s.turns[t].at.FindingMessage? && StageClaims(s.turns[t])
    requires t in s'.turns && s'.turns == s.turns[t := s'.turns[t]] && !s'.turns[t].at.Ended?
    requires s'.turns[t].request == s.turns[t].request && StageClaims(s'.turns[t])
    requires s'.turns[t].claims == s.turns[t].claims.(message := true, conv := conv)
    requires s.turns[t].request.mid !in s.messages && (conv.Some? ==> conv.value !in s.conversations)
    requires s'.requests == s.requests && s'.retries == s.retries
    requires s'.messages == s.messages + {s.turns[t].request.mid} && s'.conversations == s.conversations + Value(conv)
    ensures Claimed(s, s', t)
  {
    assert conv.None? ==> s'.conversations == s.conversations;
  }

  lemma FindMessageClaims(s: State, t: nat, ch: Choice)
    requires t in s.turns && StageClaims(s.turns[t]) && s.turns[t].at.FindingMessage?
    ensures Claimed(s, FindMessage(s, t, s.turns[t], ch), t)
  {
    var s', r := FindMessage(s, t, s.turns[t], ch), s.turns[t].request;
    if (MessageStored(s, r.mid) && !ch.stale) || r.mid in s.messages {
      SameClaims(s, s', t);
    } else {
      MessageClaims(s, s', t, if r.conv.Some? && r.conv.value in s.conversations then None else r.conv);
    }
  }

  lemma CreatingClaims(s: State, t: nat, ch: Choice)
    requires t in s.turns && StageClaims(s.turns[t]) && s.turns[t].at.Creating? && ch.newId !in s.conversations
    ensures Claimed(s, Preparation(s, t, s.turns[t], ch), t)
  {
  }

  lemma PreparationClaims(s: State, t: nat, ch: Choice)
    requires t in s.turns && StageClaims(s.turns[t])
    requires s.turns[t].at.Loading? || s.turns[t].at.Preparing? || s.turns[t].at.Creating?
    requires s.turns[t].at.Creating? ==> ch.newId !in s.conversations
    ensures Claimed(s, Preparation(s, t, s.turns[t], ch), t)
  {
    if s.turns[t].at.Creating? {
      CreatingClaims(s, t, ch);
    } else {
      SameClaims(s, Preparation(s, t, s.turns[t], ch), t);
    }
  }

  lemma HandleClaims(s: State, s1: State, t: nat, turn: Turn, cancelled: bool)
    requires t in s.turns && !s.turns[t].at.Ended? && StageClaims(s.turns[t])
    requires SameSets(s, s1) && s1.turns == s.turns
    requires turn.claims == s.turns[t].claims && turn.request == s.turns[t].request && !turn.at.Ended?
    ensures Claimed(s, Handle(s1, t, turn, cancelled), t)
  {
    if turn.persisted { FinishClaims(s, WithTurn(s1, t, turn), t); }
  }

  lemma AcceptanceClaims(s: State, t: nat, ch: Choice)
    requires t in s.turns && StageClaims(s.turns[t])
    requires s.turns[t].at.Allocating? || s.turns[t].at.Accepting? || s.turns[t].at.Streaming?
    ensures Claimed(s, Acceptance(s, t, s.turns[t], ch), t)
  {
    var s' := Acceptance(s, t, s.turns[t], ch);
    assert s'.turns == s.turns[t := s'.turns[t]] && SameSets(s, s');
    SameClaims(s, s', t);
  }

  lemma ExplainingClaims(s: State, t: nat, ch: Choice)
    requires t in s.turns && StageClaims(s.turns[t]) && s.turns[t].at.Explaining?
    ensures Claimed(s, Acceptance(s, t, s.turns[t], ch), t)
  {
    HandleClaims(s, s, t, s.turns[t], false);
  }

  lemma EmitClaims(s: State, s1: State, t: nat, turn: Turn, next: Stage)
    requires t in s.turns && StageClaims(s.turns[t]) && turn == s.turns[t] && SameSets(s, s1) && s1.turns == s.turns
    requires (turn.at.Completing? && next == Announcing) || (turn.at.Settling? && next == Correcting)
    ensures Claimed(s, Emit(s1, t, turn, next), t)
  {
    FinishClaims(s, WithTurn(s1, t, turn.(persisted := true, attempted := true)), t);
  }

  lemma CompleteClaims(s: State, t: nat)
    requires t in s.turns && StageClaims(s.turns[t]) && s.turns[t].at.Completing?
    ensures Claimed(s, Complete(s, t, s.turns[t]), t)
  {
    var s1, turn := CompareAndSet(s, t, Finished), s.turns[t];
    if t in s1.rows { EmitClaims(s, s1, t, turn, Announcing); } else { HandleClaims(s, s1, t, turn, false); }
  }

  lemma SettleClaims(s: State, t: nat)
    requires t in s.turns && StageClaims(s.turns[t]) && s.turns[t].at.Settling?
    ensures Claimed(s, Settle(s, t, s.turns[t], s.turns[t].at.cancelled), t)
  {
    var s1 := CompareAndSet(s, t, Stopped);
    if IsCompleted(s1, t) {
      EmitClaims(s, s1, t, s.turns[t], Correcting);
    } else {
      SameClaims(s, Settle(s, t, s.turns[t], s.turns[t].at.cancelled), t);
    }
  }

  lemma EndClaims(s: State, t: nat)
    requires t in s.turns && StageClaims(s.turns[t]) && !s.turns[t].at.Completing? && !s.turns[t].at.Settling?
    ensures Claimed(s, Settlement(s, t, s.turns[t]), t)
  {
    if !s.turns[t].at.Ended? {
      FinishClaims(s, s.(turns := s.turns[t := s.turns[t]]), t);
    }
  }

  lemma BreakClaims(s: State, t: nat, applied: bool, cancelled: bool)
    requires t in s.turns && StageClaims(s.turns[t]) && !s.turns[t].at.Ended?
    ensures Claimed(s, Break(if applied then Applied(s, t, s.turns[t]) else s, t, s.turns[t], cancelled), t)
  {
    var s1, turn := if applied then Applied(s, t, s.turns[t]) else s, s.turns[t];
    HandleClaims(s, s1, t, turn, cancelled);
    FinishClaims(s, WithTurn(s1, t, turn), t);
  }

  lemma ResumeClaims(s: State, t: nat, ch: Choice)
    requires t in s.turns && StageClaims(s.turns[t])
    requires s.turns[t].at.Creating? ==> ch.newId !in s.conversations
    ensures Claimed(s, Resume(s, t, s.turns[t], ch), t)
  {
    match s.turns[t].at
    case Entering =>
    case FindingRequest => FindRequestClaims(s, t, ch);
    case FindingTarget => FindTargetClaims(s, t, ch);
    case FindingRetry(_, _) => FindRetryClaims(s, t, ch);
    case FindingMessage => FindMessageClaims(s, t, ch);
    case Loading => PreparationClaims(s, t, ch);
    case Preparing => PreparationClaims(s, t, ch);
    case Creating => PreparationClaims(s, t, ch);
    case Allocating => AcceptanceClaims(s, t, ch);
    case Explaining => ExplainingClaims(s, t, ch);
    case Accepting => AcceptanceClaims(s, t, ch);
    case Streaming => AcceptanceClaims(s, t, ch);
    case Completing => CompleteClaims(s, t);
    case Settling(_) => SettleClaims(s, t);
    case _ => EndClaims(s, t);
  }

  lemma StartClaims(s: State, t: nat, r: Request)
    requires ClaimsOk(s) && t !in s.turns
    ensures ClaimsOk(WithTurn(s, t, Turn(r, Claims(false, false, false, None), Entering, false, false, false, [])))
  {
    var s' := WithTurn(s, t, Turn(r, Claims(false, false, false, None), Entering, false, false, false, []));
    forall kind ensures Matches(ClaimsOf(s', kind), InFlight(s', kind)) {
      MoveMatches(ClaimsOf(s, kind), t, None, InFlight(s, kind), InFlight(s', kind));
      assert ClaimsOf(s', kind) == ClaimsOf(s, kind)[t := None];
    }
  }

  lemma StepClaims(s: State, a: Action)
    requires ClaimsOk(s) && Enabled(s, a)
    ensures ClaimsOk(Do(s, a))
  {
    match a
    case Start(t, r) => StartClaims(s, t, r);
    case Delete(t) =>
      forall kind ensures Matches(ClaimsOf(Do(s, a), kind), InFlight(Do(s, a), kind)) {
        assert ClaimsOf(Do(s, a), kind) == ClaimsOf(s, kind);
      }
    case Run(t, ch) =>
      if ch.fault != Smooth { BreakClaims(s, t, ch.applied, ch.fault == CancelTask); } else { ResumeClaims(s, t, ch); }
      ClaimedOk(s, Do(s, a), t);
  }

  lemma ClaimsOkNext(states: seq<State>, actions: seq<Action>, i: nat)
    requires IsRun(states, actions) && i < |actions| && ClaimsOk(states[i])
    ensures ClaimsOk(states[i + 1])
  {
    StepClaims(states[i], actions[i]);
  }

  lemma {:induction false} RunsKeepClaims(states: seq<State>, actions: seq<Action>, i: nat)
    requires IsRun(states, actions) && i < |states|
    ensures ClaimsOk(states[i])
  {
    if i > 0 {
      RunsKeepClaims(states, actions, i - 1);
      ClaimsOkNext(states, actions, i - 1);
    }
  }

  /** In every reachable state the four in-flight sets are exactly the claims of the
      live tasks, no two tasks share a claim, and two turns that may be generating
      are in different conversations. */
  lemma ClaimsAreExclusive(states: seq<State>, actions: seq<Action>, i: nat)
    requires IsRun(states, actions) && i < |states|
    ensures var s := states[i];
            && (forall kind: Kind, x: nat :: x in InFlight(s, kind) <==> exists t :: t in s.turns && ClaimOf(s.turns[t], kind) == Some(x))
            && (forall kind: Kind, t, u | t in s.turns && u in s.turns && t != u && ClaimOf(s.turns[t], kind).Some? ::
                  ClaimOf(s.turns[t], kind) != ClaimOf(s.turns[u], kind))
            && (forall t, u | t in s.turns && u in s.turns && t != u && Generative(s.turns[t].at) && Generative(s.turns[u].at) ::
                  s.turns[t].claims.conv.Some? && s.turns[t].claims.conv != s.turns[u].claims.conv)
  {
    RunsKeepClaims(states, actions, i);
    var s := states[i];
    forall kind: Kind, x: nat
      ensures x in InFlight(s, kind) <==> exists t :: t in s.turns && ClaimOf(s.turns[t], kind) == Some(x)
    {
      var claims := ClaimsOf(s, kind);
      assert Matches(claims, InFlight(s, kind));
      if x in InFlight(s, kind) {
        var t :| t in claims && claims[t] == Some(x);
        assert ClaimOf(s.turns[t], kind) == Some(x);
      }
      forall t | t in s.turns && ClaimOf(s.turns[t], kind) == Some(x) ensures x in InFlight(s, kind) {
        assert claims[t].Some?;
      }
    }
    NoSharing(s);
  }

  lemma NoSharing(s: State)
    requires ClaimsOk(s)
    ensures forall kind: Kind, t, u | t in s.turns && u in s.turns && t != u && ClaimOf(s.turns[t], kind).Some? ::
              ClaimOf(s.turns[t], kind) != ClaimOf(s.turns[u], kind)
    ensures forall t, u | t in s.turns && u in s.turns && t != u && Generative(s.turns[t].at) && Generative(s.turns[u].at) ::
              s.turns[t].claims.conv.Some? && s.turns[t].claims.conv != s.turns[u].claims.conv
  {
    forall kind: Kind, t, u | t in s.turns && u in s.turns && t != u && ClaimOf(s.turns[t], kind).Some?
      ensures ClaimOf(s.turns[t], kind) != ClaimOf(s.turns[u], kind)
    {
      var claims := ClaimsOf(s, kind);
      assert Matches(claims, InFlight(s, kind));
      assert claims[t] == ClaimOf(s.turns[t], kind) && claims[u] == ClaimOf(s.turns[u], kind);
    }
    forall t, u | t in s.turns && u in s.turns && t != u && Generative(s.turns[t].at) && Generative(s.turns[u].at)
      ensures s.turns[t].claims.conv.Some? && s.turns[t].claims.conv != s.turns[u].claims.conv
    {
      assert StageClaims(s.turns[t]) && StageClaims(s.turns[u]);
      assert ClaimOf(s.turns[t], ByConversation) == s.turns[t].claims.conv;
      assert ClaimOf(s.turns[u], ByConversation) == s.turns[u].claims.conv;
    }
  }

  /** When all tasks have ended nothing is in flight. */
  lemma NothingLeftInFlight(states: seq<State>, actions: seq<Action>, i: nat)
    requires IsRun(states, actions) && i < |states|
    requires forall t | t in states[i].turns :: states[i].turns[t].at.Ended?
    ensures forall kind: Kind :: InFlight(states[i], kind) == {}
  {
    var s := states[i];
    RunsKeepClaims(states, actions, i);
    forall kind: Kind ensures InFlight(s, kind) == {} {
      var claims := ClaimsOf(s, kind);
      assert Matches(claims, InFlight(s, kind));
      assert forall t | t in claims :: claims[t] == None;
    }
  }

  // ------------------------------------------------- the unique indexes are a backstop

  /** No user row of another turn carries an id that this turn has claimed. */
  ghost predicate Owned(users: map<nat, User>, t: nat, turn: Turn) {
    forall u | u in users && u != t ::
      && ClaimOf(turn, ByRequest) != Some(users[u].rid)
      && ClaimOf(turn, ByMessage) != Some(users[u].mid)
      && (ClaimOf(turn, ByRetry).Some? ==> ClaimOf(turn, ByRetry) != users[u].retryOf)
  }

  ghost predicate AllOwned(s: State) {
    forall t | t in s.turns :: Owned(s.users, t, s.turns[t])
  }

  /** One durable user row per request id, client message id and retry target. */
  ghost predicate UsersUnique(users: map<nat, User>) {
    forall t, u | t in users && u in users && t != u ::
      && users[t].rid != users[u].rid
      && users[t].mid != users[u].mid
      && (users[t].retryOf.Some? ==> users[t].retryOf != users[u].retryOf)
  }

  /** A step leaves the user rows alone, or allocates a turn that clashes with none. */
  ghost predicate UsersStep(s: State, s': State, t: nat)
    requires t in s.turns
  {
    || s'.users == s.users
    || (var r := s.turns[t].request;
        && s.turns[t].at.Allocating? && !Clashes(s, r) && s.turns[t].claims.conv.Some?
        && s'.users == s.users[t := User(r.rid, r.mid, r.retryOf, s.turns[t].claims.conv.value)])
  }

  /** The task keeps its first three claims, or has ended. */
  ghost predicate KeepsClaims(s: State, s': State, t: nat)
    requires t in s.turns
  {
    && t in s'.turns && s'.turns == s.turns[t := s'.turns[t]]
    && s'.turns[t].claims.(conv := None) == s.turns[t].claims.(conv := None)
    && s'.turns[t].request == s.turns[t].request
    && (s.turns[t].at.Ended? ==> s'.turns[t].at.Ended?)
  }

  lemma HandleKeeps(s: State, s1: State, t: nat, cancelled: bool)
    requires t in s.turns && s1.turns == s.turns && !s.turns[t].at.Ended?
    ensures var s' := Handle(s1, t, s.turns[t], cancelled); s'.users == s1.users && KeepsClaims(s, s', t)
  {
  }

  lemma AppliedUsers(s: State, t: nat)
    requires t in s.turns
    ensures var s1 := Applied(s, t, s.turns[t]); s1.turns == s.turns && UsersStep(s, s1, t)
  {
  }

  lemma BreakUsers(s: State, t: nat, applied: bool, cancelled: bool)
    requires t in s.turns && !s.turns[t].at.Ended?
    ensures var s' := Break(if applied then Applied(s, t, s.turns[t]) else s, t, s.turns[t], cancelled);
            UsersStep(s, s', t) && KeepsClaims(s, s', t)
  {
    AppliedUsers(s, t);
    HandleKeeps(s, if applied then Applied(s, t, s.turns[t]) else s, t, cancelled);
  }

  lemma FindRequestUsers(s: State, t: nat, ch: Choice)
    requires t in s.turns && s.turns[t].at.FindingRequest? && !ch.stale && Owned(s.users, t, s.turns[t])
    ensures var s' := FindRequest(s, t, s.turns[t], ch);
            t in s'.turns && s'.turns == s.turns[t := s'.turns[t]] && s'.users == s.users && Owned(s.users, t, s'.turns[t])
  {
    var turn, s' := s.turns[t], FindRequest(s, t, s.turns[t], ch);
    assert s'.turns == s.turns[t := s'.turns[t]];
    assert s'.turns[t].claims == turn.claims || s'.turns[t].claims == turn.claims.(request := true);
    forall u | u in s.users && !RequestStored(s, turn.request.rid) ensures s.users[u].rid != turn.request.rid {
    }
  }

  lemma FindRetryUsers(s: State, t: nat, ch: Choice)
    requires t in s.turns && s.turns[t].at.FindingRetry? && !ch.stale && Owned(s.users, t, s.turns[t])
    ensures var s' := FindRetry(s, t, s.turns[t], s.turns[t].at.conv, s.turns[t].at.stopped, ch);
            t in s'.turns && s'.turns == s.turns[t := s'.turns[t]] && s'.users == s.users && Owned(s.users, t, s'.turns[t])
  {
  }

  lemma EnterKeeps(s: State, t: nat, turn: Turn)
    ensures var s' := EnterConversation(s, t, turn);
            && s'.users == s.users && t in s'.turns && s'.turns == s.turns[t := s'.turns[t]]
            && s'.turns[t].claims.(conv := None) == turn.claims.(conv := None) && s'.turns[t].request == turn.request
  {
  }

  lemma FindMessageUsers(s: State, t: nat, ch: Choice)
    requires t in s.turns && s.turns[t].at.FindingMessage? && !ch.stale && Owned(s.users, t, s.turns[t])
    ensures var s' := FindMessage(s, t, s.turns[t], ch);
            t in s'.turns && s'.turns == s.turns[t := s'.turns[t]] && s'.users == s.users && Owned(s.users, t, s'.turns[t])
  {
    var turn, mid := s.turns[t], s.turns[t].request.mid;
    EnterKeeps(s.(messages := s.messages + {mid}), t, turn.(claims := turn.claims.(message := true)));
    if !MessageStored(s, mid) {
      forall u | u in s.users ensures s.users[u].mid != mid {
        assert !IsMessage(s, u, mid);
      }
    }
  }

  lemma AcceptanceUsers(s: State, t: nat, ch: Choice)
    requires t in s.turns
    requires s.turns[t].at.Allocating? || s.turns[t].at.Explaining? || s.turns[t].at.Accepting? || s.turns[t].at.Streaming?
    ensures var s' := Acceptance(s, t, s.turns[t], ch); UsersStep(s, s', t) && KeepsClaims(s, s', t)
  {
  }

  lemma PreparationUsers(s: State, t: nat, ch: Choice)
    requires t in s.turns && (s.turns[t].at.Loading? || s.turns[t].at.Preparing? || s.turns[t].at.Creating?)
    ensures var s' := Preparation(s, t, s.turns[t], ch); UsersStep(s, s', t) && KeepsClaims(s, s', t)
  {
  }

  lemma EmitUsers(s: State, s1: State, t: nat, next: Stage)
    requires t in s.turns && s1.turns == s.turns && s1.users == s.users && !s.turns[t].at.Ended?
    ensures var s' := Emit(s1, t, s.turns[t], next); s'.users == s.users && KeepsClaims(s, s', t)
  {
    var s' := Emit(s1, t, s.turns[t], next);
    assert s'.turns == s1.turns[t := s'.turns[t]];
  }

  lemma SettleUsers(s: State, t: nat, cancelled: bool)
    requires t in s.turns && s.turns[t].at.Settling?
    ensures var s' := Settle(s, t, s.turns[t], cancelled); UsersStep(s, s', t) && KeepsClaims(s, s', t)
  {
    EmitUsers(s, CompareAndSet(s, t, Stopped), t, Correcting);
  }

  lemma SettlementUsers(s: State, t: nat)
    requires t in s.turns
    ensures var s' := Settlement(s, t, s.turns[t]); UsersStep(s, s', t) && KeepsClaims(s, s', t)
  {
    var turn := s.turns[t];
    if turn.at.Completing? {
      EmitUsers(s, CompareAndSet(s, t, Finished), t, Announcing);
      HandleKeeps(s, CompareAndSet(s, t, Finished), t, false);
    } else if turn.at.Settling? {
      SettleUsers(s, t, turn.at.cancelled);
    }
  }

  /** With lookups that miss nothing, every step keeps the user rows owned. */
  lemma ResumeUsers(s: State, t: nat, ch: Choice)
    requires t in s.turns && !ch.stale && Owned(s.users, t, s.turns[t])
    ensures var s' := Resume(s, t, s.turns[t], ch);
            && UsersStep(s, s', t)
            && t in s'.turns && s'.turns == s.turns[t := s'.turns[t]]
            && (s'.users == s.users ==> Owned(s.users, t, s'.turns[t]))
            && (s'.users != s.users ==> KeepsClaims(s, s', t))
  {
    var at := s.turns[t].at;
    if at.FindingRequest? { FindRequestUsers(s, t, ch); }
    else if at.FindingRetry? { FindRetryUsers(s, t, ch); }
    else if at.FindingMessage? { FindMessageUsers(s, t, ch); }
    else if at.Allocating? || at.Explaining? || at.Accepting? || at.Streaming? {
      AcceptanceUsers(s, t, ch);
      KeptIsOwned(s, Acceptance(s, t, s.turns[t], ch), t);
    } else if at.Loading? || at.Preparing? || at.Creating? {
      PreparationUsers(s, t, ch);
      KeptIsOwned(s, Preparation(s, t, s.turns[t], ch), t);
    } else if !at.Entering? && !at.FindingTarget? {
      SettlementUsers(s, t);
      KeptIsOwned(s, Settlement(s, t, s.turns[t]), t);
    }
  }

  lemma KeptIsOwned(s: State, s': State, t: nat)
    requires t in s.turns && Owned(s.users, t, s.turns[t]) && KeepsClaims(s, s', t)
    ensures Owned(s.users, t, s'.turns[t])
  {
  }

  lemma AllocationKeepsOwned(s: State, s': State, t: nat)
    requires ClaimsOk(s) && AllOwned(s) && t in s.turns && KeepsClaims(s, s', t)
    requires UsersStep(s, s', t) && s'.users != s.users
    ensures AllOwned(s')
  {
    NoSharing(s);
    assert StageClaims(s.turns[t]);
    forall v | v in s'.turns ensures Owned(s'.users, v, s'.turns[v]) {
      if v == t {
        KeptIsOwned(s, s', t);
      } else {
        assert Owned(s.users, v, s.turns[v]);
        assert forall kind: Kind | ClaimOf(s.turns[t], kind).Some? :: ClaimOf(s.turns[t], kind) != ClaimOf(s.turns[v], kind);
        assert ClaimOf(s.turns[t], ByRequest) == Some(s'.users[t].rid);
        assert ClaimOf(s.turns[t], ByMessage) == Some(s'.users[t].mid);
        assert ClaimOf(s.turns[t], ByRetry) == s'.users[t].retryOf;
      }
    }
  }

  predicate Current(a: Action) {
    a.Run? ==> !a.choice.stale
  }

  lemma StepOwned(s: State, a: Action)
    requires ClaimsOk(s) && AllOwned(s) && Enabled(s, a) && Current(a)
    ensures AllOwned(Do(s, a))
  {
    var s' := Do(s, a);
    if a.Run? {
      var t := a.task;
      if a.choice.fault != Smooth {
        BreakUsers(s, t, a.choice.applied, a.choice.fault == CancelTask);
        KeptIsOwned(s, s', t);
      } else {
        ResumeUsers(s, t, a.choice);
      }
      if s'.users != s.users { AllocationKeepsOwned(s, s', t); }
    }
  }

  lemma AllocationKeepsUnique(s: State, s': State, t: nat)
    requires UsersUnique(s.users) && t in s.turns && UsersStep(s, s', t)
    ensures UsersUnique(s'.users)
  {
    if s'.users != s.users {
      var r := s.turns[t].request;
      forall u | u in s.users && u != t
        ensures s.users[u].rid != r.rid && s.users[u].mid != r.mid && (r.retryOf.Some? ==> s.users[u].retryOf != r.retryOf)
      {
        assert IsMessage(s, u, s.users[u].mid);
      }
    }
  }

  /** In every run there is at most one durable user row per request id, per client
      message id and per retry target: the table's unique indexes see to it. */
  lemma {:induction false} OneUserRowPerId(states: seq<State>, actions: seq<Action>, i: nat)
    requires IsRun(states, actions) && i < |states|
    ensures UsersUnique(states[i].users)
  {
    if i > 0 {
      OneUserRowPerId(states, actions, i - 1);
      UniqueNext(states, actions, i - 1);
    }
  }

  lemma UniqueNext(states: seq<State>, actions: seq<Action>, i: nat)
    requires IsRun(states, actions) && i < |actions| && UsersUnique(states[i].users)
    ensures UsersUnique(states[i + 1].users)
  {
    var s, a := states[i], actions[i];
    if a.Run? {
      if a.choice.fault != Smooth {
        BreakUsers(s, a.task, a.choice.applied, a.choice.fault == CancelTask);
      } else {
        ResumeUsersStep(s, a.task, a.choice);
      }
      AllocationKeepsUnique(s, states[i + 1], a.task);
    }
  }

  lemma ResumeUsersStep(s: State, t: nat, ch: Choice)
    requires t in s.turns
    ensures UsersStep(s, Resume(s, t, s.turns[t], ch), t)
  {
    var at := s.turns[t].at;
    if at.Allocating? || at.Explaining? || at.Accepting? || at.Streaming? { AcceptanceUsers(s, t, ch); }
    else if at.Loading? || at.Preparing? || at.Creating? { PreparationUsers(s, t, ch); }
    else if at.Entering? || (InLock(at) && !at.Rejecting?) {}
    else { SettlementUsers(s, t); }
  }

  lemma {:induction false} RunsKeepOwned(states: seq<State>, actions: seq<Action>, i: nat)
    requires IsRun(states, actions) && i < |states|
    requires forall k | 0 <= k < |actions| :: Current(actions[k])
    ensures AllOwned(states[i])
  {
    if i > 0 {
      RunsKeepOwned(states, actions, i - 1);
      OwnedNext(states, actions, i - 1);
    }
  }

  lemma OwnedNext(states: seq<State>, actions: seq<Action>, i: nat)
    requires IsRun(states, actions) && i < |actions| && Current(actions[i]) && AllOwned(states[i])
    ensures AllOwned(states[i + 1])
  {
    RunsKeepClaims(states, actions, i);
    StepOwned(states[i], actions[i]);
  }

  /** As long as no lookup misses a committed row the claims alone keep the ids
      unique: an allocation never meets the unique indexes. */
  lemma ClaimsAloneSuffice(states: seq<State>, actions: seq<Action>, i: nat, t: nat)
    requires IsRun(states, actions) && i < |states|
    requires forall k | 0 <= k < |actions| :: Current(actions[k])
    requires t in states[i].turns && states[i].turns[t].at.Allocating?
    ensures !Clashes(states[i], states[i].turns[t].request)
  {
    var s := states[i];
    RunsKeepOwned(states, actions, i);
    RunsKeepClaims(states, actions, i);
    RunsKeepTurns(states, actions, i);
    var turn := s.turns[t];
    assert Owned(s.users, t, turn) && StageClaims(turn) && TurnOk(s, t);
    forall u | u in s.users
      ensures s.users[u].rid != turn.request.rid && !IsMessage(s, u, turn.request.mid)
      ensures turn.request.retryOf.Some? ==> s.users[u].retryOf != turn.request.retryOf
    {
      assert u != t;
      assert ClaimOf(turn, ByRequest) == Some(turn.request.rid) && ClaimOf(turn, ByMessage) == Some(turn.request.mid);
      assert ClaimOf(turn, ByRetry) == turn.request.retryOf;
    }
  }

  /** Some task other than t claims the id. */
  ghost predicate ClaimedByOther(s: State, t: nat, kind: Kind, x: nat) {
    exists u :: u in s.turns && u != t && ClaimOf(s.turns[u], kind) == Some(x)
  }

  /** A live task gives back exactly its own claims: what is left in flight afterwards
      is what the other tasks claim, and nothing of theirs is lost. */
  lemma ReleaseLeavesOthers(s: State, t: nat)
    requires ClaimsOk(s) && t in s.turns && !s.turns[t].at.Ended?
    ensures forall kind: Kind, x: nat :: x in InFlight(Finish(s, t), kind) <==> ClaimedByOther(s, t, kind, x)
  {
    FinishClaims(s, s, t);
    ClaimedOk(s, Finish(s, t), t);
    forall kind: Kind, x: nat ensures x in InFlight(Finish(s, t), kind) <==> ClaimedByOther(s, t, kind, x) {
      var claims, after := ClaimsOf(s, kind), ClaimsOf(Finish(s, t), kind);
      assert Matches(after, InFlight(Finish(s, t), kind));
      assert after == claims[t := None];
      if x in InFlight(Finish(s, t), kind) {
        var u :| u in after && after[u] == Some(x);
        assert ClaimOf(s.turns[u], kind) == Some(x);
      }
      if ClaimedByOther(s, t, kind, x) {
        var u :| u in s.turns && u != t && ClaimOf(s.turns[u], kind) == Some(x);
        assert after[u].Some?;
      }
    }
  }

  // ------------------------------------------------------------- the shared object

  /** The in-flight sets on the services object, changed in place by the tasks. Each
      method is the part of `generate` that follows a lookup, up to its next await;
      `turn` carries the task's local flags. */
  class Services {
    var requests: set<nat>
    var messages: set<nat>
    var retries: set<nat>
    var conversations: set<nat>

    ghost predicate Represents(s: State)
      reads this
    {
      requests == s.requests && messages == s.messages && retries == s.retries && conversations == s.conversations
    }

    function Taken(kind: Kind): set<nat>
      reads this
    {
      match kind
      case ByRequest => requests
      case ByMessage => messages
      case ByRetry => retries
      case ByConversation => conversations
    }

    constructor ()
      ensures Represents(Initial())
    {
      requests, messages, retries, conversations := {}, {}, {}, {};
    }

    /** `existing`: did find_user_by_request_id return a row? */
    method ClaimRequest(ghost s: State, t: nat, turn: Turn, ghost ch: Choice, existing: bool) returns (turn': Turn)
      requires Represents(s) && turn.at.FindingRequest?
      requires existing == (RequestStored(s, turn.request.rid) && !ch.stale)
      modifies this`requests
      ensures Represents(FindRequest(s, t, turn, ch))
      ensures FindRequest(s, t, turn, ch).turns == s.turns[t := turn']
    {
      if existing || turn.request.rid in requests {
        return turn.(at := Rejecting(true), reports := turn.reports + [Rejection]);
      }
      requests := requests + {turn.request.rid};
      turn' := turn.(claims := turn.claims.(request := true),
                     at := if turn.request.retryOf.Some? then FindingTarget else FindingMessage);
    }

    method ClaimRetry(ghost s: State, t: nat, turn: Turn, ghost ch: Choice, existing: bool) returns (turn': Turn)
      requires Represents(s) && turn.at.FindingRetry? && turn.request.retryOf.Some?
      requires existing == (RetryStored(s, turn.request.retryOf.value) && !ch.stale)
      modifies this`retries
      ensures Represents(FindRetry(s, t, turn, turn.at.conv, turn.at.stopped, ch))
      ensures FindRetry(s, t, turn, turn.at.conv, turn.at.stopped, ch).turns == s.turns[t := turn']
    {
      var r, target := turn.request, turn.at.conv;
      turn' := turn.(at := Rejecting(true), reports := turn.reports + [Rejection]);
      if existing || !turn.at.stopped || (r.conv.Some? && r.conv.value != target) {
        return;
      }
      if r.retryOf.value in retries {
        return;
      }
      retries := retries + {r.retryOf.value};
      turn' := turn.(claims := turn.claims.(retry := true), request := r.(conv := Some(target)), at := FindingMessage);
    }

    method ClaimMessage(ghost s: State, t: nat, turn: Turn, ghost ch: Choice, existing: bool) returns (turn': Turn)
      requires Represents(s) && turn.at.FindingMessage?
      requires existing == (MessageStored(s, turn.request.mid) && !ch.stale)
      modifies this`messages, this`conversations
      ensures Represents(FindMessage(s, t, turn, ch))
      ensures FindMessage(s, t, turn, ch).turns == s.turns[t := turn']
    {
      if existing || turn.request.mid in messages {
        return turn.(at := Rejecting(true), reports := turn.reports + [Rejection]);
      }
      messages := messages + {turn.request.mid};
      turn' := turn.(claims := turn.claims.(message := true));
      if turn.request.conv.None? {
        turn' := turn'.(at := Preparing);
      } else if turn.request.conv.value in conversations {
        turn' := turn'.(at := Rejecting(false), reports := turn.reports + [Rejection]);
      } else {
        conversations := conversations + {turn.request.conv.value};
        turn' := turn'.(claims := turn'.claims.(conv := turn.request.conv), at := Loading);
      }
    }

    /** The finally clause. */
    method Release(ghost s: State, t: nat, turn: Turn)
      requires t in s.turns && s.turns[t] == turn && Represents(s)
      modifies this
      ensures Represents(Finish(s, t))
      ensures ClaimsOk(s) && !turn.at.Ended? ==>
                forall kind: Kind, x: nat :: x in Taken(kind) <==> ClaimedByOther(s, t, kind, x)
    {
      if ClaimsOk(s) && !turn.at.Ended? {
        ReleaseLeavesOthers(s, t);
      }
      if turn.claims.conv.Some? {
        conversations := conversations - {turn.claims.conv.value};
      }
      if turn.claims.request {
        requests := requests - {turn.request.rid};
      }
      if turn.claims.message {
        messages := messages - {turn.request.mid};
      }
      if turn.claims.retry && turn.request.retryOf.Some? {
        retries := retries - {turn.request.retryOf.value};
      }
    }
  }
}
