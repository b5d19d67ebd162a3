/** The two halves of the tool protocol put together: the message sequences that the
    Link's controller can emit, a first-in first-out channel, and the Core's
    handling of each message against the durable rows. */
module Composition {
  import opened ToolLifecycle
  import opened Options
  import opened ToolRepository
  import opened AgentProtocol

  // ---------------------------------------------------------------- data model

  datatype Message = Notice(kind: EventType) | Conclude(status: Status)

  /** Is an approval required, as the session advertised it and by local policy? */
  datatype Mode = Mode(advertised: bool, local: bool)

  /** Where the controller stands with one request. */
  datatype Phase = Received | Executing | Started | Closed(last: Message)

  /** One call on both sides; `waiter` is the awaiting-approval flag of its entry in
      the gateway's table, as long as it has one. */
  datatype Call = Call(mode: Mode, row: Row, waiter: Option<bool>, phase: Phase)

  /** `rejected` is the call whose message the gateway refused, if that ended the session. */
  datatype System = System(calls: map<nat, Call>, channel: seq<(nat, Message)>, live: bool, limit: nat, rejected: Option<nat>)

  // -------------------------------------------------------------------- client

  /** What the controller may send next about one request. */
  predicate Emits(mode: Mode, phase: Phase, m: Message, next: Phase) {
    match phase
    case Received =>
      || (m == Notice(ValidationFailedEvent) && next == Closed(m))
      || (mode.local && m == Notice(ApprovedEvent) && next == Executing)
      || (mode.local && m in {Notice(TimedOutEvent), Notice(DeniedEvent)} && next == Closed(m))
    case Executing =>
      || (m == Notice(CancelledEvent) && next == Closed(m))
      || (m == Notice(StartedEvent) && next == Started)
    case Started =>
      && next == Closed(m)
      && (m == Notice(CancelledEvent)
          || m in {Conclude(Completed), Conclude(Failed), Conclude(Cancelled), Conclude(TimedOut), Conclude(ClientDisconnected)})
    case Closed(_) => false
  }

  // -------------------------------------------------------------------- server

  /** How many other calls of the client are queued or running. */
  function Busy(s: System, c: nat): set<nat> {
    set d | d in s.calls && d != c && |s.calls[d].row.log| > 0 && s.calls[d].row.Current() in {Queued, Running}
  }

  predicate SlotFree(s: System, c: nat) {
    |Busy(s, c)| < s.limit
  }

  /** Run the operations of one message; None as soon as one is refused. */
  function Operate(row: Row, ops: seq<Operation>, world: World): Option<Row>
    requires |row.log| > 0
    decreases |ops|
  {
    if ops == [] then Some(row)
    else
      var (after, reply) := Perform(row, ops[0], world);
      if reply == Refused then None else Operate(after, ops[1..], world)
  }

  datatype Verdict = Rejected | Accepted(call: Call, hangup: bool)

  /** The gateway's handling of one correlated message. */
  function Handle(call: Call, m: Message, free: bool): Verdict
    requires |call.row.log| > 0
  {
    var world := World(true, free);
    var current := call.row.Current();
    match m
    case Notice(kind) =>
      (match EventScript(kind, current, 0)
       case Reject => Rejected
       case Ignore => Accepted(call, false)
       case Hangup => Accepted(call, true)
       case ApproveThenQueue =>
         if call.waiter.None? then Rejected
         else if !call.waiter.value then Accepted(call, false)
         else
           var row := Operate(call.row, [Approve, Queue], world);
           if row.None? then Rejected else Accepted(call.(row := row.value, waiter := Some(false)), false)
       case Act(ops, waiter, finish) =>
         if waiter && call.waiter.None? then Rejected
         else
           var row := Operate(call.row, ops, world);
           if row.None? then Rejected
           else Accepted(call.(row := row.value, waiter := if finish.Some? then None else call.waiter), false))
    case Conclude(status) =>
      var script := ResultScript(status, current, 0);
      if call.waiter.None? || script.None? then Rejected
      else
        var row := Operate(call.row, script.value, world);
        if row.None? then Rejected
        else Accepted(call.(row := row.value, waiter := None), status == ClientDisconnected)
  }

  /** The session ends: every row it owns is closed, every waiter resolved. */
  function HangUp(s: System): System {
    s.(live := false,
       calls := map c | c in s.calls && |s.calls[c].row.log| > 0 ::
                  s.calls[c].(row := Disconnected(s.calls[c].row), waiter := None))
  }

  /** What a verdict on the head message does to the system: a rejection closes the
      socket, and a closed socket ends the session. */
  function Conclusion(s: System, v: Verdict): System
    requires s.channel != []
  {
    var rest := s.(channel := s.channel[1..]);
    if v.Rejected? then HangUp(rest.(rejected := Some(s.channel[0].0)))
    else
      var handled := rest.(calls := rest.calls[s.channel[0].0 := v.call]);
      if v.hangup then HangUp(handled) else handled
  }

  function Receive(s: System): System
    requires s.channel != [] && s.channel[0].0 in s.calls && |s.calls[s.channel[0].0].row.log| > 0
  {
    var (c, m) := s.channel[0];
    Conclusion(s, Handle(s.calls[c], m, SlotFree(s, c)))
  }

  function NewCall(c: nat, mode: Mode): Call {
    var log := [Proposed, Validated, if mode.advertised then AwaitingApproval else Queued];
    Call(mode, Row(c, Key(0, 0), 0, mode.advertised, log, None), Some(mode.advertised), Received)
  }

  // ---------------------------------------------------------------------- runs

  datatype Action =
    | Dispatch(call: nat, mode: Mode)
    | Begin(call: nat)                             // no local approval: straight to execution
    | Emit(call: nat, message: Message, next: Phase)
    | Consume

  ghost predicate Step(s: System, a: Action, s': System) {
    s.live &&
    match a
    case Dispatch(c, mode) =>
      && c !in s.calls
      && (!mode.advertised ==> SlotFree(s, c))
      && s' == s.(calls := s.calls[c := NewCall(c, mode)])
    case Begin(c) =>
      && c in s.calls && s.calls[c].phase == Received && !s.calls[c].mode.local
      && s' == s.(calls := s.calls[c := s.calls[c].(phase := Executing)])
    case Emit(c, m, next) =>
      && c in s.calls && Emits(s.calls[c].mode, s.calls[c].phase, m, next)
      && s' == s.(calls := s.calls[c := s.calls[c].(phase := next)], channel := s.channel + [(c, m)])
    case Consume =>
      && s.channel != [] && s.channel[0].0 in s.calls && |s.calls[s.channel[0].0].row.log| > 0
      && s' == Receive(s)
  }

  ghost predicate IsRun(limit: nat, states: seq<System>, actions: seq<Action>) {
    && |states| == |actions| + 1
    && states[0] == System(map[], [], true, limit, None)
    && forall i | 0 <= i < |actions| :: Step(states[i], actions[i], states[i + 1])
  }

  // --------------------------------------------------------------- expectations

  /** The durable status that corresponds to the last message of a call. */
  function DurableOutcome(mode: Mode, last: Message): Status {
    match last
    case Notice(kind) =>
      if kind == ValidationFailedEvent then (if mode.advertised then Denied else Failed)
      else if kind == CancelledEvent then (if mode.advertised && !mode.local then Denied else Cancelled)
      else EventStatus(kind)
    case Conclude(status) => if status == ClientDisconnected then Failed else status
  }

  /** The durable status once everything the controller has sent is consumed. */
  function StatusOf(mode: Mode, phase: Phase): Status {
    match phase
    case Received => if mode.advertised then AwaitingApproval else Queued
    case Executing => if mode.advertised && !mode.local then AwaitingApproval else Queued
    case Started => Running
    case Closed(last) => DurableOutcome(mode, last)
  }

  /** A message that cannot be accepted because the session advertised another
      approval mode than the local policy has. */
  predicate Mismatched(mode: Mode, m: Message) {
    || (mode.advertised && !mode.local && m == Notice(StartedEvent))
    || (!mode.advertised && mode.local && m == Notice(DeniedEvent))
  }

  /** The effect of one accepted message on the durable status. */
  function After(status: Status, m: Message): Status {
    match m
    case Notice(kind) =>
      if kind == ApprovedEvent then (if status == AwaitingApproval then Queued else status)
      else if kind in {ValidationFailedEvent, CancelledEvent} && status == AwaitingApproval then Denied
      else if kind == ValidationFailedEvent then Failed
      else EventStatus(kind)
    case Conclude(s) => if s == ClientDisconnected then Failed else s
  }

  /** Which messages fit a durable status. */
  predicate Fits(mode: Mode, status: Status, m: Message) {
    match m
    case Notice(kind) =>
      if kind == StartedEvent then status == Queued
      else if kind == DeniedEvent then status == AwaitingApproval
      else if kind == ApprovedEvent then status == if mode.advertised then AwaitingApproval else Queued
      else if kind == CancelledEvent then status in {AwaitingApproval, Queued, Running}
      else kind in {ValidationFailedEvent, TimedOutEvent} && status in {AwaitingApproval, Queued}
    case Conclude(s) =>
      status == Running && s in {Completed, Failed, Cancelled, TimedOut, ClientDisconnected}
  }

  /** The messages under way lead from the durable status to the controller's phase,
      unless one of them is mismatched (the session ends there). */
  ghost predicate Leads(mode: Mode, status: Status, messages: seq<Message>, phase: Phase)
    decreases |messages|
  {
    if messages == [] then
      status == StatusOf(mode, phase) && (phase == Started ==> mode.local || !mode.advertised)
      && (phase.Closed? ==> IsTerminal(status))
    else if Mismatched(mode, messages[0]) then
      status == if mode.advertised then AwaitingApproval else Queued
    else Fits(mode, status, messages[0]) && Leads(mode, After(status, messages[0]), messages[1..], phase)
  }

  function MessagesOf(channel: seq<(nat, Message)>, c: nat): seq<Message> {
    if channel == [] then []
    else (if channel[0].0 == c then [channel[0].1] else []) + MessagesOf(channel[1..], c)
  }

  /** What is true of one call, given the messages about it that are under way. */
  ghost predicate CallOk(call: Call, messages: seq<Message>) {
    && call.row.Valid()
    && var status := call.row.Current();
       && (status in {AwaitingApproval, Queued, Running} || IsTerminal(status))
       && (call.waiter == if IsTerminal(status) then None else Some(status == AwaitingApproval))
       && Leads(call.mode, status, messages, call.phase)
  }

  /** What is true of one call when the session has ended: it is closed, and if the
      controller had finished it and said so in time, with the status it reported. */
  ghost predicate Settled(call: Call, messages: seq<Message>, rejected: bool) {
    && |call.row.log| > 0 && IsTerminal(call.row.Current()) && call.waiter.None?
    && (call.phase.Closed? && messages == [] && !rejected ==> call.row.Current() == DurableOutcome(call.mode, call.phase.last))
  }

  ghost predicate Inv(s: System) {
    if s.live then
      && s.rejected.None?
      && (forall c | c in s.calls :: CallOk(s.calls[c], MessagesOf(s.channel, c)))
      && (forall i | 0 <= i < |s.channel| :: s.channel[i].0 in s.calls)
    else forall c | c in s.calls :: Settled(s.calls[c], MessagesOf(s.channel, c), s.rejected == Some(c))
  }

  // --------------------------------------------------------------- one message

  /** Sending extends what is under way by a fitting message, or a mismatched one. */
  lemma {:induction false} EmitLeads(mode: Mode, status: Status, messages: seq<Message>, phase: Phase, m: Message, next: Phase)
    requires Leads(mode, status, messages, phase) && Emits(mode, phase, m, next)
    ensures Leads(mode, status, messages + [m], next)
    decreases |messages|
  {
    if messages == [] {
      assert [m][1..] == [];
    } else if !Mismatched(mode, messages[0]) {
      EmitLeads(mode, After(status, messages[0]), messages[1..], phase, m, next);
      assert (messages + [m])[1..] == messages[1..] + [m];
    }
  }

  /** A legal operation succeeds: its target is not in the log of a call that has
      not got that far. */
  lemma Applies(row: Row, op: Operation, world: World)
    requires row.Valid() && world.live && op != Progress() && Legal(row.Current(), Target(op))
    requires op == Queue ==> world.slots && row.Current() == Approved
    ensures var (after, reply) := Perform(row, op, world);
            reply != Refused && after.Valid() && after.Current() == Target(op)
  {
    forall i | 0 <= i < |row.log| ensures row.log[i] != Target(op) {
      RunRanks(row.log, i, |row.log| - 1);
      LegalAdvances(row.Current(), Target(op));
    }
    AdvanceIsValid(row, Target(op));
  }

  function Progress(): Operation { ToolRepository.Report }

  lemma OperateOne(row: Row, op: Operation, world: World)
    requires row.Valid() && world.live && op != Progress() && Legal(row.Current(), Target(op))
    requires op == Queue ==> world.slots && row.Current() == Approved
    ensures var after := Operate(row, [op], world);
            after.Some? && after.value.Valid() && after.value.Current() == Target(op)
  {
    Applies(row, op, world);
    assert [op][1..] == [];
  }

  lemma OperateTwo(row: Row, first: Operation, second: Operation, world: World)
    requires row.Valid() && world.live && first in {Approve, Start} && second != Progress()
    requires Legal(row.Current(), Target(first)) && Legal(Target(first), Target(second))
    requires second == Queue ==> world.slots && first == Approve
    ensures var after := Operate(row, [first, second], world);
            after.Some? && after.value.Valid() && after.value.Current() == Target(second)
  {
    Applies(row, first, world);
    OperateOne(Perform(row, first, world).0, second, world);
    assert [first, second][1..] == [second];
  }

  /** Without a free slot an approved call cannot be queued. */
  lemma NoSlotRefuses(row: Row)
    requires row.Valid() && row.Current() == AwaitingApproval
    ensures Operate(row, [Approve, Queue], World(true, false)).None?
  {
    Applies(row, Approve, World(true, false));
    assert [Approve, Queue][1..] == [Queue];
  }

  /** A fitting message, with a free slot where it needs one, is accepted, and moves
      the durable status as expected. */
  lemma FittingIsAccepted(call: Call, m: Message, free: bool)
    requires call.row.Valid() && Fits(call.mode, call.row.Current(), m)
    requires call.waiter == Some(call.row.Current() == AwaitingApproval)
    requires m == Notice(ApprovedEvent) && call.row.Current() == AwaitingApproval ==> free
    ensures AsExpected(call, m, Handle(call, m, free))
  {
    if m.Conclude? { FittingResult(call, m.status, free); } else { FittingNotice(call, m.kind, free); }
  }

  lemma FittingResult(call: Call, status: Status, free: bool)
    requires call.row.Valid() && Fits(call.mode, call.row.Current(), Conclude(status)) && call.waiter.Some?
    ensures AsExpected(call, Conclude(status), Handle(call, Conclude(status), free))
  {
    assert [] + [FinalOperation(status)] == [FinalOperation(status)];
    OperateOne(call.row, FinalOperation(status), World(true, free));
  }

  lemma FittingApproval(call: Call, free: bool)
    requires call.row.Valid() && Fits(call.mode, call.row.Current(), Notice(ApprovedEvent))
    requires call.waiter == Some(call.row.Current() == AwaitingApproval)
    requires call.row.Current() == AwaitingApproval ==> free
    ensures AsExpected(call, Notice(ApprovedEvent), Handle(call, Notice(ApprovedEvent), free))
  {
    if call.row.Current() == AwaitingApproval { OperateTwo(call.row, Approve, Queue, World(true, free)); }
  }

  lemma FittingClosure(call: Call, kind: EventType, free: bool)
    requires call.row.Valid() && call.row.Current() == AwaitingApproval && Fits(call.mode, AwaitingApproval, Notice(kind))
    requires call.waiter == Some(true) && kind != ApprovedEvent
    ensures AsExpected(call, Notice(kind), Handle(call, Notice(kind), free))
  {
    OperateOne(call.row, if kind == TimedOutEvent then TimeOut else Deny, World(true, free));
  }

  lemma FittingNotice(call: Call, kind: EventType, free: bool)
    requires call.row.Valid() && Fits(call.mode, call.row.Current(), Notice(kind))
    requires call.waiter == Some(call.row.Current() == AwaitingApproval)
    requires kind == ApprovedEvent && call.row.Current() == AwaitingApproval ==> free
    ensures AsExpected(call, Notice(kind), Handle(call, Notice(kind), free))
  {
    var world, current := World(true, free), call.row.Current();
    if kind == ApprovedEvent {
      FittingApproval(call, free);
    } else if kind == StartedEvent {
      OperateOne(call.row, Start, world);
    } else if current == AwaitingApproval {
      FittingClosure(call, kind, free);
    } else if kind == CancelledEvent {
      assert EventScript(kind, current, 0) == Act([Cancel], false, Some(Cancelled));
      OperateOne(call.row, Cancel, world);
    } else {
      var op := if kind == TimedOutEvent then TimeOut else Fail(0);
      assert EventScript(kind, current, 0).ops == [Start, op];
      OperateTwo(call.row, Start, op, world);
    }
  }

  function FinalOperation(status: Status): Operation {
    match status
    case Completed => Complete(0)
    case Cancelled => Cancel
    case TimedOut => TimeOut
    case _ => Fail(0)
  }

  ghost predicate AsExpected(call: Call, m: Message, v: Verdict)
    requires |call.row.log| > 0
  {
    && v.Accepted?
    && v.hangup == (m == Conclude(ClientDisconnected))
    && v.call == call.(row := v.call.row, waiter := v.call.waiter)
    && |v.call.row.log| > 0
    && v.call.row.Valid()
    && var status := v.call.row.Current();
       && status == After(call.row.Current(), m)
       && v.call.waiter == if IsTerminal(status) then None else Some(status == AwaitingApproval)
  }

  lemma MisfitIsRejected(call: Call, m: Message, free: bool)
    requires call.row.Valid() && call.waiter == Some(call.row.Current() == AwaitingApproval)
    requires || (call.row.Current() == AwaitingApproval && m == Notice(StartedEvent))
             || (call.row.Current() == Queued && m == Notice(DeniedEvent))
             || (call.row.Current() == AwaitingApproval && m == Notice(ApprovedEvent) && !free)
    ensures Handle(call, m, free).Rejected?
  {
    if m == Notice(ApprovedEvent) { NoSlotRefuses(call.row); }
  }

  // ------------------------------------------------------------------ every step

  lemma {:induction false} SendExtends(channel: seq<(nat, Message)>, c: nat, m: Message, d: nat)
    ensures MessagesOf(channel + [(c, m)], d) == MessagesOf(channel, d) + if d == c then [m] else []
  {
    if channel == [] {
      assert MessagesOf([(c, m)][1..], d) == [];
    } else {
      assert (channel + [(c, m)])[1..] == channel[1..] + [(c, m)];
      SendExtends(channel[1..], c, m, d);
    }
  }

  lemma HeadIsFirst(channel: seq<(nat, Message)>, d: nat)
    requires channel != []
    ensures MessagesOf(channel, d)
            == if d == channel[0].0 then [channel[0].1] + MessagesOf(channel[1..], d) else MessagesOf(channel[1..], d)
  {
  }

  lemma {:induction false} AbsentIsSilent(s: System, channel: seq<(nat, Message)>, c: nat)
    requires c !in s.calls && forall i | 0 <= i < |channel| :: channel[i].0 in s.calls
    ensures MessagesOf(channel, c) == []
  {
    if channel != [] {
      assert channel[0].0 in s.calls;
      AbsentIsSilent(s, channel[1..], c);
    }
  }

  lemma EmitKeepsInv(s: System, c: nat, m: Message, next: Phase, s': System)
    requires Inv(s) && Step(s, Emit(c, m, next), s')
    ensures Inv(s')
  {
    forall d | d in s'.calls ensures CallOk(s'.calls[d], MessagesOf(s'.channel, d)) {
      assert CallOk(s.calls[d], MessagesOf(s.channel, d));
      SendExtends(s.channel, c, m, d);
      if d == c {
        EmitLeads(s.calls[c].mode, s.calls[c].row.Current(), MessagesOf(s.channel, c), s.calls[c].phase, m, next);
      } else {
        assert MessagesOf(s.channel, d) + [] == MessagesOf(s.channel, d);
      }
    }
  }

  lemma {:induction false} BeginLeads(mode: Mode, status: Status, messages: seq<Message>)
    requires !mode.local && Leads(mode, status, messages, Received)
    ensures Leads(mode, status, messages, Executing)
    decreases |messages|
  {
    if messages != [] && !Mismatched(mode, messages[0]) {
      BeginLeads(mode, After(status, messages[0]), messages[1..]);
    }
  }

  lemma DispatchKeepsInv(s: System, c: nat, mode: Mode, s': System)
    requires Inv(s) && Step(s, Dispatch(c, mode), s')
    ensures Inv(s')
  {
    AbsentIsSilent(s, s.channel, c);
    var log := NewCall(c, mode).row.log;
    assert forall i | 0 <= i < |log| - 1 :: Legal(log[i], log[i + 1]);
    assert CallOk(NewCall(c, mode), []);
    forall d | d in s'.calls && d != c ensures CallOk(s'.calls[d], MessagesOf(s'.channel, d)) {
      assert CallOk(s.calls[d], MessagesOf(s.channel, d));
    }
  }

  /** When is the message at the head of the channel refused? */
  predicate Refuses(s: System)
    requires s.channel != [] && s.channel[0].0 in s.calls
  {
    var (c, m) := s.channel[0];
    var mode := s.calls[c].mode;
    Mismatched(mode, m) || (m == Notice(ApprovedEvent) && mode.advertised && !SlotFree(s, c))
  }

  lemma HeadVerdict(s: System)
    requires Inv(s) && s.live && s.channel != []
    ensures var (c, m) := s.channel[0];
            && c in s.calls && |s.calls[c].row.log| > 0
            && var v := Handle(s.calls[c], m, SlotFree(s, c));
               && (v.Rejected? <==> Refuses(s))
               && (v.Accepted? ==> AsExpected(s.calls[c], m, v) && Fits(s.calls[c].mode, s.calls[c].row.Current(), m))
  {
    var (c, m) := s.channel[0];
    var call := s.calls[c];
    assert CallOk(call, MessagesOf(s.channel, c));
    HeadIsFirst(s.channel, c);
    assert MessagesOf(s.channel, c)[0] == m;
    if Refuses(s) {
      MisfitIsRejected(call, m, SlotFree(s, c));
    } else {
      FittingIsAccepted(call, m, SlotFree(s, c));
    }
  }

  lemma ConsumedCall(call: Call, m: Message, rest: seq<Message>, v: Verdict)
    requires CallOk(call, [m] + rest) && !Mismatched(call.mode, m) && AsExpected(call, m, v)
    ensures CallOk(v.call, rest)
  {
    assert ([m] + rest)[1..] == rest;
  }

  lemma ConcludeKeepsInv(s: System, v: Verdict)
    requires Inv(s) && s.live && s.channel != [] && s.channel[0].0 in s.calls
    requires v.Accepted? ==>
               var (c, m) := s.channel[0];
               && |s.calls[c].row.log| > 0
               && AsExpected(s.calls[c], m, v)
               && Fits(s.calls[c].mode, s.calls[c].row.Current(), m)
               && !Mismatched(s.calls[c].mode, m)
    ensures Inv(Conclusion(s, v))
  {
    var s' := Conclusion(s, v);
    var (c, m) := s.channel[0];
    if v.Rejected? {
      RejectionSettles(s);
    } else if v.hangup {
      HangupSettles(s, v);
    } else {
      assert s' == s.(channel := s.channel[1..], calls := s.calls[c := v.call]);
      forall d | d in s'.calls ensures CallOk(s'.calls[d], MessagesOf(s'.channel, d)) {
        HeadIsFirst(s.channel, d);
        assert CallOk(s.calls[d], MessagesOf(s.channel, d));
        if d == c { ConsumedCall(s.calls[c], m, MessagesOf(s.channel[1..], c), v); }
      }
    }
  }

  /** Whatever a session had consumed when it ended is settled. */
  lemma EndSettles(call: Call, messages: seq<Message>, rejected: bool)
    requires call.row.Valid() && (CallOk(call, messages) || rejected)
    ensures Settled(call.(row := Disconnected(call.row), waiter := None), messages, rejected)
  {
    DisconnectedIsValid(call.row);
  }

  lemma RejectionSettles(s: System)
    requires Inv(s) && s.live && s.channel != [] && s.channel[0].0 in s.calls
    ensures Inv(Conclusion(s, Rejected))
  {
    var s' := Conclusion(s, Rejected);
    forall d | d in s'.calls ensures Settled(s'.calls[d], MessagesOf(s'.channel, d), s'.rejected == Some(d)) {
      HeadIsFirst(s.channel, d);
      assert CallOk(s.calls[d], MessagesOf(s.channel, d));
      EndSettles(s.calls[d], MessagesOf(s.channel[1..], d), d == s.channel[0].0);
    }
  }

  lemma HangupSettles(s: System, v: Verdict)
    requires Inv(s) && s.live && s.channel != [] && s.channel[0].0 in s.calls && v.Accepted? && v.hangup
    requires var (c, m) := s.channel[0];
             && |s.calls[c].row.log| > 0
             && AsExpected(s.calls[c], m, v)
             && Fits(s.calls[c].mode, s.calls[c].row.Current(), m)
             && !Mismatched(s.calls[c].mode, m)
    ensures Inv(Conclusion(s, v))
  {
    var s' := Conclusion(s, v);
    var (c, m) := s.channel[0];
    forall d | d in s'.calls ensures Settled(s'.calls[d], MessagesOf(s'.channel, d), s'.rejected == Some(d)) {
      HeadIsFirst(s.channel, d);
      assert CallOk(s.calls[d], MessagesOf(s.channel, d));
      if d == c {
        ConsumedCall(s.calls[c], m, MessagesOf(s.channel[1..], c), v);
        EndSettles(v.call, MessagesOf(s.channel[1..], c), false);
      } else {
        EndSettles(s.calls[d], MessagesOf(s.channel[1..], d), false);
      }
    }
  }

  lemma {:induction false} RunsKeepInv(limit: nat, states: seq<System>, actions: seq<Action>, i: nat)
    requires IsRun(limit, states, actions) && i < |states|
    ensures Inv(states[i]) && states[i].limit == limit
  {
    if i > 0 {
      RunsKeepInv(limit, states, actions, i - 1);
      var s, a, s' := states[i - 1], actions[i - 1], states[i];
      assert Step(s, a, s');
      match a
      case Dispatch(c, mode) => DispatchKeepsInv(s, c, mode, s');
      case Begin(c) =>
        forall d | d in s'.calls ensures CallOk(s'.calls[d], MessagesOf(s'.channel, d)) {
          assert CallOk(s.calls[d], MessagesOf(s.channel, d));
          if d == c { BeginLeads(s.calls[c].mode, s.calls[c].row.Current(), MessagesOf(s.channel, c)); }
        }
      case Emit(c, m, next) => EmitKeepsInv(s, c, m, next, s');
      case Consume =>
        var (c, m) := s.channel[0];
        HeadVerdict(s);
        ConcludeKeepsInv(s, Handle(s.calls[c], m, SlotFree(s, c)));
    }
  }

  // --------------------------------------------------------------- main results

  /** In every reachable state the next message is rejected exactly when the two
      sides disagree on the approval mode in a way that this message reveals, or
      when it approves a call for which the client has no parallel slot left. */
  lemma RejectedExactlyWhen(limit: nat, states: seq<System>, actions: seq<Action>, i: nat)
    requires IsRun(limit, states, actions) && i < |states| && states[i].live && states[i].channel != []
    ensures var s := states[i];
            var (c, m) := s.channel[0];
            && c in s.calls && |s.calls[c].row.log| > 0
            && (Handle(s.calls[c], m, SlotFree(s, c)).Rejected? <==>
                 || (s.calls[c].mode == Mode(true, false) && m == Notice(StartedEvent))
                 || (s.calls[c].mode == Mode(false, true) && m == Notice(DeniedEvent))
                 || (m == Notice(ApprovedEvent) && s.calls[c].mode.advertised && !SlotFree(s, c)))
  {
    RunsKeepInv(limit, states, actions, i);
    HeadVerdict(states[i]);
  }

  /** The calls that have not ended. */
  function Unfinished(s: System): set<nat> {
    set c | c in s.calls && |s.calls[c].row.log| > 0 && !IsTerminal(s.calls[c].row.Current())
  }

  /** With equal modes and no more unfinished calls than parallel slots nothing is
      rejected, however many calls the session has had. */
  lemma AgreedModesAreAccepted(limit: nat, states: seq<System>, actions: seq<Action>, i: nat)
    requires IsRun(limit, states, actions) && i < |states| && states[i].live && states[i].channel != []
    requires forall c | c in states[i].calls :: states[i].calls[c].mode.advertised == states[i].calls[c].mode.local
    requires |Unfinished(states[i])| <= limit
    ensures var s := states[i];
            var (c, m) := s.channel[0];
            c in s.calls && |s.calls[c].row.log| > 0 && Handle(s.calls[c], m, SlotFree(s, c)).Accepted?
  {
    var s, c, m := states[i], states[i].channel[0].0, states[i].channel[0].1;
    RunsKeepInv(limit, states, actions, i);
    RejectedExactlyWhen(limit, states, actions, i);
    if m == Notice(ApprovedEvent) && s.calls[c].mode.advertised {
      ApprovalAwaits(s);
      assert Busy(s, c) <= Unfinished(s) - {c};
      Smaller(Busy(s, c), Unfinished(s) - {c});
      assert |Unfinished(s) - {c}| == |Unfinished(s)| - 1;
    }
  }

  /** An approval that arrives finds its call awaiting it. */
  lemma ApprovalAwaits(s: System)
    requires Inv(s) && s.live && s.channel != [] && s.channel[0].1 == Notice(ApprovedEvent)
    requires s.channel[0].0 in s.calls && s.calls[s.channel[0].0].mode.advertised
    ensures |s.calls[s.channel[0].0].row.log| > 0 && s.calls[s.channel[0].0].row.Current() == AwaitingApproval
  {
    var (c, m) := s.channel[0];
    assert CallOk(s.calls[c], MessagesOf(s.channel, c));
    HeadIsFirst(s.channel, c);
    assert MessagesOf(s.channel, c)[0] == m;
  }

  lemma {:induction false} Smaller<T>(a: set<T>, b: set<T>)
    requires a <= b
    ensures |a| <= |b|
  {
    assert b == a + (b - a);
  }

  /** A call the controller has finished, once its messages are consumed, has exactly
      the durable status that corresponds to the controller's last message, and its
      waiter is resolved; also when that message, or another, has ended the session,
      except for a call whose own message was refused. */
  lemma FinalStatusCorresponds(limit: nat, states: seq<System>, actions: seq<Action>, i: nat, c: nat)
    requires IsRun(limit, states, actions) && i < |states| && c in states[i].calls
    requires states[i].calls[c].phase.Closed? && MessagesOf(states[i].channel, c) == []
    requires states[i].rejected != Some(c)
    ensures var call := states[i].calls[c];
            && |call.row.log| > 0
            && call.row.Current() == DurableOutcome(call.mode, call.phase.last)
            && IsTerminal(call.row.Current())
            && call.waiter.None?
  {
    RunsKeepInv(limit, states, actions, i);
    if states[i].live {
      assert CallOk(states[i].calls[c], []);
    } else {
      assert Settled(states[i].calls[c], [], false);
    }
  }

  /** When the session has ended every call is closed and no waiter is left. */
  lemma EndClosesAll(limit: nat, states: seq<System>, actions: seq<Action>, i: nat, c: nat)
    requires IsRun(limit, states, actions) && i < |states| && !states[i].live && c in states[i].calls
    ensures var call := states[i].calls[c];
            |call.row.log| > 0 && IsTerminal(call.row.Current()) && call.waiter.None?
  {
    RunsKeepInv(limit, states, actions, i);
    assert Settled(states[i].calls[c], MessagesOf(states[i].channel, c), states[i].rejected == Some(c));
  }

  // ------------------------------------------------ every ending of a call is reached

  ghost predicate Reached(limit: nat, s: System) {
    exists states, actions :: IsRun(limit, states, actions) && states[|states| - 1] == s
  }

  lemma ReachStep(limit: nat, s: System, a: Action, s': System)
    requires Reached(limit, s) && Step(s, a, s')
    ensures Reached(limit, s')
  {
    var states, actions :| IsRun(limit, states, actions) && states[|states| - 1] == s;
    Extends(limit, states, actions, a, s');
    assert (states + [s'])[|states + [s']| - 1] == s';
  }

  /** The only call, with nothing under way. */
  function Single(call: Call): System {
    System(map[0 := call], [], true, 1, None)
  }

  lemma SingleIsDispatched(mode: Mode)
    ensures Reached(1, Single(NewCall(0, mode)))
  {
    var s0 := System(map[], [], true, 1, None);
    assert IsRun(1, [s0], []);
    assert [s0][|[s0]| - 1] == s0;
    assert Busy(s0, 0) == {};
    ReachStep(1, s0, Dispatch(0, mode), Single(NewCall(0, mode)));
  }

  /** A message is sent and consumed. */
  lemma SingleTells(call: Call, m: Message, next: Phase, after: Call)
    requires Reached(1, Single(call)) && Emits(call.mode, call.phase, m, next) && |call.row.log| > 0
    requires Handle(call.(phase := next), m, true) == Accepted(after, false)
    ensures Reached(1, Single(after))
  {
    var sent := System(map[0 := call.(phase := next)], [(0, m)], true, 1, None);
    assert [] + [(0, m)] == [(0, m)];
    assert map[0 := call][0 := call.(phase := next)] == map[0 := call.(phase := next)];
    ReachStep(1, Single(call), Emit(0, m, next), sent);
    assert [(0, m)][1..] == [];
    assert Busy(sent, 0) == {};
    assert map[0 := call.(phase := next)][0 := after] == map[0 := after];
    assert Receive(sent) == Single(after);
    ReachStep(1, sent, Consume, Single(after));
  }

  function Mutual(approval: bool): Mode { Mode(approval, approval) }

  /** The call with a log, as both sides know it at a phase. */
  function Known(approval: bool, log: seq<Status>, outcome: Option<nat>, waiter: Option<bool>, phase: Phase): Call {
    Call(Mutual(approval), Row(0, Key(0, 0), 0, approval, log, outcome), waiter, phase)
  }

  function QueuedLog(approval: bool): seq<Status> {
    if approval then [Proposed, Validated, AwaitingApproval, Approved, Queued] else [Proposed, Validated, Queued]
  }

  lemma CallIsQueued(approval: bool)
    ensures Reached(1, Single(Known(approval, QueuedLog(approval), None, Some(false), Executing)))
  {
    SingleIsDispatched(Mutual(approval));
    var call := NewCall(0, Mutual(approval));
    var after := Known(approval, QueuedLog(approval), None, Some(false), Executing);
    if approval {
      var row := call.row;
      var approved := row.(log := [Proposed, Validated, AwaitingApproval, Approved]);
      assert row.log + [Approved] == approved.log && approved.log + [Queued] == QueuedLog(true);
      assert Perform(row, Approve, World(true, true)) == (approved, Changed);
      assert Perform(approved, Queue, World(true, true)) == (after.row, Changed);
      assert [Approve, Queue][1..] == [Queue] && [Queue][1..] == [];
      assert Operate(row, [Approve, Queue], World(true, true)) == Some(after.row);
      SingleTells(call, Notice(ApprovedEvent), Executing, after);
    } else {
      assert map[0 := call][0 := call.(phase := Executing)] == map[0 := call.(phase := Executing)];
      ReachStep(1, Single(call), Begin(0), Single(call.(phase := Executing)));
    }
  }

  lemma OneMore(row: Row, op: Operation, to: Status, outcome: Option<nat>)
    requires |row.log| > 0 && Perform(row, op, World(true, true)) == (row.(log := row.log + [to], outcome := outcome), Changed)
    ensures Operate(row, [op], World(true, true)) == Some(row.(log := row.log + [to], outcome := outcome))
  {
    assert [op][1..] == [];
  }

  lemma CallIsRunning(approval: bool)
    ensures Reached(1, Single(Known(approval, QueuedLog(approval) + [Running], None, Some(false), Started)))
  {
    CallIsQueued(approval);
    var call := Known(approval, QueuedLog(approval), None, Some(false), Executing);
    OneMore(call.row, Start, Running, None);
    SingleTells(call, Notice(StartedEvent), Started, Known(approval, QueuedLog(approval) + [Running], None, Some(false), Started));
  }

  /** With or without approval a call can run to every result, and the row then holds
      exactly the statuses it went through. */
  lemma ResultIsReached(approval: bool, status: Status) returns (s: System)
    requires status in {Completed, Failed, Cancelled, TimedOut}
    ensures Reached(1, s) && s.live && s.channel == [] && s.calls.Keys == {0}
    ensures s.calls[0].phase == Closed(Conclude(status)) && s.calls[0].waiter.None?
    ensures s.calls[0].row.log
            == (if approval then [Proposed, Validated, AwaitingApproval, Approved, Queued] else [Proposed, Validated, Queued])
               + [Running, status]
  {
    CallIsRunning(approval);
    var running := QueuedLog(approval) + [Running];
    var call := Known(approval, running, None, Some(false), Started);
    var outcome := if status in {Completed, Failed} then Some(0) else None;
    var after := Known(approval, running + [status], outcome, None, Closed(Conclude(status)));
    assert [] + [FinalOperation(status)] == [FinalOperation(status)];
    OneMore(call.row, FinalOperation(status), status, outcome);
    SingleTells(call, Conclude(status), Closed(Conclude(status)), after);
    assert running + [status] == QueuedLog(approval) + [Running, status];
    s := Single(after);
  }

  /** Before it runs, a call that awaits its approval can be refused, expire, or fail its
      validation; and one that is queued or runs can be cancelled. */
  lemma NoticeIsReached(kind: EventType, at: Phase) returns (s: System)
    requires (at == Received && kind in {DeniedEvent, TimedOutEvent, ValidationFailedEvent}) || (at in {Executing, Started} && kind == CancelledEvent)
    ensures Reached(1, s) && s.live && s.channel == [] && s.calls.Keys == {0}
    ensures s.calls[0].phase == Closed(Notice(kind)) && s.calls[0].waiter.None?
    ensures s.calls[0].row.log
            == if at == Received then [Proposed, Validated, AwaitingApproval, if kind == TimedOutEvent then TimedOut else Denied]
               else if at == Executing then [Proposed, Validated, AwaitingApproval, Approved, Queued, Cancelled]
               else [Proposed, Validated, AwaitingApproval, Approved, Queued, Running, Cancelled]
  {
    var log := if at == Received then [Proposed, Validated, AwaitingApproval]
               else if at == Executing then QueuedLog(true) else QueuedLog(true) + [Running];
    var call := Known(true, log, None, Some(at == Received), at);
    match at {
      case Received => SingleIsDispatched(Mutual(true));
      case Executing => CallIsQueued(true);
      case Started => CallIsRunning(true);
    }
    s := CallIsClosed(call, kind, log);
  }

  lemma CallIsClosed(call: Call, kind: EventType, log: seq<Status>) returns (s: System)
    requires |log| > 0 && call == Known(true, log, None, Some(call.phase == Received), call.phase) && Reached(1, Single(call))
    requires || (call.phase == Received && log[|log| - 1] == AwaitingApproval && Denied !in log
                 && kind in {DeniedEvent, TimedOutEvent, ValidationFailedEvent})
             || (call.phase == Executing && log[|log| - 1] == Queued && kind == CancelledEvent)
             || (call.phase == Started && log[|log| - 1] == Running && kind == CancelledEvent)
    ensures Reached(1, s) && s.live && s.channel == [] && s.calls.Keys == {0}
    ensures s.calls[0].phase == Closed(Notice(kind)) && s.calls[0].waiter.None?
    ensures s.calls[0].row.log
            == log + [if call.phase != Received then Cancelled else if kind == TimedOutEvent then TimedOut else Denied]
  {
    var to := if call.phase != Received then Cancelled else if kind == TimedOutEvent then TimedOut else Denied;
    var op := if call.phase != Received then Cancel else if kind == TimedOutEvent then TimeOut else Deny;
    assert [] + [op] == [op];
    OneMore(call.row, op, to, None);
    var after := Known(true, log + [to], None, None, Closed(Notice(kind)));
    SingleTells(call, Notice(kind), Closed(Notice(kind)), after);
    s := Single(after);
  }

  // ------------------------------------------- equal modes, but too few slots

  function Approving(c: nat, phase: Phase): Call {
    NewCall(c, Mode(true, true)).(phase := phase)
  }

  /** Two approvals under way while nothing is queued yet. */
  function Crowded(): System {
    System(map[0 := Approving(0, Executing), 1 := Approving(1, Executing)],
           [(0, Notice(ApprovedEvent)), (1, Notice(ApprovedEvent))], true, 1, None)
  }

  lemma CrowdedIsReached() returns (states: seq<System>, actions: seq<Action>)
    ensures IsRun(1, states, actions) && states[|states| - 1] == Crowded()
  {
    var both, approved := Mode(true, true), Notice(ApprovedEvent);
    var s1 := System(map[0 := Approving(0, Received)], [], true, 1, None);
    var s2 := System(map[0 := Approving(0, Received), 1 := Approving(1, Received)], [], true, 1, None);
    var s3 := System(map[0 := Approving(0, Executing), 1 := Approving(1, Received)], [(0, approved)], true, 1, None);
    assert s3.channel + [(1, approved)] == Crowded().channel;
    states := [System(map[], [], true, 1, None), s1, s2, s3, Crowded()];
    actions := [Dispatch(0, both), Dispatch(1, both), Emit(0, approved, Executing), Emit(1, approved, Executing)];
    assert Step(states[0], actions[0], s1);
    assert Step(s1, actions[1], s2);
    assert Step(s2, actions[2], s3);
    assert Step(s3, actions[3], Crowded());
  }

  lemma FirstTakesTheSlot()
    requires Inv(Crowded())
    ensures var s, s' := Crowded(), Receive(Crowded());
            && s'.live && s'.limit == 1 && s'.channel == [(1, Notice(ApprovedEvent))]
            && s'.calls.Keys == {0, 1} && s'.calls[1] == s.calls[1]
            && s'.calls[0].mode == Mode(true, true)
            && |s'.calls[0].row.log| > 0 && s'.calls[0].row.Current() == Queued
  {
    var s, approved := Crowded(), Notice(ApprovedEvent);
    assert s.channel[1..] == [(1, approved)];
    assert Busy(s, 0) == {};
    assert CallOk(s.calls[0], MessagesOf(s.channel, 0));
    FittingIsAccepted(s.calls[0], approved, true);
    var v := Handle(s.calls[0], approved, true);
    assert Receive(s) == s.(channel := s.channel[1..], calls := s.calls[0 := v.call]);
  }

  /** Equal modes alone are not enough: with one slot, two calls approved in a row
      make the gateway refuse the second approval, and the session ends. */
  lemma SlotShortage() returns (states: seq<System>, actions: seq<Action>)
    ensures IsRun(1, states, actions)
    ensures var s := states[|states| - 1];
            && s.live && s.channel == [(1, Notice(ApprovedEvent))] && s.calls.Keys == {0, 1}
            && (forall c | c in s.calls :: s.calls[c].mode == Mode(true, true))
            && |s.calls[1].row.log| > 0
            && Handle(s.calls[1], Notice(ApprovedEvent), SlotFree(s, 1)).Rejected?
  {
    states, actions := CrowdedIsReached();
    RunsKeepInv(1, states, actions, |states| - 1);
    FirstTakesTheSlot();
    var s' := Receive(Crowded());
    assert Step(Crowded(), Consume, s');
    Extends(1, states, actions, Consume, s');
    states, actions := states + [s'], actions + [Consume];
    assert 0 in Busy(s', 1);
    RejectedExactlyWhen(1, states, actions, |states| - 1);
  }

  lemma Extends(limit: nat, states: seq<System>, actions: seq<Action>, a: Action, s': System)
    requires IsRun(limit, states, actions) && Step(states[|states| - 1], a, s')
    ensures IsRun(limit, states + [s'], actions + [a])
  {
  }
}
