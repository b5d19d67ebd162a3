/** Concrete runs that show why the premises of the delivery theorem are needed, and
    what a disconnection that fails part way leaves behind. */
module GatewayRedelivery {
  import opened ToolLifecycle
  import opened Options
  import opened ToolRepository
  import opened AgentProtocol
  import opened OrderedTable
  import opened GatewayMachine
  import opened GatewayInvariant
  import opened GatewayReplay

  /** One client with a live session; two calls await their approval. */
  function Ready(): State {
    Opened(Initial(), Owner).(rows := map[1 := WaitingRow(1), 2 := WaitingRow(2)])
  }

  lemma ReadyIsReached(w: Premises)
    requires w.cfg.seenRetention == 1
    ensures Reachable(w, Ready()) && Idle(Ready())
  {
    ReachInitial(w);
    RegistrationOpens(w, Initial(), Owner);
    CallIsPrepared(w, Opened(Initial(), Owner), 1);
    CallIsPrepared(w, Opened(Initial(), Owner).(rows := map[1 := WaitingRow(1)]), 2);
    assert map[1 := WaitingRow(1)][2 := WaitingRow(2)] == map[1 := WaitingRow(1), 2 := WaitingRow(2)];
  }

  /** Call 1 was dispatched. */
  function OneOut(): State { Dispatched(Ready(), 1, 0) }

  lemma OneOutIsReached(w: Premises)
    requires w.cfg.seenRetention == 1
    ensures Reachable(w, OneOut()) && Idle(OneOut())
  {
    ReadyIsReached(w);
    DispatchGoesOut(w, Ready(), 1, 0);
  }

  // ------------------------------------------------- deadlines that do not reconcile

  const Unreconciled: Premises := Premises(Config(1, 1, false), false, true)

  function BothOut(): State { Dispatched(OneOut(), 2, 0) }

  lemma BothOutIsReached()
    ensures Reachable(Unreconciled, BothOut()) && Idle(BothOut())
  {
    OneOutIsReached(Unreconciled);
    DispatchGoesOut(Unreconciled, OneOut(), 2, 0);
  }

  function FirstGivenUp(): State { GivenUp(Unreconciled, BothOut(), 2, 0) }

  function BothGivenUp(): State { GivenUp(Unreconciled, FirstGivenUp(), 4, 1) }

  lemma FirstDeadlineFails()
    ensures Reachable(Unreconciled, FirstGivenUp()) && Idle(FirstGivenUp())
    ensures FirstGivenUp().terminal == [(1, Record(None, 1, Owner, TimedOut))] && FirstGivenUp().pending == map[2 := 1]
  {
    BothOutIsReached();
    assert BothOut().pending == map[1 := 0, 2 := 1];
    DeadlineFails(Unreconciled, BothOut(), 2, 0);
    assert Without<nat, Record>([], 1) == [];
  }

  lemma SecondDeadlineFails()
    ensures Reachable(Unreconciled, BothGivenUp()) && Idle(BothGivenUp())
    ensures BothGivenUp().terminal == [(2, Record(None, 2, Owner, TimedOut))] && BothGivenUp().pending == map[]
  {
    FirstDeadlineFails();
    var table := FirstGivenUp().terminal;
    assert table[1..] == [];
    assert Without(table, 2) == table;
    DeadlineFails(Unreconciled, FirstGivenUp(), 4, 1);
  }

  /** With an honest client and disconnections that succeed, deadlines that fail to
      reconcile are enough for a second delivery: the row still awaits its approval
      when the bounded table has forgotten the call. */
  lemma WrittenTwiceAfterFailedDeadlines() returns (s: State)
    ensures Reachable(Unreconciled, s) && s.sent == [1, 2, 1]
  {
    SecondDeadlineFails();
    s := Dispatched(BothGivenUp(), 1, 0);
    assert !Has(BothGivenUp().terminal, 1);
    DispatchGoesOut(Unreconciled, BothGivenUp(), 1, 0);
  }

  // ------------------------------------------------- a disconnection that fails

  const Unclosed: Premises := Premises(Config(1, 1, true), true, true)

  ghost function Broken(): State { Passed(PopSession(OneOut(), 3, Owner, WaitersOf(OneOut(), Owner))) }

  lemma OnlyWaiterIs(s: State)
    requires s.pending == map[1 := 0] && 0 in s.calls && s.calls[0].request.key == Owner
    ensures WaitersOf(s, Owner) == {0}
  {
    assert 1 in s.pending;
  }

  lemma BrokenIsReached()
    ensures Reachable(Unclosed, Broken()) && Idle(Broken())
    ensures Broken().pending == map[] && Broken().sessions == map[] && Broken().calls.Keys == {0}
    ensures Broken().futures == map[0 := Open] && Broken().tasks == map[2 := Timer(0, Asleep)]
    ensures CallOf(Broken(), 0) == 1 && Broken().sent == [1] && Broken().terminal == []
  {
    OneOutIsReached(Unclosed);
    var s := OneOut();
    assert s.pending == map[1 := 0] && s.tasks == map[2 := Timer(0, Asleep)];
    OnlyWaiterIs(s);
    DisconnectionFails(Unclosed, s, Handle(Owner, 0));
  }

  ghost function Deserted(): State { Broken().(tasks := map[]) }

  lemma DesertedIsReached()
    ensures Reachable(Unclosed, Deserted()) && Idle(Deserted())
  {
    BrokenIsReached();
    DeadlineFindsNothing(Unclosed, Broken(), 2, 0);
    assert Broken().tasks - {2} == map[];
  }

  /** From an idle gateway, one disconnection that fails to close its rows leaves a
      waiter that nobody will resolve: no task is left, no table holds it, and its
      future is still open. */
  lemma StrandedForGood() returns (s: State)
    ensures Reachable(Unclosed, s)
    ensures s.tasks == map[] && s.pending == map[] && s.futures == map[0 := Open]
  {
    BrokenIsReached();
    DesertedIsReached();
    s := Deserted();
  }

  const Other: Key := Key(1, 0)

  /** ... and with honest clients and deadlines that reconcile, the same call can be
      written again once its session key may be registered anew. */
  lemma WrittenTwiceAfterFailedDisconnection() returns (s: State)
    ensures Reachable(Unclosed, s) && s.sent == [1, 1]
  {
    BrokenIsReached();
    DesertedIsReached();
    var s1, s2 := Opened(Deserted(), Other), Opened(Opened(Deserted(), Other), Owner);
    RegistrationOpens(Unclosed, Deserted(), Other);
    assert s1.sessions.Keys == {Other};
    RegistrationOpens(Unclosed, s1, Owner);
    assert s2.sessions[Owner] == Session(2, Tools);
    DispatchGoesOut(Unclosed, s2, 1, 2);
    s := Dispatched(s2, 1, 2);
  }

  // ------------------------------------------------- a client that is not honest

  const Dishonest: Premises := Premises(Config(1, 1, false), true, false)

  function Expiry(call: nat): Result { Result(call, call, call, Owner, 0, TimedOut, 0) }

  function ExpiryRecord(call: nat): Record { Record(Some(call), call, Owner, TimedOut) }

  function ExpiredRow(call: nat): Row { WaitingRow(call).Advance(TimedOut) }

  function ResultAtStage(call: nat, at: ResultAt): Pc {
    Receiving(Handle(Owner, 0), Expiry(call), at)
  }

  lemma ReceivingRuns(s: State, t: nat, call: nat, at: ResultAt, next: ResultAt)
    requires Reachable(Dishonest, s) && t in s.tasks && s.tasks[t] == ResultAtStage(call, at)
    requires at.ResultWait? ==> !Held(s, ResultLock)
    requires PlanResult(s, Handle(Owner, 0), Expiry(call), at, Smoothly) == Goto(ResultAtStage(call, next))
    ensures Reachable(Dishonest, At(s, t, ResultAtStage(call, next)))
  {
    ReachStep(Dishonest, s, Run(t, Smoothly), At(s, t, ResultAtStage(call, next)));
  }

  lemma ResultEnters(s: State, t: nat, call: nat)
    requires Reachable(Dishonest, s) && t in s.tasks && s.tasks[t] == ResultAtStage(call, ResultEnter)
    requires LiveSession(s, Handle(Owner, 0)) && !Held(s, ResultLock)
    ensures Reachable(Dishonest, At(s, t, ResultAtStage(call, ResultRead)))
  {
    ReceivingRuns(s, t, call, ResultEnter, ResultWait);
    var s1 := At(s, t, ResultAtStage(call, ResultWait));
    assert !Held(s1, ResultLock);
    ReceivingRuns(s1, t, call, ResultWait, ResultRead);
    assert At(s1, t, ResultAtStage(call, ResultRead)) == At(s, t, ResultAtStage(call, ResultRead));
  }

  lemma ResultReads(s: State, t: nat, call: nat)
    requires Reachable(Dishonest, s) && t in s.tasks && s.tasks[t] == ResultAtStage(call, ResultRead)
    requires call in s.rows && s.rows[call] == WaitingRow(call) && !Has(s.terminal, call)
    ensures Reachable(Dishonest, At(s, t, ResultAtStage(call, ResultRun([TimeOut]))))
  {
    ReceivingRuns(s, t, call, ResultRead, ResultDecide(AwaitingApproval));
    var s1 := At(s, t, ResultAtStage(call, ResultDecide(AwaitingApproval)));
    assert [] + [TimeOut] == [TimeOut];
    ReceivingRuns(s1, t, call, ResultDecide(AwaitingApproval), ResultRun([TimeOut]));
    assert At(s1, t, ResultAtStage(call, ResultRun([TimeOut]))) == At(s, t, ResultAtStage(call, ResultRun([TimeOut])));
  }

  /** The repository times out a call that awaits its approval: it does not know who asks. */
  lemma ResultExpires(s: State, t: nat, call: nat)
    requires Reachable(Dishonest, s) && t in s.tasks && s.tasks[t] == ResultAtStage(call, ResultRun([TimeOut]))
    requires call in s.rows && s.rows[call] == WaitingRow(call)
    ensures Reachable(Dishonest, At(s, t, ResultAtStage(call, ResultRun([]))).(rows := s.rows[call := ExpiredRow(call)]))
  {
    assert [TimeOut][1..] == [];
    var s' := At(s, t, ResultAtStage(call, ResultRun([]))).(rows := s.rows[call := ExpiredRow(call)]);
    assert PlanResult(s, Handle(Owner, 0), Expiry(call), ResultRun([TimeOut]), Smoothly)
        == Move(WriteRow(call, ExpiredRow(call)), Some(ResultAtStage(call, ResultRun([]))));
    ReachStep(Dishonest, s, Run(t, Smoothly), s');
  }

  /** ... and the gateway concludes the call. */
  lemma ResultConcludes(s: State, t: nat, call: nat)
    requires Reachable(Dishonest, s) && t in s.tasks && s.tasks[t] == ResultAtStage(call, ResultRun([]))
    ensures Reachable(Dishonest, Settled(FinishCall(Dishonest.cfg, s, t, call, ExpiryRecord(call), ByResult), t, None))
  {
    ReachStep(Dishonest, s, Run(t, Smoothly),
              Settled(FinishCall(Dishonest.cfg, s, t, call, ExpiryRecord(call), ByResult), t, None));
  }

  lemma ResultIsApplied(s: State, t: nat, call: nat)
    requires Reachable(Dishonest, s) && t in s.tasks && s.tasks[t] == ResultAtStage(call, ResultRead)
    requires call in s.rows && s.rows[call] == WaitingRow(call) && !Has(s.terminal, call)
    ensures Reachable(Dishonest, At(s, t, ResultAtStage(call, ResultRun([]))).(rows := s.rows[call := ExpiredRow(call)]))
  {
    ResultReads(s, t, call);
    var s1 := At(s, t, ResultAtStage(call, ResultRun([TimeOut])));
    ResultExpires(s1, t, call);
    assert At(s1, t, ResultAtStage(call, ResultRun([]))).(rows := s.rows[call := ExpiredRow(call)])
        == At(s, t, ResultAtStage(call, ResultRun([]))).(rows := s.rows[call := ExpiredRow(call)]);
  }

  lemma ResultRuns(s: State, t: nat, call: nat)
    requires Reachable(Dishonest, s) && t in s.tasks && s.tasks[t] == ResultAtStage(call, ResultEnter)
    requires LiveSession(s, Handle(Owner, 0)) && !Held(s, ResultLock)
    requires call in s.rows && s.rows[call] == WaitingRow(call) && !Has(s.terminal, call)
    ensures var s1 := At(s, t, ResultAtStage(call, ResultRun([]))).(rows := s.rows[call := ExpiredRow(call)]);
            Reachable(Dishonest, Settled(FinishCall(Dishonest.cfg, s1, t, call, ExpiryRecord(call), ByResult), t, None))
  {
    ResultEnters(s, t, call);
    ResultIsApplied(At(s, t, ResultAtStage(call, ResultRead)), t, call);
    var s1 := At(s, t, ResultAtStage(call, ResultRun([]))).(rows := s.rows[call := ExpiredRow(call)]);
    assert At(At(s, t, ResultAtStage(call, ResultRead)), t, ResultAtStage(call, ResultRun([])))
             .(rows := s.rows[call := ExpiredRow(call)]) == s1;
    ResultConcludes(s1, t, call);
  }

  /** The state while the second dispatch of call 1, the newest task, has read the row:
      the first deadline, the results still under way, and what has been concluded. */
  function Racing(deadline: Pc, results: map<nat, Pc>, future: Future, pending: map<nat, nat>,
                  terminal: seq<(nat, Record)>, rows: map<nat, Row>): State {
    OneOut().(tasks := map[2 := deadline] + results, futures := map[0 := future], pending := pending,
              terminal := terminal, rows := rows, nextTid := 5)
  }

  const Results: map<nat, Pc> := map[3 := ResultAtStage(1, ResultEnter), 4 := ResultAtStage(2, ResultEnter)]

  function BeforeResults(): State {
    Racing(Timer(0, Asleep), Results, Open, map[1 := 0], [], Ready().rows)
  }

  lemma RaceStarts()
    ensures Reachable(Dishonest, Started(BeforeResults(), Read(1, 0)))
  {
    ResultsArrive();
    DispatchReads(Dishonest, BeforeResults(), 1, 0);
  }

  lemma ResultsArrive()
    ensures Reachable(Dishonest, BeforeResults()) && Idle(BeforeResults())
  {
    OneOutIsReached(Dishonest);
    Arrives(Dishonest, OneOut(), ResultAtStage(1, ResultEnter));
    Arrives(Dishonest, Started(OneOut(), ResultAtStage(1, ResultEnter)), ResultAtStage(2, ResultEnter));
    BeforeResultsIs();
  }

  lemma BeforeResultsIs()
    ensures Started(Started(OneOut(), ResultAtStage(1, ResultEnter)), ResultAtStage(2, ResultEnter)) == BeforeResults()
  {
    var s := OneOut();
    assert s.tasks == map[2 := Timer(0, Asleep)] && s.futures == map[0 := Open] && s.pending == map[1 := 0];
    assert s.nextTid == 3 && s.terminal == [] && s.rows == Ready().rows;
  }

  function AfterFirst(): State {
    Racing(Unwinding({}, None), map[4 := ResultAtStage(2, ResultEnter)], Done(ByResult), map[],
           [(1, ExpiryRecord(1))], map[1 := ExpiredRow(1), 2 := WaitingRow(2)])
  }

  /** The result for call 1 at its conclusion. */
  function FirstConcluding(): State {
    At(Started(BeforeResults(), Read(1, 0)), 3, ResultAtStage(1, ResultRun([])))
      .(rows := map[1 := ExpiredRow(1), 2 := WaitingRow(2)])
  }

  lemma FirstConclusion()
    ensures Settled(FinishCall(Dishonest.cfg, FirstConcluding(), 3, 1, ExpiryRecord(1), ByResult), 3, None)
            == Started(AfterFirst(), Read(1, 0))
  {
    FirstFinish();
    TasksMeet(Timer(0, Asleep), Results[3], Results[4], Read(1, 0), ResultAtStage(1, ResultRun([])), Unwinding({}, None));
  }

  lemma TasksMeet(deadline: Pc, first: Pc, second: Pc, dispatch: Pc, concluding: Pc, cut: Pc)
    ensures (map[2 := deadline] + map[3 := first, 4 := second])[5 := dispatch][3 := concluding][2 := cut] - {3}
            == (map[2 := cut] + map[4 := second])[5 := dispatch]
  {
  }

  function FirstFinished(): State {
    var s := FirstConcluding();
    s.(pending := map[], terminal := [(1, ExpiryRecord(1))], futures := map[0 := Done(ByResult)],
       tasks := s.tasks[2 := Unwinding({}, None)])
  }

  lemma FirstFinish()
    ensures FinishCall(Dishonest.cfg, FirstConcluding(), 3, 1, ExpiryRecord(1), ByResult) == FirstFinished()
  {
    var s := FirstConcluding();
    FirstIsRemembered();
    assert s.pending - {1} == map[];
    var s0 := s.(pending := map[], terminal := [(1, ExpiryRecord(1))]);
    CutOf(s0);
    assert s0.futures[0 := Done(ByResult)] == map[0 := Done(ByResult)];
  }

  lemma FirstIsRemembered()
    ensures Remember([], 1, ExpiryRecord(1), 1) == [(1, ExpiryRecord(1))]
  {
    assert Without<nat, Record>([], 1) == [];
  }

  lemma CutOf(s0: State)
    requires s0 == FirstConcluding().(pending := map[], terminal := [(1, ExpiryRecord(1))])
    ensures CancelTimer(s0, 3, 0) == s0.(tasks := s0.tasks[2 := Unwinding({}, None)])
  {
  }

  lemma FirstResult()
    ensures Reachable(Dishonest, Started(AfterFirst(), Read(1, 0)))
  {
    RaceStarts();
    RaceStands();
    var s := Started(BeforeResults(), Read(1, 0));
    ResultRuns(s, 3, 1);
    FirstConclusion();
  }

  lemma RaceStands()
    ensures var s := Started(BeforeResults(), Read(1, 0));
            && 3 in s.tasks && s.tasks[3] == ResultAtStage(1, ResultEnter)
            && LiveSession(s, Handle(Owner, 0)) && !Held(s, ResultLock) && s.terminal == []
            && 1 in s.rows && s.rows[1] == WaitingRow(1)
            && s.rows[1 := ExpiredRow(1)] == map[1 := ExpiredRow(1), 2 := WaitingRow(2)]
  {
  }

  function AfterSecond(): State {
    Racing(Unwinding({}, None), map[], Done(ByResult), map[], [(2, ExpiryRecord(2))],
           map[1 := ExpiredRow(1), 2 := ExpiredRow(2)])
  }

  lemma SecondConclusion()
    ensures var s := At(Started(AfterFirst(), Read(1, 0)), 4, ResultAtStage(2, ResultRun([])))
                       .(rows := map[1 := ExpiredRow(1), 2 := ExpiredRow(2)]);
            Settled(FinishCall(Dishonest.cfg, s, 4, 2, ExpiryRecord(2), ByResult), 4, None) == Started(AfterSecond(), Read(1, 0))
  {
    var s := At(Started(AfterFirst(), Read(1, 0)), 4, ResultAtStage(2, ResultRun([])))
               .(rows := map[1 := ExpiredRow(1), 2 := ExpiredRow(2)]);
    var table := [(1, ExpiryRecord(1))];
    assert table[1..] == [];
    assert Without(table, 2) == table;
    assert Remember(table, 2, ExpiryRecord(2), 1) == [(2, ExpiryRecord(2))];
    assert s.pending - {2} == map[];
    assert s.tasks - {4} == Started(AfterSecond(), Read(1, 0)).tasks;
  }

  lemma SecondResult()
    ensures Reachable(Dishonest, Started(AfterSecond(), Read(1, 0)))
  {
    FirstResult();
    var s := Started(AfterFirst(), Read(1, 0));
    assert !Held(s, ResultLock);
    ResultRuns(s, 4, 2);
    assert s.rows[2 := ExpiredRow(2)] == map[1 := ExpiredRow(1), 2 := ExpiredRow(2)];
    SecondConclusion();
  }

  /** Although every deadline reconciles and no disconnection fails, a call can be
      written twice: a TIMED_OUT result for a call that awaits its approval concludes
      it between the read and the check of a second dispatch, and the bounded table
      forgets it in between. */
  lemma WrittenTwiceByDishonestClient() returns (s: State)
    ensures Reachable(Dishonest, s) && s.sent == [1, 1]
  {
    SecondResult();
    LastStands();
    var last := AfterSecond();
    DispatchWrites(Dishonest, last, 1, 0);
    s := Started(Written(last, 5, 1, 0), Sending(1, Write(true)));
  }

  lemma LastStands()
    ensures var s := AfterSecond();
            && s.nextTid == 5 && 5 !in s.tasks && s.nextPid == 1 && s.sent == [1]
            && LiveSession(s, Handle(Owner, 0)) && 1 !in s.pending && !Has(s.terminal, 1)
  {
  }
}
