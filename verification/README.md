# Nivelle: verified models of the tool protocol, the chat turn and their neighbours

This project models the stateful core of Nivelle in Dafny and proves what its parts are for.

* **The tool-call protocol between Core and Link.** `ToolLifecycle` is the graph of durable
  statuses, `ToolRepository` the durable row with the orchestrator's operations, and
  `AgentProtocol` what the gateway does with one message. `GatewayMachine` is the gateway as a
  machine of interleaved tasks: every coroutine (dispatch, event, result, deadline,
  disconnection, registration, refresh, revocation) is a program counter that names the await
  at which it is suspended, three locks are read off the program counters, and every await may
  end normally, with an exception or with a cancellation, its transaction applied or not.
  `GatewayLocks`, `GatewayInvariant`, `GatewayWaiters`, `GatewaySteps`, `GatewayRuns` and
  `GatewayDelivery` prove what holds over all runs. `GatewayReplay` builds concrete runs of the
  machine, from which `GatewayRedelivery` shows that each premise of the delivery theorem is
  needed and that a waiter can be stranded. `GatewayAlone` is a task that nobody disturbs, and
  `GatewayUndisturbed`, `GatewayEvents` and `GatewayClosing` say what each kind of task is for:
  the whole new state after a deadline, a dispatch, a result, an event, a disconnection, a
  registration, a refresh or a revocation, with every status written out. `AgentGateway` is the object with its tables,
  eviction loops and in-place updates, each method shown to have the effect the machine gives
  it. `AgentController` is the Link's controller in the same two forms, and `Composition` puts
  the two halves together over a first-in first-out channel; `ProtocolAgreement` shows that its
  handling of a message is the machine's.
* **The chat turn.** `ChatTurn` is a machine of concurrent `generate` tasks with claims on
  shared sets, a durable turn, and a cancellation or exception possible at every await.
  `ChatOutcomes` says how a turn ends: answered, interrupted, refused or orphaned.
* **Real-time audio.** `RealtimeAudio`: ring buffer, PCM decoder, hop counter, worker queue and
  bucketed reductions against one specification of the whole stream. `AudioFormats` says byte by
  byte what that specification gives.
* **Supporting state machines.** `LocalMigration` (staged copy and promotion), `RuntimeDownload`
  (resumable verified download), `ConnectionManager` (generations and backoff),
  `MessageTimeline` (bubbles and their ids), `PrunedWalk`, `PortablePackage`, `PortableArchive`
  and `PortableContents` (the packaging walk, the path filter, the archive, and what is in it).

`OrderedTable` holds the bounded insertion-ordered tables that several parts share.

Findings, each stated as a lemma about the code as it is:

* A waiter is stranded exactly when a disconnection fails while an unresolved waiter depends on
  it (`GatewayRuns.FailingDisconnection`), and a run of one call reaches that: no task is left and
  the future stays open (`GatewayRedelivery.StrandedForGood`).
* At-most-once delivery (`GatewayDelivery.AtMostOnceDelivery`) needs each of its three premises:
  without one of them a call can be written twice. Deadlines must reconcile
  (`GatewayRedelivery.WrittenTwiceAfterFailedDeadlines`), disconnections must succeed
  (`WrittenTwiceAfterFailedDisconnection`), and the client must not report `timed_out` for a call
  whose approval is still awaited (`WrittenTwiceByDishonestClient`).
* With equal approval modes the gateway still rejects an approval, and ends the session, when
  the client has no parallel slot left; with different modes it rejects exactly one kind of
  message per mismatch (`Composition.RejectedExactlyWhen`, `Composition.SlotShortage`).
* Between a decision and the execution a request is protected by neither of the controller's
  tables: an admission forgets it exactly when the table is over its limit by more than the free
  calls before it (`AgentController.DecisionWindow`), and a redelivery is then admitted, approved
  and executed a second time (`AgentController.ExecutedTwice`).
* When the allocation of a turn breaks although it was committed, the client is told that the
  turn failed and its row stays generating until it is deleted or the server is started again
  (`ChatOutcomes.AllocationBreaks`, `ChatOutcomes.OrphanedForGood`).
* A second terminal event follows a rejection exactly when sending the rejection failed
  (`ChatTurn.RejectionFollowedWhenItsSendFails`).
* A directory named like a SQLite sidecar takes everything below it out of the migration
  (`LocalMigration.BackedUpExactlyWhenReached`). A disk that does not fail is not enough for a
  migration: it never succeeds exactly when a legacy file would go to `backups`, or a legacy
  directory has the marker's name (`LocalMigration.Disk.Migrate`, `LocalMigration.Blocked`).
* A reconnection loop that is awaiting its attempt when new profiles arrive overwrites their
  backoff of 1 by its own doubled delay (`ConnectionManager.ResetIsOverwritten`). A generator of
  `reconnect_delays` beside the scheduled loop could even lower the backoff
  (`ConnectionManager.GeneratorCanLowerBackoff`), but its only user
  (`apps/client/nivelle_link/app.py:1173`) is called by no other part of the program.
* A 32-bit sample within 64 of the positive full scale is read as exactly 1.0
  (`AudioFormats.Int32FullScale`).
* `tool.progress` is also accepted as the change from queued to running
  (`ToolLifecycle.ProgressAcceptance`).

Identifiers are natural numbers, time is absent (a deadline may fire at any moment), and sends
and transactions are events that may fail.

## Model

| member | source | states |
|---|---|---|
| ToolLifecycle.RunIsBounded | packages/nivelle_protocol/tools.py:136-175 | every legal run from any status makes at most six changes and visits no status twice |
| ToolLifecycle.TerminalIsAbsorbing | packages/nivelle_protocol/tools.py:124-175 | a terminal status ends every run, and terminal statuses are exactly the dead ends of the graph |
| ToolLifecycle.ApprovalPrecedesRunning | packages/nivelle_protocol/tools.py:152-162 | a run from AWAITING_APPROVAL to RUNNING consists of APPROVED and QUEUED in between |
| ToolLifecycle.ProgressOnlyStutters | packages/nivelle_protocol/tools.py:442-459 | dropping repetitions from an accepted event stream leaves a legal run, and the repetitions are exactly the progress reports on a running call |
| ToolLifecycle.EventStreamIsBounded | packages/nivelle_protocol/tools.py:544-553 | from PROPOSED at most six events of an accepted stream are not progress on a running call |
| ToolLifecycle.ProgressAcceptance | packages/nivelle_protocol/tools.py:544-553 | progress is accepted exactly from QUEUED and RUNNING, and keeps the status exactly on RUNNING |
| ToolLifecycle.WaysInto | packages/nivelle_protocol/tools.py:136-175 | the graph read backwards: from which statuses each one can be reached |
| ToolLifecycle.EventTypesRoundTrip | apps/server/nivelle_core/tool_repository.py:48-63 | the log's table of event types and the protocol's table of event statuses are inverse to each other, progress aside |
| ToolRepository.PerformIsSafe | apps/server/nivelle_core/tool_repository.py:350-588 | every durable operation keeps the log a legal run, extends it by at most one status, leaves a closed call alone, and changes nothing when it refuses unless the capability was lost |
| ToolRepository.DisconnectedIsValid | apps/server/nivelle_core/tool_repository.py:737-785 | disconnecting a session closes each of its open rows legally |
| ToolRepository.DecisionExactly | apps/server/nivelle_core/tool_repository.py:437-480 | approving and denying: done before, done now from AWAITING_APPROVAL, or refused without a change |
| ToolRepository.ClosureExactly | apps/server/nivelle_core/tool_orchestrator.py:246-281 | cancelling and timing out, likewise from their own statuses; progress changes nothing and is accepted on a running call |
| ToolRepository.StartExactly | apps/server/nivelle_core/tool_orchestrator.py:147-190 | queueing and starting, likewise; without a live capability they close the call |
| ToolRepository.ResultExactly | apps/server/nivelle_core/tool_repository.py:482-567 | a result is recorded with its outcome on a running call, is accepted again if it is the same, and refused otherwise |
| GatewayLocks.AcquisitionOrder | apps/server/nivelle_core/agent_gateway.py:182-185 | at every await, whatever a task holds comes strictly before the lock it asks for, so none re-enters a lock |
| GatewayLocks.NoWaitingCycle | apps/server/nivelle_core/agent_gateway.py:1000-1003 | in any set of tasks some member waits for no other member |
| GatewayLocks.SomeTaskCanStep | apps/server/nivelle_core/agent_gateway.py:268-323 | while any task is left one can take its next step |
| GatewayLocks.MutualExclusion | apps/server/nivelle_core/agent_gateway.py:614-644 | in every run at every moment each lock has at most one holder |
| GatewayRuns.EveryStepKeepsCore | apps/server/nivelle_core/agent_gateway.py:199-234 | every step and every arrival keeps what sessions, tables and tasks rely on, also when a disconnection fails part way |
| GatewayRuns.EveryStepKeepsInv | apps/server/nivelle_core/agent_gateway.py:257-346 | where disconnections do not fail part way, every step and every arrival keeps the whole gateway invariant |
| GatewayRuns.NoWaiterIsStranded | apps/server/nivelle_core/agent_gateway.py:301-346 | where disconnections do not fail part way, in every reachable state a waiter in the table is being sent and unresolved or has a live deadline, and one out of the table is resolved or held by a disconnection under way |
| GatewayRuns.QuiescenceResolvesAll | apps/server/nivelle_core/agent_gateway.py:968-1114 | where disconnections do not fail part way, when no task is left the table is empty and every future ever made is completed |
| GatewayRuns.FutureCompletesOnce | apps/server/nivelle_core/agent_gateway.py:968-992 | on every run a completed future keeps its outcome for the rest of it |
| GatewayRuns.OneLiveSessionPerClient | apps/server/nivelle_core/agent_gateway.py:199-234 | on every run a client has at most one live session and every pending call targets the live connection it was sent to |
| GatewayRuns.SessionKeysAreSpaced | apps/server/nivelle_core/agent_gateway.py:1143-1147 | on every run two registrations of one session key are more than the retention apart |
| GatewayRuns.FailingDisconnection | apps/server/nivelle_core/agent_gateway.py:1076-1114 | a fault inside a disconnection keeps the invariant exactly when no unresolved waiter depended on it |
| GatewayDelivery.AtMostOnceDelivery | apps/server/nivelle_core/agent_gateway.py:268-323 | with deadlines that reconcile, disconnections that succeed and an honest client no tool_call_id is written to a socket twice, whatever the bounded table has forgotten |
| GatewayDelivery.OperationGrows | apps/server/nivelle_core/tool_orchestrator.py:111-336 | an operation never moves a row back, and one that is not refused moves it past approval |
| GatewayRedelivery.WrittenTwiceAfterFailedDeadlines | apps/server/nivelle_core/agent_gateway.py:1032-1052 | a run with an honest client and succeeding disconnections that writes a call twice, after reconciliations that raised and an eviction |
| GatewayRedelivery.WrittenTwiceAfterFailedDisconnection | apps/server/nivelle_core/agent_gateway.py:1076-1114 | a run with an honest client and reconciling deadlines that writes a call twice, after a failed disconnection and a new registration of the key |
| GatewayRedelivery.WrittenTwiceByDishonestClient | apps/server/nivelle_core/agent_gateway.py:268-290 | a run with reconciling deadlines and succeeding disconnections that writes a call twice, after a timed_out result for a call awaiting approval |
| GatewayRedelivery.StrandedForGood | apps/server/nivelle_core/agent_gateway.py:1076-1114 | a run from the initial state in which a failed disconnection leaves an open future with no task, no table entry and no deadline |
| GatewayAlone.EndIsUnique | apps/server/nivelle_core/agent_gateway.py:182-185 | a task that nobody disturbs comes to one end only |
| GatewayUndisturbed.DeadlineExpires | apps/server/nivelle_core/agent_gateway.py:994-1052 | a deadline adds TIMED_OUT to the log, after RUNNING if the call was queued, keeps the outcome, takes the waiter out of the table, remembers it and resolves it by timeout, and changes nothing else |
| GatewayUndisturbed.DispatchDelivers | apps/server/nivelle_core/agent_gateway.py:257-323 | a deliverable request is written once; its waiter is in the table, unresolved, with a live deadline; the row is queued unless its approval is awaited |
| GatewayUndisturbed.DispatchRefuses | apps/server/nivelle_core/agent_gateway.py:268-300 | any other request ends without a trace |
| GatewayUndisturbed.ResultLands | apps/server/nivelle_core/agent_gateway.py:606-645 | a result adds its status to the log of a queued or running call, with its outcome, is remembered with its id, resolves its caller, and ends the session if it reports a disconnection |
| GatewayUndisturbed.ResultIsDropped | apps/server/nivelle_core/agent_gateway.py:614-633 | a repeated or premature result changes nothing |
| GatewayEvents.EventConcludes | apps/server/nivelle_core/agent_gateway.py:477-604 | a denial, failure, cancellation or expiry closes the row as its status allows, is remembered, and fails its caller |
| GatewayEvents.EventStartsCall | apps/server/nivelle_core/agent_gateway.py:496-503 | a started event moves a queued call to running and changes nothing else |
| GatewayEvents.EventIsSilent | apps/server/nivelle_core/agent_gateway.py:436-532 | events only the server may send, completions without a result, and repetitions change nothing |
| GatewayEvents.EventHangsUp | apps/server/nivelle_core/agent_gateway.py:524-526 | a client that reports its own disconnection is disconnected |
| GatewayEvents.ApprovalLands | apps/server/nivelle_core/agent_gateway.py:444-475 | with a free slot an approval adds APPROVED and QUEUED, and its waiter goes on under a fresh deadline |
| GatewayEvents.ApprovalWithoutSlot | apps/server/nivelle_core/agent_gateway.py:456-473 | without one the approval is recorded and the session disconnected |
| GatewayClosing.DisconnectionLands | apps/server/nivelle_core/agent_gateway.py:1076-1114 | a disconnection ends exactly its session, closes its open rows, and takes its waiters out of the table, without deadlines and resolved |
| GatewayClosing.SettlesOne | apps/server/nivelle_core/agent_gateway.py:1093-1113 | each of them is remembered as disconnected |
| GatewayClosing.RegistrationLands | apps/server/nivelle_core/agent_gateway.py:187-234 | a registration ends the client's other sessions in the same way and opens the new one with its tools |
| GatewayClosing.RegistrationIsRefused | apps/server/nivelle_core/agent_gateway.py:199-203 | a remembered key is refused without a change |
| GatewayClosing.RefreshLands | apps/server/nivelle_core/agent_gateway.py:236-255 | a refresh replaces the tools of the live connection and of no other |
| GatewayClosing.RevocationLands | apps/server/nivelle_core/agent_gateway.py:653-666 | a revocation ends every session of the client and no other |
| AgentGateway.Gateway.RememberTerminalLocked | apps/server/nivelle_core/agent_gateway.py:1137-1141 | the terminal table becomes the newest entries up to its retention, the new one last |
| AgentGateway.Gateway.RememberSeenSessionLocked | apps/server/nivelle_core/agent_gateway.py:1143-1147 | the seen-session table becomes the newest keys up to its retention, the new one last and only once |
| AgentGateway.Gateway.CancelTimeout | apps/server/nivelle_core/agent_gateway.py:1159-1163 | afterwards the waiter has no live deadline, unless that is the running task itself; other waiters keep theirs and every lock its holders |
| AgentGateway.Gateway.EnsureTimeoutLocked | apps/server/nivelle_core/agent_gateway.py:1149-1157 | afterwards the waiter has a live deadline, a new task if none was live and else nothing changed; other waiters keep theirs and every lock its holders |
| AgentGateway.Gateway.BeginExecutionTimeout | apps/server/nivelle_core/agent_gateway.py:878-889 | exchanges the approval deadline for an execution deadline exactly when the waiter is still the one in the table and unresolved |
| AgentGateway.Gateway.Finish | apps/server/nivelle_core/agent_gateway.py:968-992 | removes the call, remembers its terminal record, cuts its deadline and resolves its future once |
| AgentGateway.Gateway.ExpireLocked | apps/server/nivelle_core/agent_gateway.py:1032-1052 | the last section of a deadline, as the machine has it; what a whole deadline does is GatewayUndisturbed.DeadlineExpires |
| AgentGateway.Gateway.PopSessionLocked | apps/server/nivelle_core/agent_gateway.py:1077-1089 | takes exactly the session's waiters out of the table when the handle is live, and changes nothing otherwise |
| AgentGateway.Gateway.SettleItems | apps/server/nivelle_core/agent_gateway.py:1093-1113 | each popped waiter in turn loses its deadline, is remembered as disconnected and is resolved if still open |
| AgentGateway.SettleAllResolves | apps/server/nivelle_core/agent_gateway.py:1093-1113 | a disconnection completes every open future among its waiters and no other |
| AgentGateway.Gateway.AddSessionLocked | apps/server/nivelle_core/agent_gateway.py:219-233 | a registration opens the session and records its key as the newest |
| AgentGateway.Gateway.InsertLocked | apps/server/nivelle_core/agent_gateway.py:315-323 | when the routed session is still live, and only then, a fresh waiter stands in the table, unresolved and targeting that session; older waiters are untouched, and the tables and sessions stay consistent |
| Composition.RejectedExactlyWhen | apps/server/nivelle_core/agent_gateway.py:426-604 | in every reachable state the next message is rejected exactly for a revealing mode mismatch or an approval without a parallel slot |
| Composition.AgreedModesAreAccepted | apps/client/nivelle_link/agent_controller.py:108-352 | with equal modes and no more unfinished calls than slots every message the controller emits is accepted, however many calls there have been |
| Composition.FinalStatusCorresponds | apps/server/nivelle_core/agent_gateway.py:910-966 | a finished call whose messages are consumed has the durable status that corresponds to the controller's last message, and no waiter, also after the session has ended, unless its own message was refused |
| Composition.EndClosesAll | apps/server/nivelle_core/agent_gateway.py:1076-1114 | when the session has ended every call is closed and no waiter is left |
| ProtocolAgreement.EventAgrees | apps/server/nivelle_core/agent_gateway.py:426-645 | an undisturbed handler of an event that the composition accepts leaves the row, the waiter and the hang-up as the composition says |
| ProtocolAgreement.ResultAgrees | apps/server/nivelle_core/agent_gateway.py:910-966 | the same for a result |
| Composition.FittingIsAccepted | apps/server/nivelle_core/agent_gateway.py:426-645 | a message that fits the durable status is accepted and moves it as the correspondence says, closing the waiter exactly on terminal statuses |
| Composition.SlotShortage | apps/server/nivelle_core/tool_repository.py:386-435 | a run with equal modes in which the second of two approvals is rejected for want of a slot |
| Composition.ResultIsReached | apps/client/nivelle_link/agent_controller.py:280-340 | with and without approval a call can run to each of its results, and the row then holds exactly the statuses it went through |
| Composition.NoticeIsReached | apps/client/nivelle_link/agent_controller.py:201-256 | before that it can be denied, expire, fail its validation or be cancelled, likewise |
| AgentController.ExecutionsNeverExceedAdmissions | apps/client/nivelle_link/agent_controller.py:132-207 | over any run a request is executed at most as often as it was freshly admitted, also while approvals are under way |
| AgentController.AwaitingIsRemembered | apps/client/nivelle_link/agent_controller.py:540-569 | a request awaiting approval is never evicted, and terminals stay within 256 |
| AgentController.HeldIsKept | apps/client/nivelle_link/agent_controller.py:546-569 | a remembered request that awaits a decision or executes stays remembered through every step and cannot be admitted meanwhile |
| AgentController.FingerprintsOverflowOnlyWhenBusy | apps/client/nivelle_link/agent_controller.py:540-557 | an admission leaves at most 512 fingerprints unless every other remembered call is held, and nothing else adds one |
| AgentController.FingerprintBound | apps/client/nivelle_link/agent_controller.py:540-557 | at any time the table is within 512 or no longer than the held calls of some earlier admission allow |
| AgentController.TrimIsExact | apps/client/nivelle_link/agent_controller.py:543-557 | forgetting keeps the current and held calls and removes no more than needed |
| AgentController.TrimForgetsOldest | apps/client/nivelle_link/agent_controller.py:544-552 | whatever may go and is older than something forgotten is forgotten too |
| AgentController.TrimDropsTerminals | apps/client/nivelle_link/agent_controller.py:555-557 | with a fingerprint goes the terminal message of its call, and no other |
| AgentController.TrimForgetsWithTerminals | apps/client/nivelle_link/agent_controller.py:559-569 | the oldest terminals beyond 256 go, with the fingerprints of those calls that are not held and no others |
| AgentController.TrimTerminalsIsExact | apps/client/nivelle_link/agent_controller.py:559-569 | the terminal table keeps its newest 256, and held fingerprints survive |
| AgentController.ForgottenExactlyWhen | apps/client/nivelle_link/agent_controller.py:540-557 | of the calls that may go, forgetting takes the first ones, exactly as many as the table is over its limit |
| AgentController.DecisionWindow | apps/client/nivelle_link/agent_controller.py:204-256 | an admission forgets an unheld call exactly when the table is over its limit by more than the free calls before it, and exactly then a redelivery is admitted afresh |
| AgentController.ExecutedTwice | apps/client/nivelle_link/agent_controller.py:201-256 | a run from the initial state in which one request is admitted, approved and executed twice |
| AgentController.ClosedForGood | apps/client/nivelle_link/agent_controller.py:679-689 | once closed, nothing is admitted or pending for the rest of the run, no further call becomes ready, and closing again changes nothing |
| AgentController.Controller.RememberFingerprint | apps/client/nivelle_link/agent_controller.py:540-557 | the nested loops compute exactly the trimmed tables |
| AgentController.Controller.RememberTerminal | apps/client/nivelle_link/agent_controller.py:559-569 | the eviction loop computes exactly the trimmed tables |
| AgentController.Controller.HandleServerEvent | apps/client/nivelle_link/agent_controller.py:108-199 | an open controller admits an unknown call and remembers it as the newest; it executes it, makes it ready, lets it wait for a decision or none of these, as policy says; a known call gets exactly the message remembered for the same request; otherwise nothing changes |
| AgentController.RequestArrives | apps/client/nivelle_link/agent_controller.py:108-199 | the same of the specification |
| AgentController.Controller.Decide | apps/client/nivelle_link/agent_controller.py:201-256 | a decision takes the pending request once and lets it proceed only when granted and open |
| AgentController.Controller.Cancel | apps/client/nivelle_link/agent_controller.py:578-592 | cancellation is requested exactly for a supported call in execution not yet cancelled |
| AgentController.Controller.Close | apps/client/nivelle_link/agent_controller.py:679-689 | afterwards the controller is closed, nothing is pending and every execution under way has its cancellation set; a second call changes nothing |
| ChatTurn.DurableTruth | apps/server/nivelle_core/app.py:1664-1778 | wherever a turn is cut short, assistant.completed is sent only for a completed row, chat.cancelled and LLM_STREAM_INTERRUPTED only for one that is not, and at most one of them is attempted |
| ChatOutcomes.UndisturbedTurnIsAnswered | apps/server/nivelle_core/app.py:1664-1677 | on every run a turn whose awaits end normally and whose row is not deleted ends, if admitted, with a completed row and assistant.completed, and else without a row and with one refusal |
| ChatOutcomes.CompletionIsStored | apps/server/nivelle_core/app.py:1665-1677 | at the end of the stream the row is stored as completed and the completion is sent |
| ChatOutcomes.TurnCutShortIsReported | apps/server/nivelle_core/app.py:1678-1778 | on every run a turn cut short once while it generates ends interrupted, with chat.cancelled or LLM_STREAM_INTERRUPTED, or completed if its completion had just been stored |
| ChatOutcomes.AllocationBreaks | apps/server/nivelle_core/app.py:1414-1449 | a broken allocation is reported, and leaves a generating row exactly when it had been committed |
| ChatOutcomes.OrphanedForGood | apps/server/nivelle_core/app.py:1678-1778 | such a row stays generating for the rest of the run |
| ChatOutcomes.FreshRequestIsAnswered | apps/server/nivelle_core/app.py:1104-1677 | a request with fresh ids, a retry or not, in an old conversation or a new one, is admitted and answered when nothing goes wrong: both rows carry its ids and no claim is left |
| ChatOutcomes.DuplicateIsRejected | apps/server/nivelle_core/app.py:1105-1147 | accurate lookups refuse exactly the request and message ids that are stored or in flight |
| ChatOutcomes.BusyConversationRejects | apps/server/nivelle_core/app.py:1294-1312 | a further turn is refused exactly in a conversation that is generating |
| ChatOutcomes.RetryIsRejected | apps/server/nivelle_core/app.py:1154-1260 | a retry is claimed exactly when its target was interrupted, is in the conversation asked for, and has not been and is not being retried |
| ChatTurn.CompletedNeverRegresses | apps/server/nivelle_core/app.py:1665-1706 | a completed assistant row stays completed or deleted for the rest of the run |
| ChatTurn.RejectionFollowedWhenItsSendFails | apps/server/nivelle_core/app.py:1106-1140 | after a rejection another terminal event is attempted exactly when the rejection's send failed |
| ChatTurn.ClaimsAreExclusive | apps/server/nivelle_core/app.py:1104-1313 | the four in-flight sets are exactly the live tasks' claims, no claim is shared, and generating turns are in different conversations |
| ChatTurn.NothingLeftInFlight | apps/server/nivelle_core/app.py:1779-1792 | when all tasks have ended every set is empty |
| ChatTurn.OneUserRowPerId | apps/server/nivelle_core/repositories.py:145-245 | with the unique indexes as the last guard, at most one durable user row per request id, client message id and retry target, on every run, also when lookups are stale |
| ChatTurn.ClaimsAloneSuffice | apps/server/nivelle_core/app.py:1415-1449 | as long as lookups miss no committed row, an allocation never meets the unique indexes |
| ChatTurn.Services.ClaimRequest | apps/server/nivelle_core/app.py:1104-1147 | claims the request id exactly when it is neither stored nor in flight |
| ChatTurn.Services.ClaimRetry | apps/server/nivelle_core/app.py:1166-1260 | claims the retry target exactly when it is interrupted, in the same conversation, not retried yet and not in flight |
| ChatTurn.Services.ClaimMessage | apps/server/nivelle_core/app.py:1262-1313 | claims the message and then its conversation, if that is not generating |
| ChatTurn.Services.Release | apps/server/nivelle_core/app.py:1779-1791 | afterwards an id is in flight exactly when another task claims it: the task's own claims are gone and nobody else's are |
| RealtimeAudio.AudioRingBuffer.Append | apps/client/nivelle_link/realtime_audio.py:79-94 | the wrapped array represents the whole appended stream's newest samples |
| RealtimeAudio.AudioRingBuffer.Latest | apps/client/nivelle_link/realtime_audio.py:96-105 | returns the newest min(count, size) samples in order |
| RealtimeAudio.PcmStreamDecoder.Decode | apps/client/nivelle_link/realtime_audio.py:129-146 | what is decoded chunk by chunk is the whole stream decoded at once, for any split; AudioFormats says what that is |
| AudioFormats.UInt8Sample | apps/client/nivelle_link/realtime_audio.py:135-136 | a byte is read around 128 |
| AudioFormats.Int16Sample | apps/client/nivelle_link/realtime_audio.py:113-138 | two bytes are read low byte first, in two's complement |
| AudioFormats.Int32Sample | apps/client/nivelle_link/realtime_audio.py:114-140 | four bytes likewise, exactly as long as 24 bits suffice and within 64 otherwise |
| AudioFormats.Int32FullScale | apps/client/nivelle_link/realtime_audio.py:139-140 | exactly the 64 greatest numbers are read as 1.0 |
| AudioFormats.Float32Sample | apps/client/nivelle_link/realtime_audio.py:141-146 | NaN is read as 0 and the infinities as 1 and -1 |
| AudioFormats.ChannelsAreAveraged | apps/client/nivelle_link/realtime_audio.py:143-145 | a frame of several channels gives the mean of what they would give by themselves |
| AudioFormats.UndefinedFrame | apps/client/nivelle_link/realtime_audio.py:145-146 | a NaN or infinities of both signs silence a frame, others end at 1 or -1 |
| AudioFormats.SampleAt | apps/client/nivelle_link/realtime_audio.py:129-146 | the k-th sample is that of the k-th frame of the stream |
| AudioFormats.CountIs | apps/client/nivelle_link/realtime_audio.py:130-131 | there are as many samples as whole frames |
| RealtimeAudio.AnySplitDecodesTheSame | apps/client/nivelle_link/realtime_audio.py:129-146 | over any list of chunks, decoding one by one yields exactly the samples of the whole stream |
| RealtimeAudio.CutSplits | apps/client/nivelle_link/realtime_audio.py:129-146 | decoding whole frames and then the rest is decoding everything |
| RealtimeAudio.SamplesAreInRange | apps/client/nivelle_link/realtime_audio.py:136-146 | the integer formats mix down into the range from -1 to 1, and below 1 for 8 and 16 bits |
| RealtimeAudio.SingleIsBounded | apps/client/nivelle_link/realtime_audio.py:139-140 | converting 32 bits to a float32 reaches the full scale from 64 below it on |
| RealtimeAudio.RealtimeAudioAnalyzer.Push | apps/client/nivelle_link/realtime_audio.py:185-195 | a push analyses exactly when the number of completed hops grows |
| RealtimeAudio.RealtimeAnalysisWorker.Latest | apps/client/nivelle_link/realtime_audio.py:96-146 | however the processed bytes were split, the buffer shows the last min(k, capacity, frames) samples of the whole stream |
| RealtimeAudio.RealtimeAnalysisWorker.Submit | apps/client/nivelle_link/realtime_audio.py:427-440 | the queue holds the newest accepted chunks in order, at most eight, dropping the oldest |
| RealtimeAudio.RealtimeAnalysisWorker.Process | apps/client/nivelle_link/realtime_audio.py:466-479 | one turn takes the oldest chunk and analyses exactly when a hop is completed |
| RealtimeAudio.ReduceSpectrum | apps/client/nivelle_link/realtime_audio.py:232-250 | each bucket gives its first greatest level with the frequency of that bin |
| RealtimeAudio.BucketOf | apps/client/nivelle_link/realtime_audio.py:236-244 | every bin lies in exactly one bucket |
| RealtimeAudio.EdgesAreEven | apps/client/nivelle_link/realtime_audio.py:237 | each edge is its even share of the input, rounded down |
| RealtimeAudio.ReductionKeepsPeak | apps/client/nivelle_link/realtime_audio.py:244-249 | every level, hence the maximum, is reached by the level kept for some bucket |
| RealtimeAudio.ReductionKeepsOrder | apps/client/nivelle_link/realtime_audio.py:244-249 | strictly increasing frequencies stay strictly increasing |
| RealtimeAudio.EnvelopeBoundsItsSamples | apps/client/nivelle_link/realtime_audio.py:221-230 | the groups are the input cut into consecutive pieces, full ones of the least size that makes no more groups than asked for and a last one, each bounding exactly its own samples |
| LocalMigration.Disk.Migrate | packages/nivelle_protocol/local_migration.py:275-379 | after every change the source is as it was and the destination has no files or the complete tree; the outcome agrees with the inspection, and a migration that may proceed succeeds exactly when the disk does not fail and no legacy entry blocks the backup or the marker; then the database is under its current name, and under its legacy one only in the backup, every other entry that is reached is at its own place and in the backup, and there is nothing else |
| LocalMigration.CompleteIsMigrated | packages/nivelle_protocol/local_migration.py:195-197 | the complete tree, told entry by entry |
| LocalMigration.BlockedExactlyWhen | packages/nivelle_protocol/local_migration.py:204-229 | what blocks a migration: a file to be called backups at the top, or a directory with the marker's name |
| LocalMigration.SidecarsAre | packages/nivelle_protocol/local_migration.py:157-166 | the journal, shared-memory and write-ahead files of the database are left out in whatever case, the database is not |
| LocalMigration.Disk.MigrateAgain | packages/nivelle_protocol/local_migration.py:275-379 | from anything a cut-short migration leaves, a rerun finds the complete tree, or completes it unless the disk fails or a legacy entry blocks it, and leaves a state from which the same holds |
| LocalMigration.Disk.CopyDirectory | packages/nivelle_protocol/local_migration.py:169-201 | the recursive copy overlays exactly what it reaches, at its mapped place |
| LocalMigration.Disk.NextBackupPath | packages/nivelle_protocol/local_migration.py:204-211 | ends with a path below backups that does not exist yet and carries the version and the time |
| LocalMigration.Disk.RemoveEmptyTree | packages/nivelle_protocol/local_migration.py:257-272 | clears the destination through states without files |
| LocalMigration.Assembled | packages/nivelle_protocol/local_migration.py:330-369 | main copy, backup and marker together are the complete tree with nothing else |
| LocalMigration.RerunNeverConflicts | packages/nivelle_protocol/local_migration.py:232-254 | the inspection of anything a cut-short migration leaves is never a conflict, and finds it done exactly when it is complete |
| LocalMigration.BackedUpExactlyWhenReached | packages/nivelle_protocol/local_migration.py:157-201 | a source entry is in the backup exactly when neither it nor a directory above it is named like a sidecar |
| LocalMigration.SidecarDirectoryIsLost | packages/nivelle_protocol/local_migration.py:157-201 | a concrete file that is no sidecar and is not migrated |
| RuntimeDownload.Installer.EnsureDownload | nivelle_runtime.py:297-354 | returns only with a stamped or hash-verified target, after at most four attempts; the first resumes what is there and each other what the one before left; the partial file stays a prefix; truthful stamps stay truthful; one whole response among the four is enough if the earlier ones are honest interruptions |
| RuntimeDownload.Installer.DownloadOnce | nivelle_runtime.py:212-252 | a response is refused exactly for its status, its range or its length; otherwise its bytes stand behind what was there, or by themselves if the server starts over; honest ones keep the partial file a prefix |
| RuntimeDownload.Installer.Receive | nivelle_runtime.py:236-248 | the chunk loop appends in order and stops exactly when the size is exceeded |
| RuntimeDownload.Installer.Prepare | nivelle_runtime.py:255-271 | the partial file is kept unless it is too long, and a short target is taken over exactly when there is none; the target and its stamp are gone |
| RuntimeDownload.Installer.Finish | nivelle_runtime.py:274-294 | promotes exactly a complete partial file with the right hash, drops a complete one with another |
| RuntimeDownload.Installer.TargetVerified | nivelle_runtime.py:160-184 | accepts only a stamped or verified target of the right size, and every verified one |
| RuntimeDownload.ResumeIsPrefix | nivelle_runtime.py:201-233 | honest bytes appended to a prefix, resumed or restarted, give a prefix |
| ConnectionManager.FirstAnsweringProfileWins | apps/client/nivelle_link/network.py:168-202 | the profile made active is the first enabled one by priority whose probe succeeded |
| ConnectionManager.AttemptRunsThrough | apps/client/nivelle_link/network.py:168-202 | an attempt that nothing overtakes connects to the first server that answers; if none does it fails, and reconnecting is given up exactly when one had another identity and none was unreachable |
| ConnectionManager.CandidatesAreSorted | apps/client/nivelle_link/network.py:176 | the candidates are exactly the enabled profiles in order of priority |
| ConnectionManager.CandidatesAreStable | apps/client/nivelle_link/network.py:176 | equal priorities keep their order |
| ConnectionManager.OneTaskOfEachKind | apps/client/nivelle_link/network.py:145-297 | there is never more than one attempt and one scheduled loop under way |
| ConnectionManager.OvertakenAttemptsAreSilent | apps/client/nivelle_link/network.py:168-202 | an attempt changes the active profile, the phase or the reconnection flag only if no new profiles, disconnection or shutdown has come since it was started |
| ConnectionManager.ShutdownIsFinal | apps/client/nivelle_link/network.py:332-352 | after a shutdown has begun no profile becomes active |
| ConnectionManager.ShutdownStops | apps/client/nivelle_link/network.py:332-340 | the beginning of a shutdown overtakes every attempt and refuses new ones |
| ConnectionManager.ConnectionIsGone | apps/client/nivelle_link/network.py:204-229 | a lost or given up connection leaves no active profile, and shows why |
| ConnectionManager.BackoffFallsExactlyWhen | apps/client/nivelle_link/network.py:231-330 | with any number of generators the backoff stays in its ladder and falls exactly on confirmation, new profiles, or a stale delay written back |
| ConnectionManager.ScheduledLoopsNeverLowerBackoff | apps/client/nivelle_link/network.py:269-330 | however reconnections are scheduled the backoff falls exactly on confirmation and new profiles, and a loop writes back the double of the backoff or of what it was before a reset |
| ConnectionManager.GeneratorCanLowerBackoff | apps/client/nivelle_link/network.py:231-247 | a run with one scheduled loop and one generator in which a stale delay lowers it |
| ConnectionManager.ResetIsOverwritten | apps/client/nivelle_link/network.py:317-330 | a run in which new profiles reset the backoff and the old loop raises it again before they are tried |
| ConnectionManager.DelaysDouble | apps/client/nivelle_link/network.py:309-330 | a delay written back is doubled, up to half a minute |
| ConnectionManager.Manager.SetProfilesTo | apps/client/nivelle_link/network.py:81-96 | new profiles overtake every attempt, disconnect, switch reconnecting on and reset the backoff, unless shut down |
| ConnectionManager.Manager.DisconnectNow | apps/client/nivelle_link/network.py:259-267 | a disconnection overtakes every attempt, and switches reconnecting off if it is manual |
| ConnectionManager.Manager.ScheduleReconnect | apps/client/nivelle_link/network.py:269-297 | refused exactly when shut down, offline, disconnecting or not reconnecting; otherwise returns the only scheduled loop, old or new |
| ConnectionManager.Manager.ConnectOnce | apps/client/nivelle_link/network.py:145-157 | refused exactly when shut down, offline or disconnecting; otherwise everybody awaits the only attempt, old or new |
| MessageTimeline.Timeline.AppendDelta | apps/client/nivelle_link/windows.py:2899-2935 | a delta is accepted exactly when it is in order, for this episode and for no completed or otherwise shown message; then the text is what the bubble held at its start followed by the accepted deltas, else nothing changes |
| MessageTimeline.Timeline.CompleteAssistantMessage | apps/client/nivelle_link/windows.py:2937-2971 | an answer is completed once, exactly under the same conditions, with its final text, and the episode ends; else nothing changes |
| MessageTimeline.Timeline.BeginAssistantMessage | apps/client/nivelle_link/windows.py:2864-2897 | refused exactly for a completed message or one shown elsewhere, without a change; the same request continues its episode |
| MessageTimeline.Timeline.BindMessageId | apps/client/nivelle_link/windows.py:2798-2810 | a bubble takes a free id and gives its old one up; a taken id gives the other bubble |
| MessageTimeline.Timeline.BindTurnMessageIds | apps/client/nivelle_link/windows.py:2836-2862 | binding the server's ids keeps the episode and the inverse maps |
| MessageTimeline.Timeline.LoadMessages | apps/client/nivelle_link/windows.py:2999-3016 | the bubbles are the stored messages in order, with their roles, texts and ids, only the first message of each id; the completed answers are exactly the stored assistant messages that are not generating |
| MessageTimeline.Timeline.AppendUserMessage | apps/client/nivelle_link/windows.py:2812-2828 | a user's message is a new bubble at the end, under its local id, and ends the episode |
| MessageTimeline.IncreasingPairwise | apps/client/nivelle_link/windows.py:2923-2934 | numbered deltas of one episode have pairwise strictly increasing positive numbers |
| PrunedWalk.Iterate | scripts/build_portable.py:194-227 | returns exactly the files the filter lets through, sorted, without twins; raises exactly when the walk meets something refused |
| PrunedWalk.Walk | scripts/build_portable.py:194-225 | the worklist visits everything reachable through unpruned directories and nothing else |
| PortablePackage.PruningLosesNothing | scripts/build_portable.py:145-191 | every file below an excluded directory is itself excluded |
| PortablePackage.IterSourceFiles | scripts/build_portable.py:194-227 | with the real filter the result is exactly the files that pass the file filter, sorted, without case-folded duplicates |
| PortablePackage.RefusesExactlyWhen | scripts/build_portable.py:194-225 | the walk refuses a tree exactly when it comes to an unsafe name or a special file that is not left out anyway, or when two files of the package differ in case only |
| PortablePackage.SafePathIsCanonical | scripts/build_portable.py:120-142 | an accepted path is accepted again unchanged |
| PortablePackage.SafePathBySegments | scripts/build_portable.py:120-142 | for entry names the string check is the check of every segment |
| PortableContents.HazardsAreRefused | scripts/build_portable.py:130-141 | a name is safe exactly when it is no step, no device, ends with no blank or dot and has none of the forbidden characters |
| PortableContents.AcceptedPathIsHarmless | scripts/build_portable.py:120-142 | an accepted path is relative, has no drive and goes nowhere up |
| PortableContents.SecretsStayOut | scripts/build_portable.py:48-63 | keys, certificates, databases, logs, models, backups and partial files never enter the package, in whatever case and place |
| PortableContents.SettingsStayOut | scripts/build_portable.py:182-187 | nor do environment files and the settings of one machine |
| PortableContents.LocalStateStaysOut | scripts/build_portable.py:145-167 | nor does anything below a root directory of local state, version control or an earlier package |
| PortableContents.CachesStayOut | scripts/build_portable.py:168-172 | nor below a cache at any depth |
| PortableContents.OnlyExamplesOfConfiguration | scripts/build_portable.py:173-182 | of the configuration only the examples are taken |
| PortableContents.SourcesGoIn | scripts/build_portable.py:176-191 | a source file in an ordinary directory is always taken |
| PortableContents.RequiredMayGoIn | scripts/build_portable.py:64-91 | whatever the package must contain, under its present or former name, its own rules let in |
| PortableArchive.VerifyPortable | scripts/build_portable.py:290-324 | accepts exactly archives of the package's files with matching hashes and everything required |
| PortableArchive.VerifiedArchiveExtracts | scripts/build_portable.py:327-343 | a verified archive extracts to exactly the package's files with their hashes |
| PortableArchive.WrittenArchiveRoundTrips | scripts/build_portable.py:269-287 | a written archive verifies exactly when nothing required is missing, and extracts to the same files |
| PortableArchive.BuildPortable | scripts/build_portable.py:346-380 | collect, write, verify and extract give back the file map |

## Left out

- The gateway's state lock and send locks: sections under the state lock contain no await and are parts of one step; a write to a socket is one awaited event that may fail at any point.
- Progress sequence numbers, snapshots, `send_payload` and validation of advertisements in the gateway.
- Pruning of old terminal rows and idempotency keys in the tool repository: rows are never dropped.
- Waiters are objects by number: a table entry holds the number of its waiter, which stands for the object's identity.
- A deadline task is cancelled only by the gateway; the loop's own shutdown is not modelled.
- GatewayRuns.NoWaiterIsStranded: for runs in which no disconnection fails part way; `GatewayRuns.FailingDisconnection` says exactly when a failing one does harm.
- GatewayRuns.EveryStepKeepsInv: for runs in which no disconnection fails part way; `GatewayRuns.EveryStepKeepsCore` holds on all.
- GatewayRuns.QuiescenceResolvesAll: likewise; `GatewayRedelivery.StrandedForGood` shows that the premise is needed.
- GatewayDelivery.AtMostOnceDelivery: for runs in which deadlines reconcile, disconnections succeed and no result reports `timed_out` for a call that awaits its approval; the three runs of `GatewayRedelivery` show that each premise is needed.
- Composition.AgreedModesAreAccepted: for runs without server-side expiry or disconnection and with live capabilities.
- The order in which the controller sends its messages about one call is stated in the composition only; `AgentController` covers admission, decisions and execution.
- Redelivered requests in the composition (a request is delivered once, as the delivery theorem has it), and the controller's cached answers to them there.
- ChatTurn.ClaimsAreExclusive: a new conversation's id is taken as unknown to others until the turn is accepted.
- Tool planning, prompt building, metrics and the text of streamed answers inside a turn; the socket loop's own duplicate check.
- The float32 rounding of samples beyond the conversion of 32-bit integers: they are real numbers, and a float32 item is read by an arbitrary function; the edges of the spectrum buckets are the exact integer ones.
- FFT, fundamental frequency, smoothing and decibels.
- Concurrent access to the worker's queue (a submission is one step), and stopping and restarting the worker, across which the decoder keeps its remainder.
- The checks for links, junctions and special files in the migration, failing integrity checks and failing hashes: they are failures of the disk, which may happen at any entry; the inspection itself does not fail.
- Case folding beyond ASCII in the migration, the package and their path checks.
- The disk is changed by nobody else during a migration, a download or a packaging walk.
- Health status, latency and observed server ids in the connection manager, and request demultiplexing of the network client.
- Widgets, tool cards and scrolling of the chat window; server ids are taken to avoid the local `pending:` and `client:` prefixes.
- Version checks and sidecar hashes of the portable build; compression.
- The tool registry's definitions and capability validation: membership checks that would only add easy members.
