# Bamboo agent: a verified model of its executors, leases and release scripts

This project models, in Dafny, the parts of Bamboo-agent that are state machines in
disguise, and proves what they keep over every run:

- **Codex app-server executor**: the request multiplexer (`RequestMux`), the approval
  relay of one turn (`ApprovalRelay`) and over a connection's life (`ConnectionLife`), the
  run lock, token file and warm connection slot shared by
  activations (`RunLease`), the bounded session map (`SessionStore`), and the item
  mapper (`AppServerItems`).
- **Codex exec executor**: the event mapper (`ExecMapper`), the process tree and its
  owner (`ProcessTree`), and the resume machine it shares with Claude (`Resume`).
- **Claude Code executor**: the control-request relay (`ClaudeControl`), and `Resume`.
- **Both readers** of bounded JSONL lines (`BoundedLines`) and the stderr tail all three
  executors keep (`StderrTail`).
- **Publish order** (`PublishOrder`), **worktree leases** (`Worktree`) and the
  **release admission** arithmetic (`Admission`).

`Outcomes`, `Collections`, `Text` and `Permissions` hold what several of them share.
`dafny verify dfyconfig.toml` checks everything.

Concurrent parts follow one pattern. A datatype holds the state, a `Step` names every
atomic stretch between two await points and everything the environment may do, `Next`
is the transition, and a run is any sequence of enabled steps. Each invariant is proved
step by step and then for every run from the start state. Beside it stands a class with
the source's own fields, whose methods do what the source does between two awaits and
are proved to take exactly one step. Requests and calls are known by their position or
by the call that made them, never by the identifier on the wire, so that a peer that
reuses an identifier is part of the model.

## Results that are not plain yes

- The DFS of the publish order recurses into a crate that is still being visited, so on
  a dependency cycle (dev-dependencies may form one) it never completes. The model
  carries the interpreter's recursion limit. `ComputePublishOrder` yields an order only
  if the closure has no cycle, and does so on every acyclic closure whose size the limit
  allows; `MutualDependencyIsCyclic` gives the smallest cycle.
- The Claude reader's comment promises an incremental bound on a line. The code returns a
  line whose newline has arrived before it checks the bound, so its answer depends on
  chunking (`ClaudeDependsOnChunking`). `ReadClaudeLine` states the exact condition, and
  `ClaudeBound` how far a returned line may exceed the limit.
- The app-server item mapper records an id before it looks at the item's type, so a tool
  completion can come without a start (`UnmappedItemNeverStarts`). Its record lives in one
  call of `drive_turn`; a cancelled activation makes two calls on one event stream, and a
  tool reported in both is started twice (`CancelledToolStartsTwice`). `StartedOnceExactly`
  and `FinishFollowsStartExactly` give the exact conditions for an activation's stream.
- It also passes tool output on without a look at its record, so output can come before
  the start or without one (`OutputComesBeforeStart`, `OutputFollowsStartExactly`).
- A resumed Codex process that showed no turn is retried with a fresh mapper on the same
  event stream, so an item that both processes report is started twice
  (`RetriedItemStartsTwice`); `ExecMapper.StartedOnceExactly` is the exact condition, and
  items that come only after their turn avoid it (`TurnFirstKeepsOrder`).
- A server request that reaches a connection between two turns is discarded by the next
  activation and never answered (`EarlyRequestIsSkipped`). `UnansweredExactly` and
  `SkippedExactly` say which requests go without an answer.
- A second termination of an unreaped leader replaces the list the drop works from. A
  process that the first one sent TERM and that has been reparented since is then left
  running (`SecondTerminationForgets`); `DroppedOwnerIsSettled` states exactly which. No
  executor of this repository begins a second termination of an unreaped leader, and then
  nothing is left owed (`SingleTerminationSettles`).
- The heartbeat table belongs to one process, so a worktree whose heartbeat slept past the
  retention is reaped by another process's pass although its handle is running
  (`ForeignPassReapsSleepingLease`). `ForeignTurnSparesExactly` is the exact condition, and
  `LeasedWorktreeSurvives` shows that beats in time are enough against every process.
- The collection loop tests an entry under its listed name and removes it under the trimmed
  one. With a marker that `create` did not write, the two differ and the turn reaps another
  worktree (`SpacedEntryReapsItsNamesake`); a turn removes its own entry exactly when
  trimming changes nothing (`TurnRemovesItsOwnEntryExactly`), and markers that `create`
  writes keep it so on every run (`StepKeepsNames`).
- `remove` and the collection loop trim what git prints of HEAD. A worktree moved to a
  branch that differs from its own by white space at the end is taken for its own and
  removed (`MovedHeadIsReaped`); `HeadAcceptedExactly` is the exact condition.
- A heartbeat ends not only when its marker is gone but on a failed open or write, and
  then the process's own pass may reap the worktree (`FailedTickExposesLease`).
- Between a turn's tests and its removal the lease is not looked at again. A worktree
  renewed or created again in between is reaped (`RenewedBetweenIsReaped`,
  `RecreatedBetweenIsReaped`), and only such a one (`YoungAtRemovalWasRenewed`); one that
  keeps its lease throughout is safe (`LeasedWorktreeSurvives`).
- `remove` deletes checkout and marker but keeps the branch, so a removed name cannot be
  created again until somebody deletes the branch (`NoCreateAfterRemove`,
  `RemovedStaysRemoved`). Interrupted, it leaves the marker, and a second call finishes
  (`RemoveCanBeFinished`).
- Codex and Claude keep their session files side by side: a child that changes engine
  starts anew and loses neither session (`EnginesDoNotInterfere`,
  `ClaudeIgnoresCodexThread`).
- A session stored with a blank thread id is not found again: a lookup right after a
  store returns the thread exactly when it is not blank (`StoreThread`).

## Model

| member | source | states |
|---|---|---|
| `RequestMux.RepliesReachTheirIssuer` | src/codex_app_server_executor.rs:97-132 | over every run, a call that returned a reply returned one with the id it issued, shares its id with no other call, and has left `pending` however it returned |
| `RequestMux.PendingIdsAreIssued` | src/codex_app_server_executor.rs:103-105 | every pending id is below the counter and belongs to the call that issued it |
| `RequestMux.LateReplyCompletesNothing` | src/codex_app_server_executor.rs:435-445 | a reply to a finished id goes to the event queue and changes no call, no buffer and no pending entry |
| `RequestMux.ResultsAreFinal` | src/codex_app_server_executor.rs:110-131 | no later step changes the result of a call that returned |
| `RequestMux.AtMostOneReply` | src/codex_app_server_executor.rs:435-445 | over every run the reader routes at most one line to a call, and none to a call that is closed |
| `RequestMux.PendingLineIsHeld` | src/codex_app_server_executor.rs:435-438 | a methodless line with a pending id is held for the call that registered it, and not forwarded |
| `RequestMux.OtherLinesAreForwarded` | src/codex_app_server_executor.rs:435-448 | every other line goes on whole and changes nothing else |
| `RequestMux.DeliveryReachesTheCall` | src/codex_app_server_executor.rs:436-441 | a held reply reaches its call if that has registered, whether or not it has sent its request yet |
| `RequestMux.DeliveredReplyStays` | src/codex_app_server_executor.rs:109-112 | a delivered reply stays until its call receives it, leaves with an error or is dropped |
| `RequestMux.ReceiveReturnsDelivered` | src/codex_app_server_executor.rs:109-112 | the call returns exactly the delivered reply |
| `RequestMux.NoneIsClosedWhileReading` | src/codex_app_server_executor.rs:108-123 | on every run no call finds its channel closed while the reader lives |
| `RequestMux.ExitClosesWaiters` | src/codex_app_server_executor.rs:450-450 | once the reader has gone a waiting call without its reply finds its channel closed |
| `RequestMux.ResultsHaveCauses` | src/codex_app_server_executor.rs:106-131 | over every run a call returns a line only if the reader read it, and an error only for the reason it names |
| `RequestMux.FailuresAreReported` | src/codex_app_server_executor.rs:106-123 | a call that returns reports a refused send or a timeout exactly if it met one |
| `RequestMux.DroppedReplyIsSwallowed` | src/codex_app_server_executor.rs:97-112 | the reply to a dropped call is taken from the map and reaches nobody |
| `RequestMux.CallsOnlyMoveOn` | src/codex_app_server_executor.rs:97-132 | each call registers, sends, times out and returns once at most, and no other step moves it |
| `RequestMux.StepKeepsInv` | src/codex_app_server_executor.rs:97-132 | each atomic stretch of a request, of the reader, of a timeout or of a dropped future keeps ids distinct, pending entries owned and replies addressed |
| `RequestMux.Connection.IssueId` | src/codex_app_server_executor.rs:103-103 | drawing an id takes exactly the issue step and yields an id that is not pending |
| `RequestMux.Connection.Insert` | src/codex_app_server_executor.rs:105-105 | registering overwrites no other call's entry |
| `RequestMux.Connection.RemoveAndReturn` | src/codex_app_server_executor.rs:106-123 | a send failure or timeout returns its own error with the id removed |
| `RequestMux.Connection.RouteLine` | src/codex_app_server_executor.rs:435-448 | a line is handed to a call only if it has no method and a pending id, and is forwarded otherwise |
| `RequestMux.Connection.SendReply` | src/codex_app_server_executor.rs:438-439 | a call that has registered gets exactly the held reply |
| `RequestMux.Connection.ClearPending` | src/codex_app_server_executor.rs:450-450 | the reader's exit empties the map, which closes every waiting call |
| `ApprovalRelay.AnsweredOrOwned` | src/codex_app_server_executor.rs:620-658 | over every interleaving each message with an id that the turn takes is answered once at once, or owned by exactly one relay task which answers once or never; messages without an id get no answer |
| `ApprovalRelay.GrantsAreAuthorised` | src/codex_app_server_executor.rs:586-671 | a response is addressed to its request and is a grant if and only if the request was relayed and the host approved that very request; then it names this thread and this turn or none, is an approval other than the granular one, and was approved within the timeout |
| `ApprovalRelay.DispatchByFields` | src/codex_app_server_executor.rs:617-658 | an approval request for this thread and turn, not the granular one, with prompts on gets a task and no response; every other request gets the refusal of its method at once and no task |
| `ApprovalRelay.TimeoutComes` | src/codex_app_server_executor.rs:1242-1262 | a host may answer until the timeout, and from then on the task may time out |
| `ApprovalRelay.DispositionByMode` | src/codex_app_server_executor.rs:747-756 | prompts are on exactly outside plan mode and unattended runs |
| `ApprovalRelay.NoGrantWithoutRelay` | src/codex_app_server_executor.rs:747-756 | plan and prompt-suppressed activations never write a grant, on any run |
| `ApprovalRelay.FinishedTurnIsSilent` | src/codex_app_server_executor.rs:922-925 | once every relay handle is aborted and awaited, nothing of the turn is ever written again |
| `ApprovalRelay.StepKeepsInv` | src/codex_app_server_executor.rs:586-671 | dispatch, host replies, timeouts, joins and the drop of the future keep one answer per request and only authorised grants |
| `ConnectionLife.UnansweredExactly` | src/codex_app_server_executor.rs:821-821 | over every life of a connection a request has at most one response across all turns, and none exactly if it is still queued, was skipped between turns, or was relayed without a verdict |
| `ConnectionLife.SkippedExactly` | src/codex_app_server_executor.rs:821-821 | a request is skipped exactly if it left the queue after the last line one turn took and before the first line offered to the next |
| `ConnectionLife.SkippedForGood` | src/codex_app_server_executor.rs:821-821 | a skipped request stays unanswered on every continuation |
| `ConnectionLife.ResponsesAnswerArrivals` | src/codex_app_server_executor.rs:609-658 | every response any turn wrote answers one arrival that only that turn took, by that arrival's id |
| `ConnectionLife.EarlyRequestIsSkipped` | src/codex_app_server_executor.rs:821-821 | the smallest loss: a request that arrives before the drain |
| `ConnectionLife.LifeStepKeepsInv` | src/codex_app_server_executor.rs:815-931 | arrivals, drains, turns and their steps keep each turn's messages a window of the arrivals, and the windows apart and in order |
| `ConnectionLife.TurnsAreDrained` | src/codex_app_server_executor.rs:821-821 | every turn of a connection is preceded by a drain of its own |
| `ApprovalRelay.ActiveTurn.HandleIncoming` | src/codex_app_server_executor.rs:617-658 | the dispatch of one message: a task, or the refusal its method calls for, by the message's own fields |
| `ApprovalRelay.ActiveTurn.CompleteRelay` | src/codex_app_server_executor.rs:1216-1272 | a relay task writes one response for its own request, the grant of its method if and only if the host approved |
| `ApprovalRelay.ActiveTurn.JoinRelays` | src/codex_app_server_executor.rs:922-925 | the closing loop ends every unanswered relay, alters no answered one and writes nothing |
| `RunLease.TokenFileIsTheHolders` | src/codex_app_server_executor.rs:167-177 | over every run of queued, failing and dropped activations the token file is non-empty only under the run lock and then holds the holder's own token, undisturbed until the holder unwinds |
| `RunLease.ConnectionsAreExclusive` | src/codex_app_server_executor.rs:491-498 | no two activations own a connection, and none is parked while one is owned |
| `RunLease.WarmReuseIsClean` | src/codex_app_server_executor.rs:926-931 | the warm slot holds only connections all of whose turns completed, and over the whole history a connection is driven again only after completed turns |
| `RunLease.DrivableMeansAllCompleted` | src/codex_app_server_executor.rs:926-934 | over the steps of every run: a connection that is parked or about to be driven has had no turn that ended without completing, and each turn begun on it has ended |
| `RunLease.FailedTurnIsNotParked` | src/codex_app_server_executor.rs:926-934 | a turn that ended without completing is followed by no park of its activation |
| `RunLease.CompletedTurnMayPark` | src/codex_app_server_executor.rs:926-934 | a turn that ended completed may be parked, which puts its connection into the slot |
| `RunLease.OnlyParkFillsTheSlot` | src/codex_app_server_executor.rs:926-934 | nothing but a park after a completed turn puts a connection into the slot |
| `RunLease.StartByOutcome` | src/codex_app_server_executor.rs:491-498 | a started process is a connection nobody drove before, and a failed start leaves none |
| `RunLease.StepKeepsInv` | src/codex_app_server_executor.rs:940-960 | every step, including a drop at any point, keeps lock, token, ownership and reuse invariants |
| `RunLease.AppServerExecutor.InstallRunToken` | src/codex_app_server_executor.rs:268-292 | succeeds exactly without token auth or with a token that was written, and then leaves the own token behind a guard |
| `RunLease.AppServerExecutor.TakeWarm` | src/codex_app_server_executor.rs:491-498 | empties the slot, hands out exactly a live warm connection, all of whose turns completed, and starts anew otherwise |
| `RunLease.AppServerExecutor.ParkOrDrop` | src/codex_app_server_executor.rs:926-931 | parks a connection exactly when its turn completed |
| `RunLease.AppServerExecutor.DropGuards` | src/codex_app_server_executor.rs:951-958 | the guards drop token first, lock second, and leave an empty file and a free lock |
| `SessionStore.AppServerSessions.Prune` | src/codex_app_server_executor.rs:1385-1398 | terminates with exactly the bound left, keeps the current session, alters no survivor and evicts nothing newer than a surviving other session |
| `SessionStore.PruningIsDetermined` | src/codex_app_server_executor.rs:1385-1398 | with distinct timestamps the result does not depend on the map's iteration order |
| `SessionStore.RecentSessionSurvives` | src/codex_app_server_executor.rs:316-329 | a session survives every run of later stores that touches fewer than 256 other sessions |
| `SessionStore.AppServerSessions.StoreThread` | src/codex_app_server_executor.rs:316-329 | store then prune; a lookup returns the thread exactly when it is not blank |
| `SessionStore.AppServerSessions.StoredThread` | src/codex_app_server_executor.rs:307-314 | a thread is found exactly for an entry of this workspace and home mode whose id holds a character that is no white space |
| `SessionStore.AppServerSessions.ForgetThread` | src/codex_app_server_executor.rs:331-336 | removes one session, so its lookup fails, and no other |
| `AppServerItems.StartedByFirstReport` | src/codex_app_server_executor.rs:1109-1152 | within one call of drive_turn an id has exactly one start if its first report is of a mapped type, and none otherwise |
| `AppServerItems.OneStartPerSegment` | src/codex_app_server_executor.rs:586-586 | over an activation's stream an id has one start for each call of drive_turn that starts it, a call cut short included |
| `AppServerItems.StartedOnceExactly` | src/codex_app_server_executor.rs:885-921 | an id starts at most once without a cancel, and with one exactly unless both calls start it |
| `AppServerItems.CancelledToolStartsTwice` | src/codex_app_server_executor.rs:885-921 | a tool reported started before the cancel and completed after it has two starts |
| `AppServerItems.FinishFollowsStartExactly` | src/codex_app_server_executor.rs:1154-1203 | in an activation's stream a completion has a start of its id before it if and only if an earlier call started it or the id's first report in this call was of a mapped type |
| `AppServerItems.UnmappedItemNeverStarts` | src/codex_app_server_executor.rs:1114-1144 | a concrete stream with a completion and no start |
| `AppServerItems.OutputFollowsStartExactly` | src/codex_app_server_executor.rs:1017-1042 | tool output or progress has a start of its id before it if and only if an earlier call started it or the id's first report so far in this call was of a mapped type |
| `AppServerItems.OutputComesBeforeStart` | src/codex_app_server_executor.rs:1017-1042 | a concrete stream whose output precedes the start of its item |
| `AppServerItems.AppRunState.EmitToolToken` | src/codex_app_server_executor.rs:1017-1042 | output is passed on whatever has been started, and nothing is recorded |
| `AppServerItems.AppRunState.EmitItemStarted` | src/codex_app_server_executor.rs:1109-1152 | the id is recorded, and a start is emitted exactly for a mapped type whose id was not |
| `AppServerItems.AppRunState.EmitItemCompleted` | src/codex_app_server_executor.rs:1154-1203 | a completed agent message changes nothing; any other item ends in an error if it failed and a completion if not |
| `ExecMapper.LifecycleOrder` | src/codex_cli_executor.rs:1568-1785 | in the stream of one process an id is started at most once, item output, completion and error follow the start of the same id, and a synthetic denial comes only where no tool error came before |
| `ExecMapper.ActivationOrder` | src/codex_cli_executor.rs:1502-1536 | in the stream of an activation, retried or not, item output, completion and error still follow a start of the same id, and no tool error precedes a denial in its own process's part |
| `ExecMapper.StartedOnceExactly` | src/codex_cli_executor.rs:1247-1247 | an activation starts an id at most once exactly unless it is retried and both processes report a tool under it |
| `ExecMapper.DenialFollowsErrorExactly` | src/codex_cli_executor.rs:1094-1116 | a denial follows an earlier tool error exactly if it is the second process's and the first emitted one |
| `ExecMapper.RetriedItemStartsTwice` | src/codex_cli_executor.rs:1315-1315 | a retried activation whose processes both report a command starts it twice |
| `ExecMapper.TurnFirstKeepsOrder` | src/codex_cli_executor.rs:1315-1315 | when the first process reports items only after its turn has started, a retried activation starts no id twice and no tool error precedes a denial |
| `ExecMapper.RetryReceivesAnew` | src/codex_cli_executor.rs:1525-1536 | after the notice of the retry, extending snapshots of the second process join up to its final text |
| `ExecMapper.EventKeepsInv` | src/codex_cli_executor.rs:1046-1154 | each stream event keeps the started set, the error flag and the order of the log in agreement |
| `ExecMapper.ReceivedSinceReset` | src/codex_cli_executor.rs:1732-1753 | over any interleaving in one process the deltas received for an item since its last non-extending snapshot join up to its current snapshot |
| `ExecMapper.ReceivedIsFinalText` | src/codex_cli_executor.rs:1799-1818 | when every snapshot of a process extends the one before, all its deltas join up to the final text |
| `ExecMapper.EventAddsDelta` | src/codex_cli_executor.rs:1568-1712 | an event adds to the item it reports exactly its delta, and leaves the record and received text of every other item alone |
| `ExecMapper.RecordIsLastSnapshot` | src/codex_cli_executor.rs:1738-1752 | the record kept for an item is the last snapshot reported for it |
| `ExecMapper.RunState.EmitTextDelta` | src/codex_cli_executor.rs:1799-1818 | the record and what is emitted join up to an extending snapshot, and what is emitted is the whole of any other; no other record changes |
| `ExecMapper.RunState.EmitToolOutputDelta` | src/codex_cli_executor.rs:1732-1753 | the same for tool output |
| `ExecMapper.RunState.EnsureToolStarted` | src/codex_cli_executor.rs:1714-1730 | starts an id once |
| `ExecMapper.RunState.HandleItemEvent` | src/codex_cli_executor.rs:1568-1712 | by the item's fields: a completed command adds one outcome, last, a completion exactly with exit code 0 and a status other than failed; a structured tool by its error; no other stage adds one; text goes out as tokens of its kind |
| `ExecMapper.EventByFields` | src/codex_cli_executor.rs:1046-1154 | the same for every event, with a denial added exactly for a completed, sandboxed agent message that reads like one where no tool error came before |
| `ExecMapper.DenialByText` | src/codex_cli_executor.rs:1787-1797 | a message reads like a denial exactly if it mentions, in either case, one of three refusals and one of four operations |
| `ExecMapper.IdByFields` | src/codex_cli_executor.rs:1568-1575 | an item is known by its id, or by its type if it has none |
| `ExecMapper.RunState.HandleStream` | src/codex_cli_executor.rs:1070-1128 | the event loop yields the run of its events, each handled as its fields call for, and keeps the lifecycle invariant |
| `ProcessTree.DescendantProcesses` | src/codex_cli_executor.rs:2062-2087 | for every table, cyclic or not, and every iteration order the walk ends with exactly the processes whose parent chain reaches the root, each once, parents first |
| `ProcessTree.ChildrenAreSignalledFirst` | src/codex_cli_executor.rs:2117-2119 | signalling the walk backwards reaches every child before its parent |
| `ProcessTree.DroppedOwnerIsSettled` | src/codex_cli_executor.rs:2010-2028 | on every run from spawn with any number of terminations, wherever the owner is dropped, the group is settled, and a process once sent TERM is left neither killed nor seen gone exactly if a later termination forgot it and no later walk showed it |
| `ProcessTree.CoveredTerminationsSettle` | src/codex_cli_executor.rs:2108-2143 | if each termination finds in its walk all that is still owed, the drop leaves nothing owed |
| `ProcessTree.SingleTerminationSettles` | src/codex_cli_executor.rs:1206-1294 | with at most one termination of an unreaped leader, as each executor has, the drop leaves nothing owed |
| `ProcessTree.SecondTerminationForgets` | src/codex_cli_executor.rs:2115-2116 | a run with two terminations whose drop leaves a process owed |
| `ProcessTree.ReparentedProcessIsKilled` | src/codex_cli_executor.rs:2013-2024 | while a termination is under way the drop sends KILL to each process of its snapshot even if no table shows it as a descendant any more |
| `ProcessTree.DropKillsCurrentDescendants` | src/codex_cli_executor.rs:2013-2025 | while the leader is unreaped the drop also kills the descendants of that moment and the group |
| `ProcessTree.PollByFindings` | src/codex_cli_executor.rs:2123-2143 | with nothing left a poll begins the wait; at the deadline it sends KILL to every snapshotted process and the group; before it it sends nothing and goes on |
| `ProcessTree.ReapedDropStaysOnRecord` | src/codex_cli_executor.rs:2010-2028 | once the leader is reaped the drop kills what is on record and no other process |
| `ProcessTree.ReapedLeaderIsLeftAlone` | src/codex_cli_executor.rs:2109-2111 | a reaped leader is not terminated |
| `ProcessTree.ProcessTreeChild.BeginTermination` | src/codex_cli_executor.rs:2108-2121 | every descendant is recorded and sent TERM in one stretch; nothing when the leader is reaped |
| `ProcessTree.ProcessTreeChild.PollOnce` | src/codex_cli_executor.rs:2123-2143 | polling ends at the deadline at the latest, with KILL to every snapshotted process and the group if any is left, and before it only when all are gone |
| `ProcessTree.ProcessTreeChild.FinishWait` | src/codex_cli_executor.rs:2128-2132 | only the clean ending disarms the owner |
| `ProcessTree.ProcessTreeChild.Drop` | src/codex_cli_executor.rs:2010-2028 | the drop leaves the group and all that is on record settled |
| `Resume.ResumedSessionIsCurrent` | src/codex_cli_executor.rs:844-864 | over any sequence of activations of either engine in one directory, a launch that may resume resumes the session its engine captured last since its last deletion, exactly if the record is for its workspace (and for Codex its home mode, with an id that is not blank) |
| `Resume.SeenSessionIsResumed` | src/claude_code_executor.rs:896-1025 | the session an activation's last process named last is what the next activation of that executor resumes, unless it starts fresh |
| `Resume.ForgottenSessionIsNotResumed` | src/claude_code_executor.rs:975-1021 | after a fresh or retried activation that named no session nothing is resumed |
| `Resume.ReadingCapturesLast` | src/claude_code_executor.rs:745-877 | reading leaves the last session named, up to Claude's first result, recorded for this executor |
| `Resume.RetryByFrames` | src/codex_cli_executor.rs:1313-1351 | an attempt may be retried exactly if it ran, showed no turn (for Claude no result) and was not cancelled (for Claude ended its stream) |
| `Resume.HistoryKeepsInv` | src/codex_cli_executor.rs:1484-1540 | each engine's file holds what that engine captured last, and every launch that may resume is given exactly it if usable, every other launch none |
| `Resume.EnginesDoNotInterfere` | src/claude_code_executor.rs:125-129 | an activation of one engine, its retry and deletions included, leaves the other engine's file as it was |
| `Resume.ClaudeIgnoresCodexThread` | src/codex_cli_executor.rs:53-53 | after a Codex capture the same directory yields the thread to Codex and nothing to Claude |
| `Resume.ActivationLaunches` | src/claude_code_executor.rs:975-1021 | an activation launches once, or twice exactly when a resumed process showed no progress; the second launch never resumes, and a fresh activation never resumes nor retries |
| `Resume.StateDirectory.RunCodexProcess` | src/codex_cli_executor.rs:1163-1351 | captures every started thread and reports retry exactly when no turn started or completed and nothing was cancelled |
| `Resume.StateDirectory.RunClaudeProcess` | src/claude_code_executor.rs:745-877 | captures up to the terminal result and reports retry exactly at end of stream without one |
| `Resume.StateDirectory.Run` | src/claude_code_executor.rs:896-1025 | one activation takes the two state files from their old to their specified new contents and keeps every launch entitled |
| `ClaudeControl.AtMostOneResponse` | src/claude_code_executor.rs:637-706 | over every frame sequence and interleaving a control request has at most one response, and an immediate one exactly one |
| `ClaudeControl.AllowIsAuthorised` | src/claude_code_executor.rs:1280-1345 | a response allows exactly for a tool call outside plan mode that is unattended, or no structured question and approved by the host in time, or with no host in bypass mode |
| `ClaudeControl.FrameByFields` | src/claude_code_executor.rs:611-706 | an immediate request gets one response, a relayed one a task and the table's entry, a cancelled id leaves the table, and no other frame has an effect |
| `ClaudeControl.TimeoutComes` | src/claude_code_executor.rs:1280-1345 | a host may answer until the timeout, and from then on the task may time out |
| `ClaudeControl.FrameTouchesOnlyItsId` | src/claude_code_executor.rs:615-622 | a frame aborts at most the one unfinished task the table holds for its id, and only as a cancellation or a relayed request; every other task, of the same id too, and every other entry stays |
| `ClaudeControl.OnlyOwnIdAborts` | src/claude_code_executor.rs:615-622 | while the stream is open an undecided task is aborted exactly if a later cancellation or relayed request of its id came, and is in the table until then |
| `ClaudeControl.ClosedStreamAbortsAll` | src/claude_code_executor.rs:858-860 | after the stream is closed the table is empty and no undecided task is left unaborted |
| `ClaudeControl.StepKeepsInv` | src/claude_code_executor.rs:533-706 | frames, verdicts, deaths of aborted tasks and the closing drain keep all of this |
| `ClaudeControl.ControlRelay.HandleFrame` | src/claude_code_executor.rs:611-622 | the control part of frame dispatch takes exactly the specified step |
| `ClaudeControl.ControlRelay.HandleControlRequest` | src/claude_code_executor.rs:637-706 | an immediate request gets one answer and leaves the table alone; a relayed one gets a new task, which the table then holds |
| `ClaudeControl.ControlRelay.DecideAndRespond` | src/claude_code_executor.rs:1280-1345 | a decision task writes one verdict, which allows exactly for no structured question that the host approved or, with no host, in bypass mode |
| `BoundedLines.ChunkedReader.ReadCodexLine` | src/codex_cli_executor.rs:2157-2197 | fails exactly when the next line exceeds the bound and otherwise returns it, whatever the chunking |
| `BoundedLines.ChunkedReader.ReadAllCodexLines` | src/codex_cli_executor.rs:1256-1288 | repeated reads return the newline split of the stream, or its part before the first line that is too long |
| `BoundedLines.ChunkedReader.ReadClaudeLine` | src/claude_code_executor.rs:1088-1121 | returns the same lines but fails exactly when the whole chunks before the newline exceed the bound |
| `BoundedLines.ClaudeBound` | src/claude_code_executor.rs:1110-1119 | it fails only where the Codex reader fails, and a returned line is shorter than the bound plus the largest chunk |
| `BoundedLines.ClaudeDependsOnChunking` | src/claude_code_executor.rs:1110-1119 | one stream in two chunkings with two answers |
| `BoundedLines.JoinOfLines` | src/codex_cli_executor.rs:2157-2197 | joining the lines gives the stream back, completed by a final newline |
| `BoundedLines.LinesOfJoin` | src/codex_cli_executor.rs:2157-2197 | records without a newline come back as they were sent |
| `StderrTail.StderrBuffer.Drain` | src/codex_cli_executor.rs:2199-2221 | after any appends the tail is the longest suffix on a character boundary that fits the cap |
| `StderrTail.StderrBuffer.Append` | src/claude_code_executor.rs:1125-1147 | one append trims to the specified tail |
| `StderrTail.TrimEarlyTrimLate` | src/codex_app_server_executor.rs:1453-1476 | trimming as text arrives is trimming once at the end |
| `StderrTail.LongestIsUnique` | src/codex_cli_executor.rs:2210-2217 | the longest fitting suffix is unique and is what trimming yields |
| `StderrTail.WidthIsLeast` | src/codex_cli_executor.rs:2210-2217 | a character counts for the fewest bytes that carry its code |
| `PublishOrder.Closure` | scripts/compute-publish-order.py:49-57 | the worklist ends, with repeated stack entries and cycles, in the least set that holds the root and is closed under workspace dependencies |
| `PublishOrder.Sorter.Visit` | scripts/compute-publish-order.py:64-72 | a completed visit keeps the order distinct and dependencies first and adds only crates below the node; on an acyclic closure within the limit it completes |
| `PublishOrder.ComputePublishOrder` | scripts/compute-publish-order.py:27-90 | an order lists the closure once, dependencies first; it exists only without a cycle and always without one within the limit; the final check never fires |
| `PublishOrder.OrderIsValid` | scripts/compute-publish-order.py:77-87 | the check passes exactly when no crate stands at or before its own dependent |
| `PublishOrder.CheckMeansDependenciesFirst` | scripts/compute-publish-order.py:77-87 | for any order that holds its dependencies, passing the check is being topological |
| `PublishOrder.OrderedCrateIsOnNoCycle` | scripts/compute-publish-order.py:59-72 | no crate of a dependencies-first order depends on itself |
| `PublishOrder.MutualDependencyIsCyclic` | scripts/compute-publish-order.py:33-41 | two crates that name each other form a cyclic closure |
| `PublishOrder.ListedDependenciesAreKept` | scripts/compute-publish-order.py:33-41 | each listed dependency that is a workspace member is in the closure of its dependent and earlier in the order |
| `Worktree.LeasedWorktreeSurvives` | src/project_worktree.rs:75-101 | a worktree that no turn has approved, and whose marker is renewed at gaps within the retention, is never reaped by passes of any process begun at any time and interleaved anyhow, between a turn's tests and its removal too |
| `Worktree.LocalLeaseNeedsNoClock` | src/project_worktree.rs:263-278 | while its ticks do not fail, a worktree whose heartbeat runs in a process is never reaped by that process's passes, whatever its marker's age |
| `Worktree.FailedTickExposesLease` | src/project_worktree.rs:85-96 | a tick whose open fails ends the heartbeat, and the process's own pass then reaps the worktree it spared |
| `Worktree.TurnIsTestThenRemoval` | src/project_worktree.rs:250-305 | an undisturbed turn is its tests and then its removal |
| `Worktree.LateRemovalTakesExactly` | src/project_worktree.rs:306-308 | the removal of a turn that passed its tests takes the entry exactly if marker and head still match, whatever age and heartbeat say |
| `Worktree.YoungAtRemovalWasRenewed` | src/project_worktree.rs:250-308 | a worktree within its lease when such a removal comes was renewed or created again since the tests |
| `Worktree.RenewedBetweenIsReaped` | src/project_worktree.rs:275-308 | a heartbeat that renews the marker between another process's tests and removal does not save the worktree |
| `Worktree.RecreatedBetweenIsReaped` | src/project_worktree.rs:250-308 | nor does removing the worktree, deleting its branch and creating it again |
| `Worktree.ForeignTurnSparesExactly` | src/project_worktree.rs:250-305 | another process's turn spares an owned worktree exactly if entry or marker is young at its start, the entry is no directory, or HEAD, trimmed, does not name the branch |
| `Worktree.HeadAcceptedExactly` | src/project_worktree.rs:200-210 | removal accepts a head exactly if its trim is the entry's branch, and the head is that branch exactly if it is its own trim |
| `Worktree.MovedHeadIsReaped` | src/project_worktree.rs:298-305 | a worktree moved to a branch that differs by a trailing ideographic space is taken by remove and by a collection turn |
| `Worktree.SpacedTailIsNeverCollected` | src/project_worktree.rs:298-305 | an entry whose listed name ends in white space is never collected |
| `Worktree.ForeignPassReapsSleepingLease` | src/project_worktree.rs:15-22 | a running heartbeat that slept past the retention loses its worktree to another process |
| `Worktree.TurnRemovesItsOwnEntryExactly` | src/project_worktree.rs:250-305 | a turn that removes takes its own entry exactly when the listed name is its own trim |
| `Worktree.SpacedEntryReapsItsNamesake` | src/project_worktree.rs:250-305 | an entry with a leading ideographic space and its own marker has the leased entry without it reaped |
| `Worktree.StepKeepsNames` | src/project_worktree.rs:121-186 | every step keeps marker names, and the names of approved turns, valid, since only create makes markers |
| `Worktree.CollectTouchesOnlyCollectable` | src/project_worktree.rs:240-311 | one turn removes an entry only if it met every condition, and touches no other entry or marker and no live heartbeat of any process |
| `Worktree.PassTouchesOnlyCollectable` | src/project_worktree.rs:240-311 | a whole pass removes collectable entries only and leaves every other entry, marker and live heartbeat unchanged |
| `Worktree.PassIsComplete` | src/project_worktree.rs:240-311 | an entry that is collectable when the pass begins is gone after it, if git agrees to remove it |
| `Worktree.PassCounts` | src/project_worktree.rs:306-310 | the returned count is the number of entries gone, unless a prune failed |
| `Worktree.RemovedStaysRemoved` | src/project_worktree.rs:75-101 | a removed marker never comes back on any run, heartbeats included, until the branch is deleted |
| `Worktree.RemoveCanBeFinished` | src/project_worktree.rs:188-223 | a removal that was interrupted, or whose marker could not be deleted, leaves the name owned, and a second remove clears entry, marker and handle |
| `Worktree.NoCreateAfterRemove` | src/project_worktree.rs:140-149 | create after remove fails on the kept branch |
| `Worktree.CreateByFields` | src/project_worktree.rs:121-186 | each refusal changes nothing; a failed marker write keeps the branch and takes the checkout back when git agrees; success adds checkout, branch, marker and heartbeat and nothing else |
| `Worktree.RemoveByFields` | src/project_worktree.rs:188-223 | each refusal changes nothing; success takes checkout, handle and marker and nothing else |
| `Worktree.ExamineByFields` | src/project_worktree.rs:250-305 | a turn goes on to its removal exactly for an owned directory on its branch, without a running heartbeat, both older than the retention; an ended heartbeat leaves the table |
| `Worktree.ExamineSkipsForeign` | src/project_worktree.rs:250-262 | anything invalid or not owned is passed over |
| `Worktree.ValidByCode` | src/project_worktree.rs:24-36 | a name is one to eighty ASCII letters, digits, hyphens and underscores |
| `Worktree.WorktreeManager.GcOrphans` | src/project_worktree.rs:240-311 | the loop computes the specified pass and its counter and takes collectable entries only |
| `Worktree.WorktreeManager.CreateWorktree` | src/project_worktree.rs:121-186 | collects first, then the error order and effects of create; success means a new branch and a lease that has just begun |
| `Worktree.WorktreeManager.RemoveWorktree` | src/project_worktree.rs:188-223 | a refusal leaves no trace, and no call touches the branch; success clears checkout and handle, and the marker if it can be deleted; the head is compared trimmed |
| `Worktree.WorktreeManager.Heartbeat` | src/project_worktree.rs:79-99 | a tick that succeeds makes an existing marker as young as the clock and runs on; one that finds no marker or fails ends the heartbeat; none creates a marker |
| `Admission.Pages` | scripts/main-release-admission.py:55-67 | the loop joins pages up to the first short one and refuses an oversized page or a full last page |
| `Admission.PagingIsExact` | scripts/main-release-admission.py:55-67 | the rows come back whole exactly when there are fewer than page size times page limit |
| `Admission.FamiliesFit` | scripts/main-release-admission.py:165-171 | the split of at most 512 blocks puts at most 256 in each family, and family 2 is empty exactly for one block |
| `Admission.JobsMatchBlocks` | scripts/main-release-admission.py:182-214 | acceptance puts matching jobs in one-to-one correspondence with planned blocks and empty families |
| `Admission.EveryShardJobIsAccountedFor` | scripts/main-release-admission.py:182-214 | each job of an accepted run whose name looks like a shard proves a planned block, by one record of that plan and the commit's tree, or is the run's own skipped placeholder of an empty family |
| `Admission.AcceptedConserves` | scripts/main-release-admission.py:215-228 | the passed counts of a suite's block jobs sum to its summary, which passed with no failure, and with the ignored ones to its inventory and doctests |
| `Admission.AcceptedBuildSucceeded` | scripts/main-release-admission.py:152-173 | each suite's one build job succeeded with one plan of the commit's tree and of its own attempt, whose packages are those of its blocks |
| `Admission.AcceptedBlockPassed` | scripts/main-release-admission.py:174-200 | each planned block is well formed and its one job, under its name, has one record of that plan that passed, exited with 0, has no error and counts every test |
| `Admission.SummariesAreOnePerSuite` | scripts/main-release-admission.py:215-220 | the summary jobs report each suite once |
| `Admission.PassedAddsUp` | scripts/main-release-admission.py:174-200 | the sum for one plan, from its blocks' own records |
| `Admission.CheckBlocks` | scripts/main-release-admission.py:178-200 | the inner loop accepts exactly when every block is proven and no name is seen twice |
| `Admission.GroupedJobs` | scripts/main-release-admission.py:149-230 | an accepted result meets every condition, and a rejection means no plans would |

## Left out

- A connection whose turn did not complete is closed; `ConnectionLife` lets any turn that joined its relays be followed by another, which covers more lives than the source has.
- Spawning, pipes, real signals, git and the file system: environment steps and outcomes on abstract state; best-effort file writes and deletions in the state directory, the session store and the token file are assumed to succeed.
- JSON, TOML and argument building: frames, items and requests are datatypes; the name pattern of a matrix job is the shape of `JobName`.
- The token file of an earlier process that was killed outright: a run starts from an empty file.
- Time of check to time of use inside `remove` and inside the tests of a collection turn: the checks and the removal of one `remove` are one step, and so are the tests of one turn.
- PublishOrder.Enumerate: does not model the alphabetical order of `sorted`, because every result holds for all orders of iteration; the stability of ties is not stated.
- The direct `start_kill` of the leader, which the group signal includes, and the non-Unix variants.
- Scheduling delay in the relays: a timeout is assumed to fire at its deadline, and a host reply to be seen on arrival.
- Numeric wrap-around of the 64-bit request counter.
- Read errors of the stdout pipe other than the line bound, and the lossy decoding of stderr bytes: the tail is over decoded text.
- Admission outside grouped_jobs and the page loop: the identity of the run itself, commit ancestry and the fixed job list; JSON decoding and type tests of records are the types of the model.
- The app-server's resume fallback inside one activation, steering, usage accounting and text assembly, and the permission posture tables: single-branch logic over state proved elsewhere.
- Graceful shutdown of the Claude process, which is a fixed sequence of bounded waits.
