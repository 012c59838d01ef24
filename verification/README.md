# Verified models of the agent runner's protocols

Models, in Dafny, of the parts of this repository whose correctness rests on time budgets,
restarts, crashes and doing something at most once, with proofs of what they guarantee. Concurrent
protocols are machines of small steps with any number of processes; code that updates fields is a
class whose methods are proved against functions; an environment call is a nondeterministic choice
or the next answer of an arbitrary tape, and being killed is a return at that point.
`dafny verify dfyconfig.toml` checks the whole project.

| file | what it models |
|---|---|
| `GoalRun.dfy`, `GoalRunProofs.dfy` | one goal driven to a terminal status: setting, kicking, polling, phase holds, wakes, both moving deadlines, daemon and process restarts |
| `GoalCall.dfy` | the variables one call updates in place, and the one budget of the calls of a run |
| `PhaseLifecycle.dfy` | the shared session file with its atomic merge, the hold kept in it, the wake table |
| `DaemonRuntime.dfy` | the restart loop that drives the goal calls of a run on one daemon after another, stop() and drained() |
| `DaemonLock.dfy` | spawners and teardowns racing for one daemon socket under a lock |
| `Wire.dfy` | the buffering WebSocket transport and the client's request table |
| `ReplyClaim.dfy`, `ReplyHook.dfy` | concurrent hooks racing on a claim marker; the bounded POST loop; pruning |
| `TailReader.dfy` | the backward transcript reader and the stop-sequence scan |
| `Checkpoint.dfy`, `BatchEngine.dfy` | the crash-resumable batch engine with its checkpoint and the external issue tracker |
| `GatedLaunch.dfy` | the token-gated two-phase launch with crashes, torn writes and stale shells |
| `WaitExec.dfy` | wait-aware time accounting: the tick loop and the poller's check |
| `CanonicalJson.dfy` | the canonical JSON encoder, with a decoder |
| `BashQuote.dfy` | shell quoting, with the part of a shell that reads it back |
| `Utf8.dfy`, `SpawnConfig.dfy` | what text a process can be given, and the launcher's arguments from flags to shell array |

Histories are lists of entries. The central statement of a protocol is that each entry is allowed
by the entries before it (`Justified`, `Allowed`); a fold over the history says what has happened so
far. Invariants are predicates over as few arguments as they need, and each step has a small lemma.

## What turned out not to hold

For each of these an input, an execution or a reachable state shows that it fails, and the exact
condition is proved under which the code does meet the property.

- Deadlines restored after a phase hold are not always kept by a later daemon restart. When the
  process itself was restarted inside the hold, the run has a new start, and a later restart arms the
  deadlines from it (`ProcessRestartInHoldRearms`). `RestartKeepsDeadlinesExactlyWhen` gives the
  condition; a run that found no hold when it began always meets it.
- drained() can resolve after stop() while a daemon may be alive: a run whose own drain failed is
  rejected and has given its daemon up, so stop() has no session to tear down, although the comment
  at packages/claude-runner/src/codex-daemon-goal-runtime.ts:603-608 says it throws then.
  `DrainedMayLeaveADaemon` is such an execution; `DrainedLeavesNoDaemonExactlyWhen` gives the
  condition.
- A spawner may unlink a socket in use by another one's daemon if a spawner process died while its
  daemon might yet come to listen at the path, or if a handle is torn down again after its lock was
  given up (`EarlyCrashBreaksIt`, `TeardownAgainBreaksIt`). `StepIsHarmlessExactlyWhen` shows for
  every state reached without such a step that exactly these two steps make harm possible;
  `AlwaysJustifiedExactlyWhen` says it for whole runs.
- A commit file does not always stand for exactly one Runner, as the comment at
  packages/claude-runner/src/TmuxAdapter.ts:512-513 has it: a crash between truncating and writing
  leaves a file that is taken over and never starts anything (`TornCommitNeverStarts`).
  `AdoptionIsSoundExactlyWhen` gives the condition.

## What two conditions mean for the callers

- Shell quoting alone drops a NUL and replaces a surrogate without its partner (`NulIsLost`,
  `LoneSurrogateIsReplaced`); `ArrayArrives` and `EnvironmentArrives` hold for all values and give the
  exact condition. Every value in the program meets it: what is quoted are its own texts, its
  arguments and environment values, and their concatenations, and the values a process can be given
  are exactly those that arrive unchanged (`ArrivesExactlyWhenReceivable`). `PrintArgs` and
  `RuntimeEnvArrives` say so for the arguments and the environment that are printed.
- Of two merges into the session file that read the same content the first can be lost;
  `OverlappingMergesKeepBothExactlyWhen` gives the condition. That takes a second process: a merge
  never waits between reading and renaming, and both callers run in one process
  (packages/claude-runner/src/CodexTmuxAdapter.ts:1009 and the controller), where nothing is lost
  (`OneProcessWritesInTurn`, `OneProcessKeepsTheHold`). `SecondProcessLosesTheHold` shows what a
  second one could do, `StaleMergeKeepsHoldExactlyWhen` when it could not.

Where code and comments differ the code is modelled. Besides what did not hold: the terminal kept by
a goal run is the latest trusted one, not the first
(packages/claude-runner/src/codex-daemon-client.ts:954-959); the marker sweep never removes an
unresolved marker, however old (scripts/hooks/discord-reply-enforcer.py:91-93, 637-650); and
`run_batch` can also return a batch that is still running (scripts/fly349-engine/orchestrator.py:22,
88-92).

## Model

| member | source | states |
|---|---|---|
| GoalRunProofs.EveryEntryIsJustified | packages/claude-runner/src/codex-daemon-client.ts:849-984 | over every interleaving, crash and restart, each entry of a goal run's history (request, hold, turn start, return, timeout, wake bookkeeping) was allowed by the entries before it |
| GoalRunProofs.ReturnedStatusIsTrusted | packages/claude-runner/src/codex-daemon-client.ts:646-690 | a returned status comes from the latest trusted update: seen after this call's set-goal was confirmed, on its own thread, with no objective or its own; success exactly for complete; with a phase controller complete is never returned |
| GoalRunProofs.LatestHasSource | packages/claude-runner/src/codex-daemon-client.ts:655-689 | the terminal kept at any moment is the newest trusted one that nothing has dropped since |
| GoalRunProofs.HoldFreezesBudgets | packages/claude-runner/src/codex-daemon-client.ts:773-813 | the active and hard time left right after a reactivation equal those recorded when the latest hold was entered, whatever restarted meanwhile |
| GoalRunProofs.HoldTimesAreExact | packages/claude-runner/src/codex-daemon-client.ts:776-780 | entering a hold records exactly the time both deadlines leave, and a reactivation grants exactly what it records |
| GoalRunProofs.LastHoldHasSource | packages/claude-runner/src/codex-phase-lifecycle.ts:325-346 | the recorded budgets belong to the newest hold entered |
| GoalRunProofs.UnheldBudget | packages/claude-runner/src/codex-daemon-client.ts:595-622 | without a hold, across all restarts: hard deadline is start plus the larger cap, the deadline lies between start plus the active cap and the hard deadline, and equals the former when no gate was seen open |
| GoalRunProofs.DeadlinesNeverMoveBack | packages/claude-runner/src/codex-daemon-client.ts:698-714 | no step of a run, restarts and holds included, moves either deadline back |
| GoalRunProofs.RestartKeepsDeadlinesExactlyWhen | packages/claude-runner/src/codex-daemon-goal-runtime.ts:460-509 | outside a hold a daemon restart keeps both deadlines if and only if they do not lie before the ones the run's own start gives |
| GoalRunProofs.RestartKeepsDeadlines | packages/claude-runner/src/codex-daemon-goal-runtime.ts:486-502 | a run that found no hold when it began keeps both deadlines over every restart |
| GoalRunProofs.ProcessRestartInHoldRearms | packages/claude-runner/src/codex-daemon-client.ts:607-636 | a reachable run, taken up by a new process inside a hold, for which a later daemon restart turns 10 ms left into 60 |
| GoalRunProofs.DeliveredTurnIsNotRepeated | packages/claude-runner/src/codex-daemon-client.ts:825-847 | once a wake's turn start and the switch to active succeeded on a connection, that turn start is never sent on it again |
| GoalRunProofs.ReachableGood | packages/claude-runner/src/codex-daemon-client.ts:588-990 | the invariant behind these results holds in every reachable state |
| GoalRunProofs.SendGood | packages/claude-runner/src/codex-daemon-client.ts:298-313 | a request bound by the run's budget goes out only with a positive timeout no larger than the time left and the request cap |
| GoalRunProofs.EnterGood | packages/claude-runner/src/codex-daemon-client.ts:773-787 | entering a hold keeps the invariant and records the frozen budgets |
| GoalRunProofs.ActiveReplyGood | packages/claude-runner/src/codex-daemon-client.ts:801-813 | the switch to active keeps the invariant and restores the frozen budgets |
| GoalRunProofs.ClearGood | packages/claude-runner/src/codex-daemon-client.ts:830-847 | clearing the hold is allowed only after its wake was finished in that hold |
| GoalRunProofs.NewCallGood | packages/claude-runner/src/codex-daemon-goal-runtime.ts:478-502 | a call on a new daemon keeps the invariant and does not move deadlines back |
| GoalRun.FirstUnfinished | packages/claude-runner/src/codex-phase-lifecycle.ts:283-286 | the wake taken is the first unfinished one in queue order |
| GoalCalls.GoalCall.RemainingBudget | packages/claude-runner/src/codex-daemon-client.ts:698-714 | reading the budget keeps its bounds and never moves a deadline back: while a gate is open at least a full active budget lies ahead, as far as the hard deadline allows, and never more than that is added |
| GoalCalls.GoalCall.RestoreBudget | packages/claude-runner/src/codex-daemon-goal-runtime.ts:492-499 | after a restore exactly the frozen times are left, what the runtime carries grows with them, and no deadline moves back |
| GoalCalls.GoalCall.OnGoalUpdate | packages/claude-runner/src/codex-daemon-client.ts:674-689 | the terminal seen stays the latest trusted one of the call's history |
| GoalCalls.GoalCall.constructor | packages/claude-runner/src/codex-daemon-client.ts:601-622 | a call on a new daemon, armed from the run's start and what was carried or from a stored hold, keeps the bounds and starts with no deadline earlier than before |
| GoalCalls.DriveCalls | packages/claude-runner/src/codex-daemon-goal-runtime.ts:454-565 | over the calls of one run, with any waits, budget reads, updates and holds, neither deadline ever moves back; without a hold the hard deadline stays at start plus the larger cap, and without an open gate the deadline at start plus the active cap, however many calls there are |
| GoalCalls.RunBudget.OneCall | packages/claude-runner/src/codex-daemon-goal-runtime.ts:486-533 | each call begins with what the runtime carried from the one before it, or with a stored hold, keeps the bounds throughout, and is added to the calls of the run |
| GoalCalls.CallsNeverMoveBack | packages/claude-runner/src/codex-daemon-goal-runtime.ts:460-509 | every time of an earlier call is no later than any time of a later one |
| GoalCalls.GoalCall.EnterHold | packages/claude-runner/src/codex-daemon-client.ts:773-787 | the time both deadlines leave is frozen and the terminal seen is dropped |
| PhaseLifecycle.SessionFile.AtomicMerge | packages/claude-runner/src/codex-phase-lifecycle.ts:108-140 | wherever the write fails or the process is killed, the file holds the old fields or the merged ones; an invalid file or hold is refused and never overwritten |
| PhaseLifecycle.MergeTouchesOnlyItsFields | packages/claude-runner/src/codex-phase-lifecycle.ts:114-118 | a merge changes exactly the patched fields |
| PhaseLifecycle.MergesOfDifferentFieldsCommute | packages/claude-runner/src/codex-phase-lifecycle.ts:102-118 | writers of different fields may come in either order |
| PhaseLifecycle.OverlappingMergesKeepBothExactlyWhen | packages/claude-runner/src/codex-phase-lifecycle.ts:112-134 | two processes that read the same file and publish in turn keep both patches if and only if the first changed nothing the second leaves alone |
| PhaseLifecycle.HoldKeepsItsBudgets | packages/claude-runner/src/codex-phase-lifecycle.ts:325-413 | merge by merge, whatever the controller and other writers write in whatever order, the file holds exactly the budgets of the latest hold entered and not cleared |
| PhaseLifecycle.StaleMergeKeepsHoldExactlyWhen | packages/claude-runner/src/codex-phase-lifecycle.ts:112-134 | another writer that read the file before some writes and publishes after them keeps the hold if and only if those writes left its budgets as they were |
| PhaseLifecycle.OneProcessWritesInTurn | packages/claude-runner/src/codex-phase-lifecycle.ts:108-140 | with reading and publishing as separate steps, the merges of one process have the effect of its writes in turn |
| PhaseLifecycle.OneProcessKeepsTheHold | packages/claude-runner/src/codex-phase-lifecycle.ts:325-413 | so in one process the file always holds the budgets of the latest hold entered and not cleared |
| PhaseLifecycle.SecondProcessLosesTheHold | packages/claude-runner/src/codex-phase-lifecycle.ts:108-140 | an execution of two processes in which a hold entered between the reading and the publishing of the other is lost |
| PhaseLifecycle.PhaseController.EnterHold | packages/claude-runner/src/codex-phase-lifecycle.ts:325-346 | negative budgets are refused; otherwise the file holds the old fields or the new hold |
| PhaseLifecycle.PhaseController.MarkHold | packages/claude-runner/src/codex-phase-lifecycle.ts:348-352 | marking keeps the budgets, throws without a hold, and refuses an invalid file without touching it |
| PhaseLifecycle.PhaseController.LeaveHold | packages/claude-runner/src/codex-phase-lifecycle.ts:397-413 | a failure or kill before the end leaves the hold with its budgets or leaves it cleared; other fields are untouched; an invalid file is refused |
| PhaseLifecycle.PhaseController.Observe | packages/claude-runner/src/codex-phase-lifecycle.ts:277-316 | a requested shutdown comes first, then the first unfinished wake in queue order |
| PhaseLifecycle.PhaseController.MarkWakeStarted | packages/claude-runner/src/codex-phase-lifecycle.ts:415-430 | only this wake changes, from pending to started; unknown wakes throw |
| PhaseLifecycle.PhaseController.FinishWake | packages/claude-runner/src/codex-phase-lifecycle.ts:432-447 | only this wake changes, from started to finished; it throws unless the wake ends up finished |
| PhaseLifecycle.UpdateChangesOne | packages/claude-runner/src/codex-phase-lifecycle.ts:415-447 | a conditional state update changes exactly the named wake, if it is in the expected state |
| PhaseLifecycle.PhaseController.Enqueue | packages/claude-runner/src/codex-phase-lifecycle.ts:356-370 | a known wake id is not queued again; a new one goes to the end |
| DaemonRuntime.AtMostOneUnconfirmed | packages/claude-runner/src/codex-daemon-goal-runtime.ts:275-417 | in every history the runtime can record, at most one daemon is neither confirmed dead nor given up |
| DaemonRuntime.OneDaemonPerRun | packages/claude-runner/src/codex-daemon-goal-runtime.ts:468-565 | within one run at most one daemon is not confirmed dead, the one a failed drain gave up included; beside it only what earlier runs gave up on can be alive |
| DaemonRuntime.GivenUpOnlyAfterSigkill | packages/claude-runner/src/codex-daemon-goal-runtime.ts:398-406 | no run and no teardown gives up on a daemon it has not seen exit before SIGKILL was sent |
| DaemonRuntime.SpawnsAreBounded | packages/claude-runner/src/codex-daemon-goal-runtime.ts:552-562 | a run uses at most one daemon more than it saw transports die, so it spawns at most maxRestarts + 1 times |
| DaemonRuntime.OneCallPerDaemon | packages/claude-runner/src/codex-daemon-goal-runtime.ts:468-533 | within a run the goal is driven at most once on each daemon, in the order they are spawned, so at most maxRestarts + 1 times |
| DaemonRuntime.OneBudgetPerRun | packages/claude-runner/src/codex-daemon-goal-runtime.ts:454-565 | in one execution of a run the goal calls, each on a newer daemon while no other of the run is left, draw on one budget: at most maxRestarts + 1 calls, no deadline of a later one before one of an earlier one, and without a hold the deadlines of the run's own start |
| DaemonRuntime.AccountsRotate | packages/claude-runner/src/codex-daemon-goal-runtime.ts:244-252 | the i-th spawn of a run uses the i-th account from the cursor, cyclically |
| DaemonRuntime.GivenUpExactlyWhenRejected | packages/claude-runner/src/codex-daemon-goal-runtime.ts:398-417 | daemons are given up exactly by runs that are rejected for a failed drain |
| DaemonRuntime.DrainedLeavesNoDaemonExactlyWhen | packages/claude-runner/src/codex-daemon-goal-runtime.ts:587-614 | when drained() resolves after stop(), no daemon is left unconfirmed if and only if no run was rejected because its own drain failed |
| DaemonRuntime.DrainedMayLeaveADaemon | packages/claude-runner/src/codex-daemon-goal-runtime.ts:541-563 | for any accounts and restart limit, an execution of one run, stop() and drained() that resolves with the run's daemon not confirmed dead |
| DaemonRuntime.NothingSpawnsAfterStop | packages/claude-runner/src/codex-daemon-goal-runtime.ts:313-347 | after stop() at most the daemon already being spawned appears, and none after it |
| DaemonRuntime.GoalRuntime.RunGoal | packages/claude-runner/src/codex-daemon-goal-runtime.ts:428-577 | whatever the outside answers and wherever stop() falls: only allowed entries are recorded, a stopped or running runtime refuses, a run that was stopped ends after the teardown settled, and the goal calls on its daemons are the calls of its one budget |
| DaemonRuntime.GoalRuntime.Loop | packages/claude-runner/src/codex-daemon-goal-runtime.ts:468-565 | the restart loop ends with a result or an error after at most maxRestarts restarts, each after a transport death and a confirmed drain |
| DaemonRuntime.GoalRuntime.DriveGoal | packages/claude-runner/src/codex-daemon-goal-runtime.ts:486-533 | a goal call begins on the newest daemon, with no other one left, and is the next call of the run's budget |
| DaemonRuntime.GoalRuntime.StartSession | packages/claude-runner/src/codex-daemon-goal-runtime.ts:275-356 | one spawn; on failure or a stop() in between the daemon was drained, or is reported as not drained |
| DaemonRuntime.GoalRuntime.TearDown | packages/claude-runner/src/codex-daemon-goal-runtime.ts:535-550 | after the catch block no daemon of the run is left, unless its drain failed |
| DaemonRuntime.GoalRuntime.Stop | packages/claude-runner/src/codex-daemon-goal-runtime.ts:587-601 | stop() takes the session once and starts its teardown; later calls change nothing |
| DaemonRuntime.GoalRuntime.SettleTeardown | packages/claude-runner/src/codex-daemon-goal-runtime.ts:591-600 | the background teardown settles with the daemon confirmed dead or the error recorded, after SIGKILL exactly when the first wait ran out |
| DaemonRuntime.GoalRuntime.Drained | packages/claude-runner/src/codex-daemon-goal-runtime.ts:609-614 | drained() resolves exactly when the teardown did not fail, and then only given-up daemons are unconfirmed |
| DaemonRuntime.GoalRuntime.DrainExit | packages/claude-runner/src/codex-daemon-goal-runtime.ts:398-417 | SIGKILL is sent exactly when the first wait ran out; the death is confirmed exactly when one of the two waits saw the exit and the socket then had no listener |
| DaemonRuntime.Life | packages/claude-runner/src/codex-daemon-goal-runtime.ts:186-614 | any sequence of runs, stops and drains, whatever the outside answers, keeps the runtime's record allowed |
| DaemonLock.EveryActIsJustified | packages/claude-runner/src/codex-daemon-runtime.ts:343-629 | over any interleaving without an early crash or a second teardown: no unlink removes a socket on which another spawner's daemon listens and each follows a probe that saw no listener; a lock is given up at most once, that of a spawned daemon only right after such a probe and, if the start failed, after the child's exit |
| DaemonLock.AlwaysJustifiedExactlyWhen | packages/claude-runner/src/codex-daemon-runtime.ts:343-629 | when early crashes or second teardowns may happen, each allowed or not, every act of every interleaving is justified if and only if neither is allowed |
| DaemonLock.StepIsHarmlessExactlyWhen | packages/claude-runner/src/codex-daemon-runtime.ts:343-629 | from any state reached without such a step, a step leaves a state from which some continuation without another one unlinks a socket in use if and only if it is a second teardown, or the crash of a spawner whose daemon may yet come to listen at the path |
| DaemonLock.SecondTeardownCanBreak | packages/claude-runner/src/codex-daemon-runtime.ts:534-567 | in whatever state a second teardown starts, it can take away another one's socket |
| DaemonLock.OneOwner | packages/claude-runner/src/codex-daemon-runtime.ts:343-365 | at most one live spawner is between taking and giving up the lock, and only its daemon owns the path or can still bind it |
| DaemonLock.EarlyCrashBreaksIt | packages/claude-runner/src/codex-daemon-runtime.ts:606-621 | a reachable state in which a socket in use is unlinked, after a spawner died while its daemon was starting |
| DaemonLock.TeardownAgainBreaksIt | packages/claude-runner/src/codex-daemon-runtime.ts:534-567 | the same after a handle was torn down again once its lock was given up |
| DaemonLock.StepKeeps | packages/claude-runner/src/codex-daemon-runtime.ts:534-604 | a step that moves one spawner keeps the invariant of all of them |
| Wire.ClientGetsWhatItIsOwed | packages/claude-runner/src/codex-daemon-transport.ts:87-155 | for every wire trace the handlers are called with the parseable frames in wire order up to the close, then the close, and nothing else |
| Wire.NothingAfterTheClose | packages/claude-runner/src/codex-daemon-transport.ts:87-118 | the close is the last call, and there is at most one |
| Wire.FeelMatches | packages/claude-runner/src/codex-daemon-transport.ts:87-155 | one happening keeps what the transport holds, buffers and has called in line with what was heard |
| Wire.WsDaemonTransport.OnWsMessage | packages/claude-runner/src/codex-daemon-transport.ts:87-111 | a message is dropped, delivered, buffered or closes an overflowing buffer, as the trace demands |
| Wire.WsDaemonTransport.OnWsClose | packages/claude-runner/src/codex-daemon-transport.ts:113-118 | only the first end has an effect |
| Wire.WsDaemonTransport.OnMessage | packages/claude-runner/src/codex-daemon-transport.ts:139-146 | registration replays the buffered frames in order |
| Wire.WsDaemonTransport.OnClose | packages/claude-runner/src/codex-daemon-transport.ts:148-155 | registration hands over a close that came before, once |
| Wire.WsDaemonTransport.Send | packages/claude-runner/src/codex-daemon-transport.ts:120-137 | send throws exactly on a closed or not open socket |
| Wire.SettledExactlyOnce | packages/claude-runner/src/codex-daemon-client.ts:212-361 | after any inputs each issued request was settled exactly once, by the first input from its issue on that settles it (its response, its timer or the close), or is pending; no other id ever is |
| Wire.ClientIsTidy | packages/claude-runner/src/codex-daemon-client.ts:202-361 | ids are issued in order, once closed nothing is pending, and only frames that came while open are notified |
| Wire.FateIsFinal | packages/claude-runner/src/codex-daemon-client.ts:282-330 | a settled request stays settled the same way, so ids are never reused |
| Wire.NothingPendingOnceShut | packages/claude-runner/src/codex-daemon-client.ts:272-280 | once closed, every request ever issued is settled |
| Wire.CodexDaemonClient.Request | packages/claude-runner/src/codex-daemon-client.ts:282-361 | refused when closed or without budget, before an id is taken; else issued under a new id |
| Wire.CodexDaemonClient.Budget | packages/claude-runner/src/codex-daemon-client.ts:298-301 | the effective timeout is never negative and never above the client's or the caller's |
| Wire.CodexDaemonClient.HandleFrame | packages/claude-runner/src/codex-daemon-client.ts:212-265 | a frame changes the table exactly as the reference client does |
| Wire.CodexDaemonClient.HandleClose | packages/claude-runner/src/codex-daemon-client.ts:272-280 | closing rejects everything pending, once |
| Wire.CodexDaemonClient.OnExpired | packages/claude-runner/src/codex-daemon-client.ts:318-325 | a timer settles its request only while it is pending |
| Wire.CodexDaemonClient.OnClosed | packages/claude-runner/src/codex-daemon-client.ts:483-489 | a close by either side settles everything pending |
| ReplyClaim.AtMostOneInFlight | scripts/hooks/discord-reply-enforcer.py:544-617 | for any number of hooks, crashes and prunes, at most one process is between winning the create and recording SENT or FAILED |
| ReplyClaim.EveryActIsJustified | scripts/hooks/discord-reply-enforcer.py:755-820 | only the winner of a create enters the POST loop, once; its change to POSTING is never refused; a marker is removed only after its outcome was recorded |
| ReplyClaim.AbandonedMarkerBlocksForever | scripts/hooks/discord-reply-enforcer.py:544-604 | a marker left active by a dead owner blocks every later automatic send of that key |
| ReplyClaim.StaleMarkerIsReported | scripts/hooks/discord-reply-enforcer.py:579-604 | once older than the claim time, such a marker makes every hook nudge instead of staying silent |
| ReplyClaim.NextKeeps | scripts/hooks/discord-reply-enforcer.py:544-657 | each file operation, crash and prune keeps the invariant |
| ReplyHook.PostWithRetry | scripts/hooks/discord-reply-enforcer.py:474-500 | requests and pauses alternate, at most three requests, each within the time left and only after transient failures; the answer is the last request's |
| ReplyHook.ClaimDir.Prune | scripts/hooks/discord-reply-enforcer.py:620-657 | a sweep keeps every marker that is not a readable resolved record, and of those within retention exactly the newest 500 |
| ReplyHook.NewerAreAfter | scripts/hooks/discord-reply-enforcer.py:651-655 | in the sorted list the markers newer than the k-th are exactly those behind it |
| ReplyHook.Insert | scripts/hooks/discord-reply-enforcer.py:653 | sorting keeps the pairs and orders them by time, then name |
| TailReader.LoadTailRows | scripts/hooks/discord-reply-enforcer.py:892-915 | the backward reader keeps exactly the decodable rows from the last genuine prompt on |
| TailReader.SameTurn | scripts/hooks/discord-reply-enforcer.py:184-192 | dropping what comes before the last genuine prompt changes neither the prompt nor the turn |
| TailReader.EarlierLinesDoNotMatter | scripts/hooks/discord-reply-enforcer.py:892-915 | lines before a genuine prompt, decodable or not, do not change what is kept |
| TailReader.LastGenuineUserIdx | scripts/hooks/discord-reply-enforcer.py:184-192 | finds the last genuine user prompt, or none |
| TailReader.ScanStopSequence | scripts/hooks/discord-reply-enforcer.py:202-296 | the fields of the result over the turn's rows; that the turn is the right one is in `SameTurn`, `LoadTailRows` and `ScanTail` |
| TailReader.ScanTail | scripts/hooks/discord-reply-enforcer.py:202-296 | scanning the kept rows gives what scanning all decodable rows gives |
| BatchEngine.Engine.RunBatch | scripts/fly349-engine/orchestrator.py:20-98 | wherever the process dies: at most one issue per note and one engine comment per issue, batch discipline in memory and on disk, no resolved note changed, no batch changed and the open one resumed; a run that took a note up and left its state on disk lowered the measure of that batch |
| BatchEngine.Engine.Life | scripts/fly349-engine/run.py:879-900 | any number of commands, kills and dropped checkpoints keep these; as long as all commands were clean no note entered the pipeline more than max_attempts times |
| BatchEngine.Engine.Command | scripts/fly349-engine/checkpoint.py:35-60 | one command from a loaded, missing or dropped checkpoint keeps them, mark-reviewed included; however it ends, a checkpoint that was not dropped keeps its resolved notes and attempts |
| BatchEngine.Engine.ProcessBatch | scripts/fly349-engine/orchestrator.py:46-85 | the loop over a batch: the measure falls once a note was taken up, and all notes are resolved if none was |
| BatchEngine.Engine.ProcessOne | scripts/fly349-engine/orchestrator.py:46-61 | a resolved note is skipped, a paused one left, any other taken up once |
| BatchEngine.Engine.ProcessNote | scripts/fly349-engine/orchestrator.py:58-85 | a note taken up is done, failed for good beyond the cap, or left pending; only it changes |
| BatchEngine.Engine.TakeUp | scripts/fly349-engine/orchestrator.py:59-63 | the pipeline is entered exactly within the attempt cap |
| BatchEngine.Engine.Pipeline | scripts/fly349-engine/orchestrator.py:63-77 | a pipeline that ends well leaves the note done and saved |
| BatchEngine.Engine.CreateIssue | scripts/fly349-engine/run.py:752-792 | a covered note is reconciled with its issue; otherwise at most one issue is made, also when the request fails after it was accepted |
| BatchEngine.Engine.AttachRetention | scripts/fly349-engine/run.py:796-811 | the tracker changes at most by one comment on an issue that had none |
| BatchEngine.Engine.Scan | scripts/fly349-engine/run.py:495-510 | a finished scan covers every issue the engine ever made |
| BatchEngine.Engine.FindIdentifier | scripts/fly349-engine/run.py:476-483 | the first scanned issue that mentions the note, or none does |
| BatchEngine.Engine.CoveredNoteIds | scripts/fly349-engine/dedupe.py:32-40 | exactly the ids mentioned by some issue |
| BatchEngine.Engine.ChooseBatch | scripts/fly349-engine/orchestrator.py:26-40 | resume the open batch with its notes or open one of at most the batch size, with every note to be processed inside the scan's knowledge |
| BatchEngine.Engine.Report | scripts/fly349-engine/orchestrator.py:87-98 | reported exactly when every note of the batch is resolved; else an unresolved one exists |
| BatchEngine.Engine.Save | scripts/fly349-engine/checkpoint.py:50-60 | the file holds the old or the new state |
| BatchEngine.RunsAreBounded | scripts/fly349-engine/orchestrator.py:44-98 | runs that leave one batch unreported, however they fail, number at most (max_attempts + 1) per note besides those that were lost or paused before the first note |
| BatchEngine.Engine.DriveBatch | scripts/fly349-engine/orchestrator.py:20-98 | any number of runs of the program on an open batch, whatever fails in them: the batch keeps its notes, and ends up reported with every note resolved unless there were no more than that many runs |
| BatchEngine.Engine.RunProgram | scripts/fly349-engine/orchestrator.py:20-98 | one such run works on the open batch, and reports it, is lost or paused before its first note, or lowers the measure on disk |
| BatchEngine.MeasureFalls | scripts/fly349-engine/orchestrator.py:46-85 | going onward, as every run does, never raises the measure |
| BatchEngine.SmallerMeasure | scripts/fly349-engine/orchestrator.py:58-62 | lowering one note's weight lowers the batch's measure |
| BatchEngine.TakenUpKeeps | scripts/fly349-engine/orchestrator.py:58-62 | counting an attempt of an unresolved note keeps every resolved note as it was |
| BatchEngine.CandidatesDistinct | scripts/fly349-engine/orchestrator.py:33 | the candidates offered are the uncovered or known ones, without repetition |
| BatchEngine.OnlyNoteKeeps | scripts/fly349-engine/checkpoint.py:127-132 | changing one unresolved note keeps the batch discipline and the resolved notes |
| Checkpoint.Book.AssignNextBatch | scripts/fly349-engine/checkpoint.py:135-164 | the open batch as it is, or a new one of the first eligible candidates, or nothing |
| Checkpoint.Book.Pick | scripts/fly349-engine/checkpoint.py:145-154 | the first eligible candidates in order, as many as the size, but one at least |
| Checkpoint.FirstEligibleIsSound | scripts/fly349-engine/checkpoint.py:145-157 | a new batch has distinct, unassigned, unresolved candidates within its size, and is empty only when none is eligible |
| Checkpoint.EligiblesExact | scripts/fly349-engine/checkpoint.py:147-152 | the eligible list holds exactly the unassigned, unresolved candidates |
| Checkpoint.Book.MarkBatch | scripts/fly349-engine/checkpoint.py:175-181 | marking keeps the discipline for reviews and for reporting a resolved latest batch; an unknown batch throws |
| Checkpoint.UnfinishedIn | scripts/fly349-engine/checkpoint.py:167-172 | empty exactly when every note of the batch is resolved |
| Checkpoint.Book.AddNote | scripts/fly349-engine/checkpoint.py:67-80 | a known note keeps its progress |
| Checkpoint.Book.MarkStage | scripts/fly349-engine/checkpoint.py:90-99 | only the named stage of the named note is set |
| GatedLaunch.AtMostOneRunner | packages/claude-runner/src/TmuxAdapter.ts:491-535 | over every interleaving of crashes, failed writes, polls and timeouts the file is committed at most once and at most one shell ever starts its Runner, the one whose token was written |
| GatedLaunch.AdoptionIsSoundExactlyWhen | packages/claude-runner/src/TmuxAdapter.ts:539-582 | with a commit file present some Runner has started or can still start if and only if the file's own has, or its shell is still polling and its token is or can still be written |
| GatedLaunch.TornCommitNeverStarts | packages/claude-runner/src/TmuxAdapter.ts:556-570 | a crash between truncating and writing the file leaves one for which nothing will ever start |
| GatedLaunch.UnpromisingForever | packages/claude-runner/src/TmuxAdapter.ts:503-513 | such a file blocks every further attempt and start |
| GatedLaunch.NextKeeps | packages/claude-runner/src/TmuxAdapter.ts:491-582 | every step keeps the invariant |
| WaitExec.WaitAwareExec.Run | packages/claude-runner/src/wait-aware-exec.ts:84-182 | the call settles exactly once, at a tick or when the child finishes between ticks, within the outer limit but for lateness; no limit is passed at any tick but for lateness; counted waiting is close to true waiting |
| WaitExec.CountedWaitingIsClose | packages/claude-runner/src/wait-aware-exec.ts:125-165 | counted waiting differs from true waiting by at most one gap between samples per gate change |
| WaitExec.CountersMeanWaiting | packages/claude-runner/src/wait-aware-exec.ts:134-140 | the two counters are the time attributed to waiting and the start of the current wait |
| WaitExec.ElapsedIsWorkPlusWaits | packages/claude-runner/src/wait-aware-exec.ts:73-76 | elapsed time is always work plus waiting |
| WaitExec.NextTickWithinLimits | packages/claude-runner/src/wait-aware-exec.ts:142-164 | a tick at most `late` after it is due keeps every limit but for `late` |
| WaitExec.WaitAwareExec.Tick | packages/claude-runner/src/wait-aware-exec.ts:125-165 | a tick times out by the outer, waiting or active amount of the samples, or schedules a positive delay |
| WaitExec.WaitAwareExec.Settle | packages/claude-runner/src/wait-aware-exec.ts:86-110 | only the first settlement has an effect |
| WaitExec.Decide | packages/claude-runner/src/wait-aware-exec.ts:142-164 | every scheduled delay is positive and at most the retry interval |
| WaitExec.LimitsOf | packages/claude-runner/src/wait-aware-exec.ts:52-66 | limits that are not positive are refused; the default outer limit covers the active cap and seven waits while it fits a timer |
| WaitExec.DynamicTimeout.Check | packages/claude-runner/src/TmuxAdapter.ts:835-894 | keeps the same totals on the same samples, and times out exactly when the amount is above its limit |
| CanonicalJson.EqualEncodingsExactlyWhenSame | packages/config/src/canonical-json.ts:7-26 | plain values have the same encoding if and only if they are equal up to key order, dropped undefined members and undefined read as null in arrays |
| CanonicalJson.DecodesToNormalForm | packages/config/src/canonical-json.ts:7-26 | decoding an encoding gives the value's normal form |
| CanonicalJson.EncodingIsStable | packages/config/src/canonical-json.ts:7-26 | the decoded value encodes to the same text again |
| CanonicalJson.ReadsBack | packages/config/src/canonical-json.ts:7-26 | the decoder reads an encoding back and stops where it ends |
| CanonicalJson.SortOrders | packages/config/src/canonical-json.ts:18 | members are written in ascending order of their keys by code units |
| CanonicalJson.EntriesAreReadable | packages/config/src/canonical-json.ts:16-18 | the written members are exactly those whose property is defined |
| CanonicalJson.AscendingIsUnique | packages/config/src/canonical-json.ts:18 | two ascending lists of the same keys are equal, so member order is determined |
| CanonicalJson.SameValuesHaveEqualNorms | packages/config/src/canonical-json.ts:7-26 | equal values have one normal form |
| CanonicalJson.EqualNormsAreSame | packages/config/src/canonical-json.ts:7-26 | values with one normal form are equal |
| CanonicalJson.StringReadsBack | packages/config/src/canonical-json.ts:21 | string escapes, lone surrogates included, are decoded to the original code units |
| BashQuote.ChainIsOnePass | packages/agent-team-transport/bin/agent-team-transport-cli.ts:95-104 | the five chained replacements escape each character exactly once |
| BashQuote.ArrayReadsBack | packages/agent-team-transport/bin/agent-team-transport-cli.ts:119-124 | a shell reads the emitted array assignment back as exactly the argument list |
| BashQuote.ExportsReadBack | packages/agent-team-transport/bin/agent-team-transport-cli.ts:106-117 | a shell reads the emitted export commands back as exactly the environment |
| BashQuote.ArrayArrives | packages/agent-team-transport/bin/agent-team-transport-cli.ts:186-203 | captured and evaluated, the array holds every argument with NUL dropped and lone surrogates replaced: exactly the arguments if and only if they have neither |
| BashQuote.EnvironmentArrives | packages/agent-team-transport/bin/agent-team-transport-cli.ts:186-203 | the same for the environment |
| BashQuote.ArrivesExactlyWhen | packages/agent-team-transport/bin/agent-team-transport-cli.ts:186-203 | for the printing function: a value arrives unchanged if and only if it has no NUL and is well-formed UTF-16 |
| BashQuote.ArrivesExactlyWhenReceivable | packages/agent-team-transport/bin/agent-team-transport-cli.ts:186-203 | the values that arrive unchanged are exactly those a process can be given as NUL-free bytes |
| Utf8.ReceivableExactlyWhen | packages/agent-team-transport/bin/agent-team-transport-cli.ts:182 | the texts decoded from NUL-free bytes, well-formed UTF-8 or not, are exactly the NUL-free well-formed ones |
| Utf8.EncodedReadsBack | packages/agent-team-transport/bin/agent-team-transport-cli.ts:182 | decoding the UTF-8 form of any scalar values gives them back |
| Utf8.ReceivableConcat | packages/agent-team-transport/src/claude/ClaudeCodeAdapter.ts:264 | received texts put together could have been received |
| SpawnConfig.ParseArgs | packages/agent-team-transport/bin/agent-team-transport-cli.ts:71-88 | the flags are those of the arguments, each with the value after it or true |
| SpawnConfig.FlagsAreGiven | packages/agent-team-transport/bin/agent-team-transport-cli.ts:71-88 | every flag value is one of the arguments or true |
| SpawnConfig.PrintArgs | packages/agent-team-transport/bin/agent-team-transport-cli.ts:181-205 | lead-args and runner-args end with an error exactly when a required flag is missing; else the launcher's array holds exactly the identity and options built from the flags, for all arguments a process can be given |
| SpawnConfig.RuntimeEnvArrives | packages/agent-team-transport/src/claude/ClaudeCodeAdapter.ts:315-331 | the launcher's environment gets exactly the variables built, for all directories the process can be given |
| BashQuote.NulIsLost | packages/agent-team-transport/bin/agent-team-transport-cli.ts:186-203 | no process can be given it: a well-formed value whose NUL is dropped, so the condition of the function is needed |
| BashQuote.LoneSurrogateIsReplaced | packages/agent-team-transport/bin/agent-team-transport-cli.ts:186-203 | no process can be given it: a NUL-free value that arrives as U+FFFD |
| BashQuote.EmitEnvAssignments | packages/agent-team-transport/bin/agent-team-transport-cli.ts:106-117 | all export lines, or an error when some name is invalid |
| BashQuote.QuoteReadsBack | packages/agent-team-transport/bin/agent-team-transport-cli.ts:95-104 | a quoted value in word position reads as the value, to the end of the word |

## Left out

- Processes, tmux, sockets, SQLite, HTTP and the MCP, Gemini, Linear and Discord calls are nondeterministic results or abstract stores.
- Regular expressions and text formats (leak patterns, note ids in issue texts, prompts, pages, logs) are parameters or abstract sets.
- Goal run: tokens used and turn ids are not counted; every refused or failed set-goal, turn start or poll is one rejection; a wake is not claimed to survive a crash between finishWake and leaveHold.
- Goal run: times are whole milliseconds, and caps are not negative; `Tick` may let any time pass anywhere.
- The phase controller's shutdown polling, activity waiters and declared states are left out, except that a requested shutdown hides the wakes.
- GoalRun.FirstUnfinished: shutdown and query failures are a flag of the machine's step, not part of the function.
- Daemon runtime: the messages within one goal call are in the goal run model; here a call is what it does to the budget, and its end is an answer from outside; a spawn that fails is taken to leave no daemon behind, which the lock model is about.
- Daemon lock: the lock is atomic, its stale reclaim one step; a process tree sent SIGKILL makes no further system call, and a daemon binds once; SIGTERM is one of the ways to die; the spawner is a state machine, as its guarantees are about many of them at once, so its own variables are places of the machine.
- Wire: callbacks that call back into the client while a frame is handled are not modelled; the client registers its message handler before its close handler, which `ClientGetsWhatItIsOwed` asks for.
- Reply claims: one key at a time; the deletion of a pruned marker (read, check, unlink) is one step; what Discord accepted is not modelled, only who posts.
- ReplyHook.ClaimDir.Prune: run by one process alone; races with other hooks are in `ReplyClaim`.
- ReplyHook.PostWithRetry: a request may outlast its timeout, so the time of the whole loop is not bounded.
- DaemonRuntime.GoalRuntime.Drained: models the moment when the run in flight and the teardown that drained() waits for are over; called before stop() the original waits for the run only.
- PhaseLifecycle.HoldKeepsItsBudgets: each merge is one step, as in one process (`OneProcessKeepsTheHold`).
- BatchEngine.Engine.AttachRetention: the check for an earlier comment is taken to see every comment; the original query reads the first page only (scripts/fly349-engine/run.py:801), so an issue with more comments could get a second one.
- Batch engine: the issue scan is complete (the code reads at most 1200 issues) and candidate ids are distinct; the dry-run mode, titles, timestamps and the note's batch field are left out; the load gate is a free choice to pause.
- BatchEngine.Engine.Life: the attempt cap is claimed for clean commands only, because an attempt is not saved before the first call into the outside world.
- Gated launch: a new attempt starts only after the earlier adapter is gone and only when there is no commit file, which is the dispatcher's part; the file is never deleted.
- Wait accounting: the probe is taken to answer what the gate is; a probe that throws counts as a sample of a closed gate.
- Canonical JSON: numbers are the text they are written as; sparse arrays, functions, symbols and objects with toJSON are not plain values.
- BashQuote: the shell reader covers the words, exports and array assignments that are emitted, and refuses other constructs.
- Tail reader: a line whose JSON is not an object makes the original raise an error and is not modelled.
- Spawn configuration: the choice of the backend, its preflight and the environment of the codex backend are not modelled.
- Not modelled: load gate hysteresis, other argument and path builders, environment washing, founder windows, heartbeats, audit files, other adapters.
