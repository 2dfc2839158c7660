# Verified models of the agent platform's protocols

This project models the concurrent and resumable parts of the agent platform in Dafny and proves what
they keep over every run. Each protocol is a step machine: one step is one synchronous stretch between
two `await`s in TypeScript, or one atomic file action, lock-protected section or frame in Python.
Networks, models, clocks, child processes and callers are events that may happen in any order, or
function parameters that may be anything. Where the program keeps its state in an object, a class with
the same fields takes the same steps in place: each method that is an event of the machine is proved to
do that event's step and to keep the machine's invariant, so that what holds of the machine's runs
holds of the object. The sandbox's lane table and callback slots are parts of a larger machine; there
it is proved that the machine moves them only as their methods do (`RunnerMovesAsLaneTable`,
`RelayMovesAsCallbackSlots`).

`dafny verify dfyconfig.toml` checks everything.

| files | what they model |
|---|---|
| SandboxMailbox, SandboxMailboxProofs, SandboxMailboxTheorems, SandboxDelivery, SandboxPrograms | the script sandbox's RPC lanes: SDK clients that may be killed at any step, the runner, the relay |
| InheritedEvidence, EvidenceCopier | copying a parent's tool evidence into a sub-agent's own store |
| SessionLifecycle, SessionProofs, SessionEffects, SessionTheorems, ManagedSessions | the prompt mutex, release timer, work count, notification delivery and Stop of one resident session |
| BackgroundTurn, BackgroundWorkTurns | the completion mailbox of one HTTP prompt and the loop that drains it |
| SubagentSlots, SubagentSlotsTheorems, ConcurrencyLimiter | nested FIFO limiters for sub-agents |
| GroupRun, ReduceInput | a sub-agent group: breaker, map phase, status ladder, reduce prompt |
| GuidanceRace, GuidanceProofs, SubagentMailboxes | the acceptance loop racing with caller guidance |
| CoalescedWrites, SerialQueue, TaskReplay | the two write disciplines of the plan and the replay of its log |
| SyscallFilter | the launcher's classic BPF program and its interpreter |
| JsText, StreamedText | streamed transcripts and server-sent events, however they are cut |
| MarkdownProse | masking fenced blocks and code spans in generated pages |
| CompileLoop | the resumable compile loop and its ledger |

## What turned out false, and when it holds

- The relay's check that no callback is active when the exit frame arrives does not always pass: it
  passes on every run exactly if the runner cannot fail and its one-second joins complete
  (`ExitIsQuietIff`; `TimedOutJoinRun` and `FailedRunnerRun` are the runs that break it). For a single
  run, once no request can be emitted before the exit frame any more, the check can still fail exactly
  if a callback is outstanding at that moment (`ExitFindsCallbackIff`).
- A copy of inherited evidence can keep an id of the parent: exactly one that is glued to a word
  character in a text that nowhere refers to it properly (`KeepsOnlyGlued`, `GluedIdSurvives`).
- Two quiet events within 50 ms arm two checks of a deferred prompt end, and the second one frees the
  mutex of whichever turn holds it by then. Each turn owns the mutex throughout a run exactly if no
  such leftover check fires while somebody holds it (`MutexIsExclusiveIff`); after one that does, the
  next prompt is let in beside the running turn (`StaleFinishLetsASecondTurnIn`, `TwoTurnsInOneBrain`).
- A prompt whose setup fails can leave an idle session that nobody needs without a release timer
  (`FailedSetupStrands`). A session that has had a turn is in that state exactly if a setup failed on
  it while it was unneeded and nothing rescued it since (`StrandedIff`).
- The comment on `flushPendingNotifications` says a rejected follow-up falls back to a synthetic turn.
  The code has no such fallback, and needs none: a batch whose turn has come always finds the session
  idle, so the follow-up branch is dead (`FollowUpIsNeverTaken`). A step loses a completion exactly in
  the branches of `Loses` (`LosesIff`, `NothingIsLostIff`); without Stop, suppression or a leftover
  check none is ever lost (`NothingIsLost`).
- The mailbox class by itself can accept an empty guidance text and pass it over
  (`EmptyTextIsPassedOver`): a take loses a text exactly if all it finds is one empty text
  (`TakeLosesIff`), and even then its own callback may still steer it (`PassedOverYetRead`). This is a
  boundary of the class only. Its one caller (src/agentbox/session.ts:1090) passes items that were
  checked not to be blank (src/agentbox/subagent-group.ts:206-210), and without empty texts an accepted
  run has brought all guidance to the brain (`AcceptedMeansAllGuidanceWasRead`).
- The comment on `getGroupPodShare` says it reserves the last pod slot for something that is not a
  group child. Over every run it does, exactly if the pod has at least two slots
  (`GroupShareReservesIff`); the only slot of a smaller pod can go to a group's reducer.
- Resuming the compile loop from its final, converged save counts one more dry round
  (`ConvergedSaveCountsOneMore`); from every other save the resumed run ends with the same ledger
  (`ResumeIsTheSameRunIff`).

## Model

| member | source | states |
|---|---|---|
| SandboxMailboxTheorems.RepliesReachTheirOwners | docker/script-sandbox/siclaw.py:105-125 | over every run, with clients killed at any step, a reply a client has read is the reply to its own request; the id-mismatch error is unreachable |
| SandboxMailboxTheorems.WaitingClientOwnsItsLane | docker/script-sandbox/siclaw.py:65-93 | a response in the lane of a waiting client is that client's, and nobody else is inside the lane |
| SandboxMailboxTheorems.EmittedExactlyOnce | docker/script-sandbox/runner.py:111-134 | no request is emitted twice or invented, and a published request is emitted or still in its file |
| SandboxDelivery.WaitingClientIsServed | docker/script-sandbox/runner.py:151-157 | over every run, with crashes and kills anywhere, a waiting client still has its request in its lane or already its own reply |
| SandboxDelivery.OccupiedLaneIsServed | docker/script-sandbox/runner.py:126-157 | over every run an occupied lane's call is still to be emitted, on a pipe, with the relay, or with the responder, unless a thread that serves the lane is gone |
| SandboxDelivery.OneCallReturns | docker/script-sandbox/siclaw.py:105-125 | a run of one call through all three programs that returns and leaves tables, pipes and lane empty |
| SandboxDelivery.MismatchIsRaised | docker/script-sandbox/siclaw.py:120-125 | a reply with another id would be raised as an error, and the lane's lock is given back |
| SandboxDelivery.KillEffect | docker/script-sandbox/siclaw.py:77-91 | a killed client loses its lock and nothing else; its files stay |
| SandboxDelivery.CrashEffect | docker/script-sandbox/runner.py:98-161 | a thread that raises fails the run only while the script lives, an output thread always |
| SandboxDelivery.CallbackFailure | docker/script-sandbox/e2b-relay.py:114-120 | a callback that raises kills the runner; the runner takes no further step |
| SandboxMailboxTheorems.PendingIsInjectiveIntoOccupied | docker/script-sandbox/runner.py:126-157 | `pending` maps different calls to different occupied lanes, at most ten |
| SandboxMailboxTheorems.SlotsAreDistinctOccupiedLanes | docker/script-sandbox/e2b-relay.py:114-128 | each held relay slot belongs to a call with its own occupied lane, so at most ten are held |
| SandboxMailboxTheorems.ProtocolErrorsAreUnreachable | docker/script-sandbox/runner.py:126-147 | the duplicate-request, unknown-response and too-many-callbacks errors never occur, whatever else fails |
| SandboxMailboxTheorems.TimedOutJoinRun | docker/script-sandbox/runner.py:172-181 | a run in which a join gives up on a reader and the exit frame finds a callback active |
| SandboxMailboxTheorems.FailedRunnerRun | docker/script-sandbox/runner.py:158-181 | a run in which a failed responder lets the drain pass while a callback is out |
| SandboxMailboxTheorems.ExitIsQuietIff | docker/script-sandbox/e2b-relay.py:129-136 | the exit frame finds the relay idle on every run iff the runner cannot fail and its joins complete |
| SandboxMailboxTheorems.ExitFindsCallbackIff | docker/script-sandbox/e2b-relay.py:121-136 | for a single run past the drain, or with the exit frame written: some continuation ends in the active-callbacks error iff a callback is outstanding |
| SandboxMailboxProofs.StepInv | docker/script-sandbox/runner.py:111-181 | every step of every program keeps the joint invariant of files, runner, frames and relay |
| SandboxMailboxProofs.SlotIsFree | docker/script-sandbox/e2b-relay.py:123-127 | when a tool frame is read, a slot of the semaphore is free |
| SandboxPrograms.LaneTable.Accept | docker/script-sandbox/runner.py:126-130 | records a request unless its id is pending; `pending` stays an injective map into the occupied lanes, at most ten |
| SandboxPrograms.LaneTable.TakeReply | docker/script-sandbox/runner.py:144-147 | finds the lane of exactly the pending ids; the lane stays occupied and is no other call's |
| SandboxPrograms.LaneTable.Free | docker/script-sandbox/runner.py:155-157 | frees a lane no call waits in, and keeps every pending call in an occupied lane |
| SandboxPrograms.LaneTable.IsDrained | docker/script-sandbox/runner.py:176-178 | the drain passes iff every lane is free, and then no call waits for a reply |
| SandboxPrograms.RunnerMovesAsLaneTable | docker/script-sandbox/runner.py:126-157 | over every run the runner's two tables change only as these methods change them, each within its precondition |
| SandboxPrograms.CallbackSlots.TryAcquire | docker/script-sandbox/e2b-relay.py:124-125 | refuses iff ten callbacks hold a slot; taken slots are exactly the holders, never more than ten |
| SandboxPrograms.CallbackSlots.Release | docker/script-sandbox/e2b-relay.py:114-115 | the slot is free while its callback is still counted as pending |
| SandboxPrograms.CallbackSlots.IsQuiet | docker/script-sandbox/e2b-relay.py:131-133 | the counter is zero iff no callback is out, with or without a slot |
| SandboxPrograms.RelayMovesAsCallbackSlots | docker/script-sandbox/e2b-relay.py:114-133 | over every run the relay's counters change only as these methods change them, each within its precondition |
| SandboxPrograms.TransferIsUnique | docker/script-sandbox/siclaw.py:152-165 | a stream of replies contains at most one whole file of the announced size |
| SandboxPrograms.TransferIs | docker/script-sandbox/siclaw.py:152-165 | in a whole file every reply brings data and the offset reached, and exactly the last one says done |
| SandboxPrograms.ReceiveFile | docker/script-sandbox/siclaw.py:147-169 | ends for every server, and saves a file iff the replies are a whole file of the announced size and digest; the saved bytes are theirs |
| InheritedEvidence.ReplaceOneMore | src/agentbox/subagent-context.ts:125 | replacing ids one after the other equals replacing all at once, since no replacement brings in an id still to be replaced |
| InheritedEvidence.PathWalksBack | src/agentbox/subagent-context.ts:95-124 | along any path the artifacts were finished in strictly decreasing order |
| InheritedEvidence.CompleteOrderIsCopyable | src/agentbox/subagent-context.ts:90-128 | a finished order proves the reachable graph acyclic, within 256 nodes and the byte budget |
| InheritedEvidence.ImageKeepsOnlyGlued | src/agentbox/subagent-context.ts:94-127 | a complete rewriting refers to none of the parent's artifacts, and keeps an id of the parent exactly where it is glued and never referred to in that text |
| InheritedEvidence.GluedIdSurvives | src/agentbox/subagent-context.ts:94 | a text that holds only a glued id is left as it is, whatever the table knows |
| EvidenceCopier.RefusalIsJustified | src/agentbox/subagent-context.ts:99-109 | each refusal (cycle, node cap, unreadable, byte budget) proves that the graph is not copyable |
| EvidenceCopier.Copier.Check | src/agentbox/subagent-context.ts:99-109 | the four refusals, in their order |
| EvidenceCopier.Copier.Inherit | src/agentbox/subagent-context.ts:98-124 | opens, rewrites and preserves one artifact; fails only if stopped, refused by the store, or not copyable |
| EvidenceCopier.Copier.Rebind | src/agentbox/subagent-context.ts:90-128 | terminates and returns the cleaned text with every id replaced under the memo table, which now covers them |
| EvidenceCopier.Materialize | src/agentbox/subagent-context.ts:78-130 | succeeds, unless stopped or refused by the child's store, iff the graph is copyable; then each artifact was read and captured once, and token by token the child's text and captures are the sanitized originals: plain text kept, resume tickets replaced by their marker, ids by those of the copies or the marker of internal ones, glued ids only where the text also refers to them |
| SessionProofs.StepKeeps | src/agentbox/session.ts:3950-4016 | every step keeps: done iff the mutex is free; a release timer only on an idle session without work or notifications, at once if invalidated; the exact work count; a buffer iff its timer; each completion in one place |
| SessionEffects.PromptEffect | src/agentbox/http-server.ts:993-1126 | a prompt finds the session busy and changes nothing, replaces an invalidated unused one, or claims it; who holds the mutex, whether a release is armed and what the mailbox is, for failed setup, early Stop and start |
| SessionEffects.LoopEffect | src/agentbox/http-server.ts:1240-1249 | the loop waits and prompts again exactly as long as nobody has pressed Stop |
| SessionEffects.TurnEndEffect | src/agentbox/http-server.ts:1251-1329 | a turn ends at once, mutex free and mailbox closed, or is deferred exactly while the agent is busy |
| SessionEffects.QuietEffect | src/agentbox/http-server.ts:1314-1325 | each quiet event arms one check; a check that fires ends the turn unless the agent is busy |
| SessionEffects.BusyEffect | src/agentbox/http-server.ts:1298-1313 | the agent's busy state is what a deferred end looks at |
| SessionEffects.LaunchEffect | src/agentbox/session.ts:1938-2006 | a launched job is counted and owned by the turn whose mailbox is open; after Stop it is only recorded and silenced |
| SessionEffects.LaunchFailsEffect | src/agentbox/session.ts:1983-2012 | a failed launch leaves counts and jobs as they were |
| SessionEffects.SettleEffect | src/agentbox/session.ts:2017-2024 | a settled job is counted off, and the last one lets the session go |
| SessionEffects.NotifyEffect | src/agentbox/session.ts:2180-2240 | a first completion goes to its owner, is dropped if suppressed, or else joins the buffer with the timer armed |
| SessionEffects.FlushEffect | src/agentbox/session.ts:2248-2279 | the buffer is dropped after Stop, kept with its timer while a turn runs, else queued as one batch behind the others |
| SessionEffects.SyntheticEffect | src/agentbox/session.ts:2288-2318 | a batch that has its turn is delivered with the mutex taken, or dropped if Stop came first |
| SessionEffects.SyntheticEndEffect | src/agentbox/session.ts:2483-2492 | the mutex is free and the release armed iff nothing holds the session |
| SessionEffects.StopEffect | src/agentbox/http-server.ts:1826-1851 | Stop sets the flag, cancels the current mailbox, drops the buffer and silences the running jobs |
| SessionEffects.InvalidateEffect | src/agentbox/session.ts:4006-4016 | the session is marked and released at once if nobody uses or holds it, else when its prompt is done |
| SessionEffects.ReleaseEffect | src/agentbox/session.ts:3988-3996 | the session leaves the map with nothing buffered, and nothing more happens to it |
| SessionEffects.ReleaseIsImmediateIff | src/agentbox/session.ts:3979-3996 | over every run a scheduled release is immediate iff the session was invalidated |
| SessionTheorems.MutexIsExclusiveIff | src/agentbox/http-server.ts:1298-1329 | at every moment of a run exactly the running turn holds the mutex, iff no leftover check of a deferred end fires while somebody holds it |
| SessionTheorems.OwnershipExcludes | src/agentbox/session.ts:2301-2317 | while turns own the mutex at most one of them, HTTP or synthetic, is in the brain |
| SessionTheorems.StaleFinishDisowns | src/agentbox/http-server.ts:1251-1297 | such a check always leaves the running turn without its mutex |
| SessionTheorems.StaleFinishLetsASecondTurnIn | src/agentbox/http-server.ts:1007-1078 | after it, the next prompt is admitted while the other turn still runs |
| SessionTheorems.TwoTurnsInOneBrain | src/agentbox/http-server.ts:1314-1325 | a run from a fresh session that ends with two turns inside the brain |
| SessionTheorems.StopIsTerminal | src/agentbox/session.ts:2255-2300 | after Stop, until a prompt is admitted, the model is not prompted, nothing is delivered to it and no job starts |
| SessionTheorems.ExactlyOnePlace | src/agentbox/session.ts:2180-2303 | each claimed completion is exactly once owned, buffered, queued, delivered or dropped; an unclaimed one is nowhere |
| SessionTheorems.OnlyOwnJobsAreOwned | src/agentbox/session.ts:2223-2226 | over every run only the completions of a turn's own jobs are left to that turn's mailbox |
| SessionTheorems.UnownedIsOnItsWay | src/agentbox/session.ts:2228-2240 | without Stop or suppression a reported completion that is no turn's own is buffered, queued or delivered |
| SessionTheorems.LosesIff | src/agentbox/session.ts:2180-2318 | a step loses a completion iff it takes one of the losing branches: Stop or its aftermath with something to drop, a launch after Stop, a suppressed job, a release or rebuild over a queued batch |
| SessionTheorems.NothingIsLostIff | src/agentbox/session.ts:2180-2318 | a run loses no completion iff no step of it takes a losing branch |
| SessionTheorems.FollowUpIsNeverTaken | src/agentbox/session.ts:2288-2304 | over every run a batch that has its turn finds the session idle: the follow-up branch is never taken and its answer makes no difference |
| SessionTheorems.ReleaseLosesNothing | src/agentbox/session.ts:3965-3977 | while turns own the mutex, a release by the timer loses no completion |
| SessionTheorems.NothingIsDropped | src/agentbox/session.ts:1021-1046 | without Stop or suppression a session drops nothing, and while resident has lost no completion, whatever the brain answers |
| SessionTheorems.NothingIsLost | src/agentbox/session.ts:2180-2318 | without Stop, suppression or a leftover check no completion is ever lost, even if the session is released |
| SessionTheorems.OwnedOrSuppressedNeverWakes | src/agentbox/session.ts:2221-2227 | the completion of an owned or suppressed job never reaches the model through a synthetic turn or a follow-up |
| SessionTheorems.StrandedIff | src/agentbox/http-server.ts:1103-1126 | after a run with a turn, the session is idle, unneeded and without a release timer iff a setup failed on it while unneeded and nothing rescued it since |
| SessionTheorems.StrandedAfterStepIff | src/agentbox/session.ts:3456-3463 | a step leaves the session stranded iff a setup fails on an unneeded one, or it was stranded and the step does not rescue it |
| SessionTheorems.FailedSetupStrands | src/agentbox/http-server.ts:1103-1126 | a run with a finished turn that ends stranded |
| ManagedSessions.ManagedSession.ScheduleRelease | src/agentbox/session.ts:3950-3998 | on an idle consistent session: afterwards the timer is armed iff no job and no notification holds it, at once when invalidated |
| ManagedSessions.ManagedSession.HandlePrompt | src/agentbox/http-server.ts:993-1078 | the machine's step; busy iff the mutex was held, replaced iff it left the map, running iff the turn holds the mutex with the release cancelled |
| ManagedSessions.ManagedSession.ActuallyFinish | src/agentbox/http-server.ts:1251-1297 | ends a turn as the machine does, whoever holds the mutex |
| ManagedSessions.ManagedSession.OnPromptFinish | src/agentbox/http-server.ts:1298-1329 | the machine's step; deferred while the agent is busy, else the session is idle and its release armed iff nothing holds it |
| ManagedSessions.ManagedSession.DeferredCheck | src/agentbox/http-server.ts:1315-1325 | the machine's step; ends in an idle session with its release armed iff nothing holds it, unless the agent is busy |
| ManagedSessions.ManagedSession.LaunchJob | src/agentbox/session.ts:1938-2006 | the machine's step; the job is active and no release is armed, or after Stop its completion is already in exactly one place |
| ManagedSessions.ManagedSession.LaunchJobFails | src/agentbox/session.ts:1983-2012 | the machine's step; the count and the active jobs are as before the launch |
| ManagedSessions.ManagedSession.NotifyParent | src/agentbox/session.ts:2180-2240 | the machine's step; afterwards the completion is claimed and in exactly one of the five places |
| ManagedSessions.ManagedSession.FlushPendingNotifications | src/agentbox/session.ts:2248-2279 | the machine's step; waits while a turn runs, else empties the buffer into the queue, or nowhere after Stop |
| ManagedSessions.ManagedSession.RunSyntheticPrompt | src/agentbox/session.ts:2288-2318 | the machine's step; takes the mutex and delivers the batch iff the session is not stopped, whatever a follow-up would answer |
| ManagedSessions.ManagedSession.FinishSyntheticPrompt | src/agentbox/session.ts:2483-2492 | the machine's step; the session is idle and its release armed iff nothing holds it |
| ManagedSessions.ManagedSession.SettleJob | src/agentbox/session.ts:2017-2024 | the machine's step; counts off exactly one job, and with the last one arms the release of an idle session iff no notification holds it |
| ManagedSessions.ManagedSession.DiscardPendingNotifications | src/agentbox/session.ts:1021-1046 | drops the buffer and restores the ordinary lifecycle of an idle session |
| ManagedSessions.ManagedSession.Abort | src/agentbox/http-server.ts:1826-1851 | the machine's step; the buffer is empty, the current turn cancelled, the running jobs silenced, an idle session's release armed iff no job holds it |
| ManagedSessions.ManagedSession.MarkInvalidated | src/agentbox/session.ts:4006-4016 | the machine's step; an idle session is released at once iff nothing holds it, a busy one when its prompt is done |
| ManagedSessions.ManagedSession.ReleaseTimerFires | src/agentbox/session.ts:3990-3998 | the machine's step; the session leaves the map idle, without jobs, and drops nothing |
| BackgroundTurn.ParkedMissesNothing | src/agentbox/background-work-turn.ts:78-88 | while `next()` is parked and not woken there is no result, steer or cancellation, and a job to wait for |
| BackgroundTurn.HandedOutOnce | src/agentbox/background-work-turn.ts:89-96 | no registration's result is handed out twice |
| BackgroundTurn.FirstAnswerStands | src/agentbox/background-work-turn.ts:62-67 | from any moment of a run, the first answer of a job stands as long as it is not unregistered |
| BackgroundTurn.CompleteStores | src/agentbox/background-work-turn.ts:62-70 | the first answer of a live turn's job stands in that job's entry, all others stay as they were, and `next()` is woken |
| BackgroundTurn.ClaimedIsHandedOut | src/agentbox/background-work-turn.ts:62-100 | over every run a completion the turn claimed is handed out, or the next evaluation of `next()` does not park and hands it out unless a steer comes first |
| BackgroundTurn.BatchInOrder | src/agentbox/background-work-turn.ts:90-96 | over every run a batch comes in the order of registration |
| BackgroundTurn.RegisterEffect | src/agentbox/background-work-turn.ts:27-29 | a live turn takes a new job, unanswered, behind the others; a cancelled one takes none |
| BackgroundTurn.UnregisterEffect | src/agentbox/background-work-turn.ts:31-35 | exactly that job is forgotten and `next()` is woken |
| BackgroundTurn.SteerEffect | src/agentbox/background-work-turn.ts:39-48 | a steer is taken exactly while the live loop waits, and steers come out in order |
| BackgroundTurn.CancelEffect | src/agentbox/background-work-turn.ts:72-76 | steers are gone, jobs stay, `next()` is woken |
| BackgroundTurn.LoopEffect | src/agentbox/http-server.ts:1440-1461 | a report counts iff it is good and no result is outstanding; Stop reaches mailbox and loop |
| BackgroundTurn.ContinueEffect | src/agentbox/http-server.ts:1440-1461 | the loop goes on for a steer or a batch unless stopped, and else ends, unreported iff live jobs got no report |
| BackgroundTurn.BatchIsPrompted | src/agentbox/http-server.ts:1442-1459 | a batch taken from the mailbox is the next prompt unless Stop came; no steer replaces it |
| BackgroundTurn.EndsOnlyWithAReport | src/agentbox/http-server.ts:1440-1461 | a turn ends well only if cancelled, or every job was handed out and, if any, the model reported after the last result |
| BackgroundWorkTurns.BackgroundWorkTurn.Register | src/agentbox/background-work-turn.ts:27-29 | a new job of a live turn is added once |
| BackgroundWorkTurns.BackgroundWorkTurn.Unregister | src/agentbox/background-work-turn.ts:31-35 | forgets the job and wakes the loop |
| BackgroundWorkTurns.BackgroundWorkTurn.Complete | src/agentbox/background-work-turn.ts:62-70 | keeps the first answer of a live turn, wakes the loop, and claims every answer of an own job |
| BackgroundWorkTurns.BackgroundWorkTurn.QueueSteer | src/agentbox/background-work-turn.ts:39-44 | takes a steer only while the loop waits |
| BackgroundWorkTurns.BackgroundWorkTurn.Cancel | src/agentbox/background-work-turn.ts:72-76 | drops the steers and wakes the loop |
| BackgroundWorkTurns.BackgroundWorkTurn.TakeBatch | src/agentbox/background-work-turn.ts:90-96 | collects exactly the results that are ready, in order of registration |
| BackgroundWorkTurns.BackgroundWorkTurn.Next | src/agentbox/background-work-turn.ts:80-100 | parks exactly when there is nothing to return for |
| SubagentSlots.PlansIncrease | src/agentbox/session.ts:901-912 | every spawn path takes its limiters in the order pool, group, session, pod |
| SubagentSlots.StepKeeps | src/core/concurrency-limiter.ts:37-63 | each limiter counts exactly its holders within its limit, queues only when full, and queues exactly its waiters |
| SubagentSlotsTheorems.NeverDeadlocks | src/agentbox/session.ts:1390-1414 | as long as a task is unfinished some task can take its next step without a cancellation |
| SubagentSlotsTheorems.RunsEnd | src/core/concurrency-limiter.ts:37-63 | a run is never longer than what its tasks had left to do |
| SubagentSlotsTheorems.EverybodyFinishes | src/agentbox/session.ts:1464-1465 | a run that can go no further has finished every child and returned every slot |
| SubagentSlotsTheorems.FirstComeFirstServed | src/core/concurrency-limiter.ts:46-63 | over every run, once a waiter has left a queue, everybody who was ahead of it has |
| SubagentSlotsTheorems.GroupsStayWithinTheirShare | src/agentbox/session.ts:901-912 | pod slots held by group children never exceed the group limiter's limit, however many groups run |
| SubagentSlotsTheorems.ChildrenHoldTheirSlots | src/agentbox/session.ts:1390-1414 | over every run, by kind of child: who holds a pod slot, as every running child does, holds its session's too; map items and reducers a group slot, map items one of their pool |
| SubagentSlotsTheorems.GroupKindsStayWithinTheirShare | src/agentbox/session.ts:901-912 | over every run map items and reducers hold at most the group limit of pod slots |
| SubagentSlotsTheorems.ReducerWaits | src/agentbox/session.ts:1464-1523 | over every run a task takes no slot before every task it comes after is done |
| SubagentSlotsTheorems.SkipEffect | src/agentbox/session.ts:1390-1402 | a task that is not running may leave without running and then only gives back |
| SubagentSlotsTheorems.FullPodRunsASingleChild | src/core/subagent-registry.ts:367-369 | with the group share below the pod's limit, a full pod always runs a child of no group |
| SubagentSlotsTheorems.GroupShareReservesIff | src/core/subagent-registry.ts:361-369 | with the configured share, over every run and by kind, a pod is never full of map items and reducers only, iff it has at least two slots |
| ConcurrencyLimiters.ConcurrencyLimiter.constructor | src/core/concurrency-limiter.ts:17-19 | a finite limit of at least one is rounded down, anything else is one |
| ConcurrencyLimiters.ConcurrencyLimiter.Acquire | src/core/concurrency-limiter.ts:46-57 | takes a slot or queues behind the others |
| ConcurrencyLimiters.ConcurrencyLimiter.Release | src/core/concurrency-limiter.ts:59-63 | hands the slot to the head of the queue, or frees it |
| GroupRun.TrippedIff | src/agentbox/subagent-group.ts:294-316 | for every completion order, tripped iff the first `window` completions all failed and none succeeded |
| GroupRun.GroupCircuitBreaker.RecordStatus | src/agentbox/subagent-group.ts:302-311 | keeps the counters of the completion order |
| GroupRun.GroupCircuitBreaker.IsTripped | src/agentbox/subagent-group.ts:314-316 | answers for the whole order recorded so far |
| GroupRun.GroupTripsIff | src/agentbox/session.ts:1445-1449 | in every reachable group, tripped iff the first `window` items to complete failed and no item is done |
| GroupRun.NoChildAfterTrip | src/agentbox/session.ts:1353-1402 | after the breaker trips no child is started, even if a late success releases it |
| GroupRun.NoChildAfterAbort | src/agentbox/session.ts:1353-1402 | after Stop or the timer no child is started |
| GroupRun.SkippedOnlyAfterAbort | src/agentbox/session.ts:1353-1402 | in every reachable group an item is skipped only after Stop, the timer, or `window` failures first |
| GroupRun.StartIs | src/agentbox/session.ts:1353-1365 | a group starts with every item queued, aborted iff its parent already was |
| GroupRun.ItemEffect | src/agentbox/session.ts:1366-1452 | when an item is submitted, skipped, given its child session, and completed, with the status its child reports, all others unchanged |
| GroupRun.AbortEffect | src/agentbox/session.ts:1353-1365 | Stop and the timer abort the map and are remembered, the timer only while the map runs |
| GroupRun.MapEndEffect | src/agentbox/session.ts:1480-1556 | a finished map is reduced iff wanted, not stopped, something done and the breaker held; the report tells which |
| GroupRun.ReportsDoneIff | src/agentbox/session.ts:1556-1571 | reports done iff every item is done and no wanted reduce failed or was cancel-skipped |
| GroupRun.ReportsFailedIff | src/agentbox/session.ts:1564-1571 | reports failed iff tripped or nothing is done or partial; timed out iff the timer fired, nobody cancelled, the breaker held, not everything is done, and something is done or partial |
| GroupRun.EveryItemEnds | src/agentbox/session.ts:1353-1452 | in a reported group every item is over, and the skipped ones are exactly those without a child session |
| ReduceInput.TruncationIsBounded | src/agentbox/delegation-summary.ts:62-73 | text that fits is unchanged; cut text is a beginning of it with the suffix, within the larger of limit and suffix |
| ReduceInput.TruncationCuts | src/agentbox/delegation-summary.ts:62-73 | cut text keeps everything up to its last line or sentence end past 55 percent of the budget, else up to the budget, without the white space before the cut, and gets the suffix |
| ReduceInput.TrimIs | src/agentbox/subagent-group.ts:246-272 | trimming keeps the middle from the first to the last character that is no white space |
| ReduceInput.SharesWithinBudget | src/agentbox/subagent-group.ts:258-266 | the floored proportional shares never exceed the body budget |
| ReduceInput.ReduceInputIsBounded | src/agentbox/subagent-group.ts:246-272 | no longer than the larger of the limit and the overhead, plus 12 characters per item |
| ReduceInput.FittingInputIsWhole | src/agentbox/subagent-group.ts:259-261 | a prompt that fits contains every header and result as it is |
| ReduceInput.PromptIs | src/agentbox/subagent-group.ts:246-272 | the prompt is the instruction and, two line breaks apart and in order, each header line with its whole result, or the result cut to its floored share |
| ReduceInput.OverheadIsExact | src/agentbox/subagent-group.ts:246-258 | the overhead is exactly what the uncut prompt has besides the results |
| ReduceInput.HeadersSurvive | src/agentbox/subagent-group.ts:268-271 | the instruction opens the prompt and every item's header line is in it, however much is cut |
| GuidanceProofs.AtMost35Prompts | src/agentbox/subagent-completion.ts:14-55 | at most 35 prompts over every interleaving with senders; the 36-turn fallback is unreachable |
| GuidanceProofs.AcceptedMeansEverythingWasRead | src/agentbox/subagent-completion.ts:44-49 | an accepted run is sealed with nothing pending, and every text reached the brain as often as it was sent, but for one empty text per take that found nothing else |
| GuidanceProofs.AcceptedMeansAllGuidanceWasRead | src/agentbox/session.ts:1084-1093 | if no empty text is sent, as the caller makes sure, an accepted run has brought every text to the brain as often as it was sent |
| GuidanceProofs.TakeLosesIff | src/agentbox/subagent-completion.ts:17-24 | a take keeps everything it finds iff what it finds is not exactly one empty text |
| GuidanceProofs.PassedOverYetRead | src/agentbox/subagent-lifecycle.ts:53-78 | of the class taken alone: a run in which an empty text is passed over by a take and then steered to the brain |
| GuidanceProofs.EmptyTextIsPassedOver | src/agentbox/subagent-lifecycle.ts:69-78 | of the class taken alone: a run that is accepted although an accepted empty text never reached the brain |
| GuidanceProofs.StepCounts | src/agentbox/subagent-lifecycle.ts:53-78 | every step keeps: guided turns so far and those guidance can still cause are at most the texts accepted |
| GuidanceProofs.StepLosesNothing | src/agentbox/subagent-lifecycle.ts:53-78 | every step keeps each accepted text reached, carried, pending, queued, or passed over by a take that found one empty text |
| GuidanceProofs.SendEffect | src/agentbox/subagent-lifecycle.ts:53-59 | a text is recorded, pending and chained iff the mailbox is open and has taken fewer than 32 |
| GuidanceProofs.OpenEffect | src/agentbox/subagent-completion.ts:16-17 | the run begins once the brain is attached, and a closed mailbox takes no text |
| GuidanceProofs.DeliveryEffect | src/agentbox/subagent-lifecycle.ts:59-66 | the oldest chained text is steered iff the brain is attached, at work and open; a delivered one leaves `pending`, and what the brain reads has reached it |
| GuidanceProofs.TakeEffect | src/agentbox/subagent-completion.ts:17-46 | a take empties queue and pending, queue first; what it found opens another turn, or goes with the next prompt |
| GuidanceProofs.PromptEffect | src/agentbox/subagent-completion.ts:19-23 | a prompt reaches the brain with all it carries, and its end opens the review |
| GuidanceProofs.ReviewEffect | src/agentbox/subagent-completion.ts:26-44 | an error ends the run, an output limit counts as incomplete, otherwise the assessor decides |
| GuidanceProofs.DecideEffect | src/agentbox/subagent-completion.ts:47-52 | final verdicts and a third failure seal and end, unless something is pending, which gets a turn; others get a repair |
| SubagentMailboxes.SubagentMailbox.Send | src/agentbox/subagent-lifecycle.ts:53-58 | refused after sealing or after 32 texts, else recorded, pending and chained |
| SubagentMailboxes.SubagentMailbox.StartDelivery | src/agentbox/subagent-lifecycle.ts:59-62 | steers unless not attached, reviewed or closed |
| SubagentMailboxes.SubagentMailbox.SteerSettled | src/agentbox/subagent-lifecycle.ts:62-65 | a delivered text leaves `pending` |
| SubagentMailboxes.SubagentMailbox.TakePending | src/agentbox/subagent-lifecycle.ts:69-78 | empties queued and pending; the prompt contains every one of their texts, and the batch is remembered for the audit |
| SubagentMailboxes.SubagentMailbox.ConsumeGuidance | src/agentbox/subagent-lifecycle.ts:82-97 | audits each delivered text as often as it was accepted and not audited before, and forgets the batch it found |
| SubagentMailboxes.CarriesIff | src/agentbox/subagent-lifecycle.ts:85-86 | a message carries a batch iff it is the batch or ends with it as caller guidance |
| SubagentMailboxes.PutBatchIs | src/agentbox/subagent-lifecycle.ts:76 | a batch replaces the one with the same prompt in its place, or joins at the end |
| SubagentMailboxes.SubagentMailbox.Seal | src/agentbox/subagent-lifecycle.ts:99-103 | seals iff nothing is pending; no send is admitted afterwards |
| CoalescedWrites.OneWriteInFlight | src/agentbox/keyed-writes.ts:46-69 | at most one write in flight, a follow-up only behind one, never more writes than requests; every request is followed by a write that starts at or after it, is due, or was given up |
| CoalescedWrites.DrainMeansIdle | src/agentbox/keyed-writes.ts:38-44 | a drain is answered only on an idle key, and no waiter is left on one |
| CoalescedWrites.DrainsAreAnswered | src/agentbox/keyed-writes.ts:38-44 | over every run each drain asked for is answered once or still waits, and on an idle key all are answered |
| CoalescedWrites.CancelEffect | src/agentbox/keyed-writes.ts:80-83 | a cancelled key starts no further write, and the one in flight goes on |
| CoalescedWrites.DrainedFileIsThePlan | src/agentbox/session.ts:2712-2730 | an idle key's file is the plan as last requested, unless that request was cancelled or its write failed |
| CoalescedWrites.CoalescedWriter.Write | src/agentbox/keyed-writes.ts:46-61 | starts, coalesces or throws for its key and leaves every other key alone |
| CoalescedWrites.CoalescedWriter.Settled | src/agentbox/keyed-writes.ts:62-69 | frees the key, follows up, answers drains |
| CoalescedWrites.CoalescedWriter.AwaitDrain | src/agentbox/keyed-writes.ts:72-79 | answers at once on an idle key, else waits |
| CoalescedWrites.CoalescedWriter.CancelFollowUp | src/agentbox/keyed-writes.ts:80-83 | drops a queued follow-up and answers drains |
| SerialQueue.RunsInPushOrder | src/agentbox/keyed-writes.ts:101-112 | items start in push order, each once, one at a time, whether they fail or not |
| SerialQueue.DrainCoversEarlierPushes | src/agentbox/keyed-writes.ts:113-115 | the promise a drain returns covers everything pushed before it |
| SerialQueue.DrainWaitsIff | src/agentbox/keyed-writes.ts:105-115 | over every run a drain has something to wait for iff something pushed has not run |
| SerialQueue.NothingIsStuck | src/agentbox/keyed-writes.ts:101-112 | unless everything is done, some item may start or is running |
| SerialQueue.KeyedQueue.PushItem | src/agentbox/keyed-writes.ts:101-111 | chains the item behind its key's tail and leaves every other key alone |
| SerialQueue.KeyedQueue.ItemSettled | src/agentbox/keyed-writes.ts:105-109 | ends the link, and forgets the tail only if it is still this link |
| SerialQueue.KeyedQueue.Drain | src/agentbox/keyed-writes.ts:113-115 | returns the key's tail; when there is none everything pushed has run |
| TaskReplay.RestoreTaskLedger | src/agentbox/task-ledger-recovery.ts:4-31 | the plan is exactly the tasks whose last upsert no later delete or reset undid, with its fields and the last subject given in this lifetime, in order of birth; the counter is at least every number ever upserted |
| TaskReplay.PlanHasIff | src/agentbox/task-ledger-recovery.ts:4-31 | told from the messages: an id is in the plan iff a message of this list gives it and no later one deletes it or resets |
| TaskReplay.PlanFields | src/agentbox/task-ledger-recovery.ts:14-27 | told from the messages: a task's fields are those of the last message that gives it, but for the subject |
| TaskReplay.ApplyKeeps | src/agentbox/task-ledger-recovery.ts:14-27 | one more event of any kind keeps the map equal to what the log says |
| SyscallFilter.FilterDecides | docker/script-sandbox/launcher.c:34-107 | for any allow-list, architecture, number and arguments the program returns, and returns the ordered decision |
| SyscallFilter.FilterReturns | docker/script-sandbox/launcher.c:34-107 | the program's answer rule by rule in the kernel's numbers: kill, allow, 38, the namespace mask, the three requests, 1 |
| SyscallFilter.LayoutIs | docker/script-sandbox/launcher.c:35-98 | the words of the data that the loads read, low half of an argument first |
| SyscallFilter.FilterStaysInside | docker/script-sandbox/launcher.c:34-103 | every jump lands in the program and every load in the data |
| SyscallFilter.FilterIsAcceptedIff | docker/script-sandbox/launcher.c:104-106 | the kernel's limits are met iff the allow-list leaves room in 4096 instructions |
| SyscallFilter.CloneRuns | docker/script-sandbox/launcher.c:86-91 | clone is allowed iff no namespace bit is set in the low word of its flags |
| SyscallFilter.IoctlRuns | docker/script-sandbox/launcher.c:94-100 | ioctl is allowed for exactly the three requests |
| SyscallFilter.MaskCoversNamespaces | docker/script-sandbox/launcher.c:88-89 | the mask is exactly the seven namespace flags |
| JsText.SplitAgain | portal-web/src/api.ts:112-114 | what is still open may be split later together with what follows, for any separator |
| JsText.WhiteSpaceIs | portal-web/src/api.ts:123 | what `trim` strips, by code point |
| JsText.JoinContains | src/agentbox/subagent-lifecycle.ts:75 | a join contains each of its pieces |
| StreamedText.ChatStream | portal-web/src/api.ts:109-131 | for every chunking, the messages are those of the whole text split at blank lines, without the unfinished last piece |
| StreamedText.MessageIs | portal-web/src/api.ts:123-129 | a frame is a message iff its last data line holds something; what its data and event are |
| StreamedText.MessagesNext | portal-web/src/api.ts:122-129 | messages come in the order of their frames, none added or lost |
| StreamedText.ScanChunk | src/agentbox/subagent-transcript.ts:43-52 | one chunk hands on exactly the lines that are complete, or stops at a refused row |
| StreamedText.ValidateTranscript | src/agentbox/subagent-transcript.ts:19-60 | for every chunking, accepts exactly the texts whose non-blank lines all parse, begin with a header and contain an assistant message |
| StreamedText.TranscriptValidator.ValidateLine | src/agentbox/subagent-transcript.ts:27-41 | joins the parts of a line, skips a blank one, checks a row |
| MarkdownProse.SpansAreCodeSpans | kbc/tools/emit.py:117-148 | each blanked stretch opens with a backtick run and ends with the next run of equal length |
| MarkdownProse.OtherRunsAreUnmatched | kbc/tools/emit.py:143-145 | a run left standing has no later run of its length |
| MarkdownProse.MaskCodeSpans | kbc/tools/emit.py:117-149 | the in-place pass blanks exactly the code spans, line breaks kept |
| MarkdownProse.FencedIffOpened | kbc/tools/emit.py:99-115 | a line is masked iff an opener outside any block precedes it, or is it, and no line between closes it |
| MarkdownProse.OpenFenceIs | kbc/tools/emit.py:108-111 | a fence opens iff the line has at most three spaces and then three or more equal fence characters; its mark and exact length |
| MarkdownProse.ClosesIff | kbc/tools/emit.py:102-106 | a line closes a fence iff after at most three spaces comes a run that begins with the mark and is long enough, and then only blanks |
| MarkdownProse.LinesAre | kbc/tools/emit.py:101 | the lines make up the page and end exactly at Python's line boundaries |
| MarkdownProse.MaskFences | kbc/tools/emit.py:98-115 | the line loop masks exactly the fenced lines |
| MarkdownProse.MarkdownProse | kbc/tools/emit.py:96-149 | both passes together |
| MarkdownProse.ProseIs | kbc/tools/emit.py:117-149 | character by character: a space inside a code span of the fence-masked page, else that page's character |
| MarkdownProse.LineIs | kbc/tools/emit.py:98-115 | line by line: blanked iff some opener reaches it, else as it was |
| MarkdownProse.BlankedIs | kbc/tools/emit.py:45-46 | blanking turns every character but a line feed into a space |
| MarkdownProse.ProseKeepsShape | kbc/tools/emit.py:45-46 | same length, same line breaks, every other character kept or blanked |
| CompileLoop.OutcomeMeans | kbc/tools/compile_loop.py:106-130 | a run ends; converged means nothing pending and nothing parked, parked means nothing pending and a question open |
| CompileLoop.RunOnlyAddsFindings | kbc/tools/compile_loop.py:90-102 | a run only adds findings, each fingerprint once, and changes none |
| CompileLoop.AddedClaimsNameASource | kbc/tools/compile_loop.py:112-115 | every claim a run adds names the file of one of the ledger's sources |
| CompileLoop.AddedFindingsAreTriaged | kbc/tools/compile_loop.py:76-92 | every finding a run adds is a report under its fingerprint, resolved with triage's answer or parked |
| CompileLoop.BatchIsTriaged | kbc/tools/compile_loop.py:112-117 | after a batch every report's fingerprint is on record |
| CompileLoop.CompileEffect | kbc/tools/compile_loop.py:109-119 | one batch compiles the first pending source, appends its claims under its name, and resets the dry rounds |
| CompileLoop.ResumeIsTheSameRunIff | kbc/tools/compile_loop.py:106-130 | resuming from any save gives the same outcome, and the same ledger iff the save does not say converged |
| CompileLoop.ConvergedSaveCountsOneMore | kbc/tools/compile_loop.py:106-130 | a run whose save says converged, and whose resumption ends with another ledger |
| CompileLoop.ResumeAfterManyCrashes | kbc/tools/compile_loop.py:55-68 | any number of crashes and resumes ends with the ledger of the uninterrupted run |
| CompileLoop.AnsweredLoopConverges | kbc/tools/compile_loop.py:133-140 | once every parked question is answered the loop converges without asking again |
| CompileLoop.SettledFindingsStay | kbc/tools/compile_loop.py:133-138 | backfilling changes no finding that is not parked, and no fingerprint |
| CompileLoop.AnswerIs | kbc/tools/compile_loop.py:133-138 | a parked finding that is answered is ruled with that answer, any other finding stays |
| CompileLoop.CompileLedger.Run | kbc/tools/compile_loop.py:106-130 | the loop terminates, ends with the specified ledger after the specified saves, and asks triage once about exactly the fingerprints it adds |
| CompileLoop.CompileLedger.TriageFinding | kbc/tools/compile_loop.py:90-102 | asks only about a fingerprint that was never recorded |
| CompileLoop.CompileLedger.Backfill | kbc/tools/compile_loop.py:133-140 | rules exactly the parked findings that are answered |

## Left out

- HTTP, TLS, SSE sockets, process spawning, file permissions, Kubernetes and Docker: they appear only as steps that succeed, fail or come late.
- Model behaviour, routing, tracing, metrics and prompt text: arbitrary oracles or not modelled.
- Scripts that write the RPC files themselves: lanes are touched only through the SDK.
- Message bodies of the RPC path: requests, replies and frames carry only their id.
- A crash in the middle of writing a file: sandbox messages, captured artifacts and the compile ledger are written whole or not at all.
- `captureSubagentContext` and images: the evidence model starts from the captured text, as tokens for plain text, artifact ids, ids glued to a word character and resume tickets.
- Replacement ids of the child's store are taken to be fresh: `FreshIds` is a precondition of the copier.
- Replacing a resident session (context change, `close`) and the awaits inside `release`: the session model ends when the instance leaves the map.
- A session left by a rebuild or a release is not followed further; a batch still queued then counts as lost.
- SessionTheorems.FollowUpIsNeverTaken: rests on the event loop, built into `Step`: a request or a timer begins only when no microtask is left, and a batch's turn starts in microtasks.
- Named-turn Stop of a turn that has not started: it enters the session model as `stopPending` of the prompt that consumes it.
- SerialQueue.RunsInPushOrder: says nothing about the sends reaching the server, whose failures are the item's own.
- SubagentSlots.PlansIncrease: children never spawn children, so a task's limiters are all it waits for besides earlier tasks.
- SandboxMailboxTheorems.ExitFindsCallbackIff: starts once every reader thread has ended or the exit frame is written; before that a late reader can still add a callback.
- Liveness that needs timers to fire, networks to answer or threads to be scheduled.
- GuidanceProofs.AtMost35Prompts: the brain's queue holds only the mailbox's own steers, a rejected steer queued nothing, and promise reactions run in the order they were registered.
- BackgroundTurn.EndsOnlyWithAReport: jobs are registered while the model runs or the loop waits, not between `next()` and the loop.
- TaskReplay.RestoreTaskLedger: an id that reads as infinity is not modelled, since ids are read as real numbers.
- MarkdownProse.FencedIffOpened: the source's own fence rules, which differ from CommonMark (info strings with backticks and mixed closing runs are accepted).
- SyscallFilter.FilterDecides: the listed syscall numbers come from system headers and are a parameter.
- `validateAndRenderGroupPlan`, turn and usage ledgers, CLI startup, OCR and the user interface: field-by-field checks, counters, start-up order and presentation, which keep no state between asynchronous steps.
