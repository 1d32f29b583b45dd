# Triumph: the action pool, the sequence runner, the debugger client and the save passes

This project models four parts of the Triumph editor and proves what they keep.

**The background-action pool** (`Pool*.dfy`, `RunningThreads.dfy`). Queue, CancelAction, StopAll, Shutdown,
the timer and the workers' Entry loop form a state machine whose steps lie between two lock operations. The
main thread and any number of workers interleave freely; locks have holders, threads hold what the scoped
lockers hold, deletes and the semaphore are counted. `PoolTheorems` collects one invariant of ten parts and
draws the results from it, `PoolProgress` and `PoolReturns` show that every action can still be brought to its
end and every call can return, `PoolWork` which actions the workers work on, `PoolCalls` and `PoolTimer` what
each call has done when it returns, `PoolGuards` which mutex every change is made under, `PoolCancel` follows
CancelAction from its look at the queue to its return; `RunningThreads` has the loops in the form of the
source.

**The sequence runner** (`Sequence*.dfy`, `Detector.dfy`, `PoolSignals.dfy`). `Sequence.SequenceClass` is the
class with its loops; each method equals a closed form. `SequenceLaws` proves what every series of calls
keeps, `SequenceAnswers` what each handler does by the steps' answers alone, `SequencePool` puts the sequence
on top of the very state machine of the pool, with the other actions whose completion events reach the
sequence too, and proves shared ownership. `SequenceLog` says in exactly which runs the steps come one after
the other, `SequenceOrder` that they do in orderly runs, `SequenceLimits` and `SequenceRaces` from exactly
which states they can be relied on to, and `SequenceExamples` has two runs in which they do not. `Detector` is
one of the steps that is itself a small event-driven queue.

**The DBGp debugger client** (`Dbgp*.dfy`, `Breakpoint*.dfy`, `PathMapping.dfy`, `DebuggerConfig.dfy`,
`ConfigRoundTrip.dfy`, `DebuggerTypes.dfy`, `Strings.dfy`). Packet framing over arbitrary pieces, the command
and answer loop with a queue filled by another thread, the two together, the file name mapping, and the stored
configuration. The breakpoint list is followed against the engine's table over any number of sessions: a
command is posted as an event, added to the server's queue when that event is handled, and sent by the
background thread, which empties the queue when a script stops; the main thread learns of answers, stops and
starts by events of its own (`BreakpointSessions`). `BreakpointTheorems` says exactly when list and table
agree, `BreakpointNames` what the engine is told and then has, name by name, `BreakpointLimits` what decides
it from one session to the next, and `BreakpointExamples` has three runs in which they do not.

**Saving a file** (`TextLines.dfy`, `TrimSpaces.dfy`, `StripSpaces.dfy`, `TrailingBlankLines.dfy`,
`TrimResult.dfy`, `CodeControl.dfy`). The two passes that edit the buffer in place, proved equal to functions
of the text, and what those functions leave of any text, character by character.

Check everything with `dafny verify dfyconfig.toml`.

## Assumptions

* All client calls of the pool come from one main thread, events are deferred, threads can be created,
  and semaphore waits do not time out.
* A step's Init answers as the environment decides (`declined`); each step object is added once.
* The sequence is a handler of the SQLite pool (`src/Triumph.cpp:49`, `src/actions/SequenceClass.cpp:45`)
  and matches completion events by event id only (`src/actions/SequenceClass.cpp:368-383`). Any actions may
  carry such an id (`tagged`); closing a file (`src/views/TagViewClass.cpp:224-230`) or changing one outside
  the editor (`src/features/TagFeatureClass.cpp:80-83`) queues one.
* The engine answers each command once and in order, sends the init packet and waits, and gives no
  breakpoint id twice within a session; where ids are assumed never to be given again in any session, the
  statement says so (`NeverRepeats`). The mappings do not change during a debug session.
* Events of one kind are handled in the order in which they were posted; commands posted by the feature and
  news from the background thread are events of different kinds and may overtake each other.
* The editor component divides text into lines at CR LF, CR and LF and reports positions as its
  documentation says: the end of the text for the end of the last line and beyond, and for the start of
  the line after the last; minus one for the start of any line further on.
* Case is folded as in ASCII. White space is that of the C locale.

## Where the code differs from its comments or from what one expects

* CancelAction is documented to cancel a running action. It returns at once when the queue is empty
  (`src/actions/ActionClass.cpp:316-319`), and then does not. `CancelActionLooks` and `CancelActionReaches`
  say what happens in either case, `CancelActionFlagsExactlyWhen` is the condition over the whole call, and
  `CancelMissesRunningAction` is a run that shows the gap.
* Build without actions posts START and never COMPLETE; Stop and a completion event without a running
  sequence post COMPLETE without START. `StartsAndCompletes` is the exact balance.
* A completion event that is not the front step's is taken for it: one left over from a stopped sequence
  (`StaleEventOvertakes`), or one of another action with an event id the sequence listens to
  (`OtherEventOvertakes`). Ownership does not suffer (`FreedAtMostOnce`), order does: it is lost in exactly
  the runs in which such an event is delivered while a step waits behind the front (`OrderedUnlessStray`),
  and starting a sequence, or going on with one, is safe in exactly the states in which no such event is
  pending or still to come (`StartIsSafeExactlyWhenSettled`, `OrderedExactlyWhenCalm`,
  `OrderedExactlyWhenCalmBehind`). Nothing in the program keeps the user from closing a file while a
  sequence runs.
* A detector whose process cannot be started after the first stays silent for ever
  (`FailedStartIsSilent`, for instance `SecondStartFails`); it signals its end exactly when all can be started.
* TrimTrailingSpaces is documented for all lines. A blank line ended by LF after a line ended by a lone
  CR disappears, and the line after it is skipped. `StripsExactlyWhenNoneMissed`, `LineCount`,
  `TrimTwice` and `SaveTwice` are exact conditions, `KeepsBlanksOfSkippedLine` is an instance.
* RemoveTrailingBlankLines says it modifies only PHP files; it returns at once for the PHP file type.
* ToLocalFilename is called the inverse of ToRemoteFilename. `ComesBackExactlyWhen` gives the condition for
  any file below a mapped local root: when the remote root has a backslash, the name comes back, up to
  slashes, if and only if that root is the local one up to slashes. Otherwise, for a remainder without the
  local root, if and only if it does not repeat the remote root (`RoundTrip`); for one that repeats a local
  root with a backslash never; and for one with forward slashes if and only if no character kept of it begins
  the remote root in the name sent out (`BackExactlyWhenClear`).
* A file named in another case is found in a mapping but nothing is replaced (`OtherCaseIsNotMapped`): the
  engine is sent the local name, which comes back exactly when no mapping replaces it on the way back
  (`OtherCaseComesBackExactlyWhen`).
* A mapping with an empty path is stored but not loaded (`MappingsComeBack`).
* A breakpoint removed before the engine has answered for it stays in the engine for the rest of the
  session (`HastyRemoval`).
* A command that sets a breakpoint and is still an event when the server's queue is emptied after a script,
  or is posted after that and before the next session's start is handled, is executed in the next session
  besides the one that its start posts. The engine then has the breakpoint twice, and the answer for the old
  command matches nothing (`NextSessionAgreesExactlyWhen`, `OldAnswerMatchesNothing`). It happens to a
  breakpoint added just before a script stops (`LateCommand`), and when a script stops before its start is
  handled, as a "run" left over can make it do (`EarlyStop`). `TablesAgree` is the exact condition for any run.
* The removal of commands after a script stops at an empty command, and those behind it are written in the
  next session: `CarriesOverExactlyWhen` is the exact condition, `EmptyCommandSavesTheRest` an instance.
  No part of the program sends an empty command: all are made by `Build`, and then no command that AddCommand
  was called for before the removal was done is written later (`NothingCarriesOver`). That does not hold for
  commands that PostCmd has posted and whose event comes later. Sessions that end by an error or a
  cancellation remove nothing at all.
* The init packet is read with a buffer of its own, so bytes received together with it are lost to the
  session (`SessionSeesTheRest`, `LosesWhatCameWithInit`); an engine that waits for commands sends none
  (`LockStepLosesNothing`).

## Model

| member | source | states |
|---|---|---|
| PoolTheorems.RunInv | src/actions/ActionClass.cpp:130-393 | the ten-part invariant holds at every point of every interleaving, for any number of threads |
| PoolTheorems.ExactlyOnePlace | src/actions/ActionClass.cpp:153-223 | each action ever given to Queue is in exactly one of queue, one thread's hands, deleted; at most one delete; what any thread is about to touch is not deleted |
| PoolTheorems.AfterStopAll | src/actions/ActionClass.cpp:354-388 | when the main thread is idle without threads, the queue is empty, all workers have posted and were waited for, no lock is held, every action was deleted exactly once |
| PoolTheorems.StopAllReturns | src/actions/ActionClass.cpp:379-387 | the last step of StopAll leads to that state, with every worker done |
| PoolTheorems.StopAllCancelsEverything | src/actions/ActionClass.cpp:362-377 | after drain and walk each live action is some worker's RunningAction and has its cancel flag set: nothing popped escapes |
| PoolTheorems.SemaphoreProtocol | src/actions/ActionClass.cpp:179-193 | count plus waits equals posts, count at most one, posts at most the workers told to exit, posting never exceeds the bound, and a wait on zero has a worker that can move |
| PoolTheorems.WaitedForProgress | src/actions/ActionClass.cpp:379-387 | while StopAll waits on an empty semaphore some worker can step |
| PoolTheorems.DeadlockFree | src/actions/ActionClass.cpp:130-223 | in every reachable state with a held lock some holder can step |
| PoolLocks.LockOrder | src/actions/ActionClass.cpp:195-208 | a thread holding a lock only waits for locks of higher rank: queue, then running action, then action or handler |
| PoolLocks.NoDeadlock | src/actions/ActionClass.cpp:310-352 | from the lock order alone, some lock holder can move |
| PoolSafety.NoUseAfterFree | src/actions/ActionClass.cpp:130-151 | the action a thread is about to read, flag or post for is alive |
| PoolSafety.RunningActionIsLive | src/actions/ActionClass.cpp:195-215 | whenever a running-action mutex is free, its pointer is null or a live action in that worker's hands |
| PoolTheorems.CancelActionReaches | src/actions/ActionClass.cpp:321-351 | a CancelAction that found a non-empty queue ends with the queue filtered and every action of that id in a worker's hands flagged |
| PoolTheorems.KeepIsFilter | src/actions/ActionClass.cpp:321-341 | the queue CancelAction leaves has exactly the other actions, each as often as before, and equals the old one when none has the id |
| PoolTheorems.FlagsOnlyTheTarget | src/actions/ActionClass.cpp:130-142 | only StopAll, or CancelAction for that very id, sets an action's flag, and only while it is alive |
| PoolExamples.CancelActionLooks | src/actions/ActionClass.cpp:310-319 | CancelAction returns at once, changing nothing, if and only if the queue is empty |
| PoolCancel.CancelActionFlagsExactlyWhen | src/actions/ActionClass.cpp:310-352 | from its look at the queue to its return: an unflagged action of that id in a worker's hands has its flag afterwards if and only if the queue was not empty, and the queue has exactly the others |
| PoolExamples.CancelMissesRunningAction | src/actions/ActionClass.cpp:316-319 | a run in which the action of that id works on without its flag after CancelAction has returned |
| PoolTheorems.FirstInFirstOut | src/actions/ActionClass.cpp:275-283 | popped ids, queued ids and the next id form one increasing line; with one thread BackgroundWork calls never overlap and come in id order, across restarts |
| PoolOrder.WorkerKeepsSerial | src/Triumph.cpp:60-61 | the one-at-a-time discipline the SQLite pool relies on is kept by every worker step |
| PoolSignals.SignalsOnce | src/actions/ActionClass.cpp:210-215 | a worker that posts an action's completion event posts the first one for it, while the action is alive |
| PoolSignals.EachSignalsAtMostOnce | src/actions/ActionClass.cpp:210-215 | in every run no action posts its completion event twice, and only actions given to the pool post one |
| PoolProgress.EveryActionCanFinish | src/actions/ActionClass.cpp:153-223 | while the main thread does nothing, steps of the workers alone, with a decreasing measure, lead every live action to its completion event |
| PoolProgress.NothingGetsStuck | src/actions/ActionClass.cpp:153-223 | so from every reachable state in which the main thread is idle |
| PoolReturns.EveryCallCanReturn | src/actions/ActionClass.cpp:275-393 | from every reachable state, some interleaving, with a lexicographic measure, brings the main thread back from the call it is in, without another call; from inside StopAll without threads |
| PoolWork.NoWorkOnceTold | src/actions/ActionClass.cpp:153-177 | in every run, a worker that has been told to exit and is not at work, wherever it stands between its two tests, never announces or begins the BackgroundWork of any action again |
| PoolWork.TurnedAway | src/actions/ActionClass.cpp:167-171 | and the action in its hands then is signalled before it leaves them, deleted once, and nobody is ever at work on it |
| PoolWork.MarksAreAtWork | src/actions/ActionClass.cpp:155-166 | a step that begins or ends a BackgroundWork is that of a worker at work on that action |
| PoolWork.CompletedRanOrTold | src/actions/ActionClass.cpp:153-177 | in every run, an action that has signalled its end had its BackgroundWork called, or was cancelled and in the hands of a worker told to exit |
| PoolCalls.StopAllStopsAll | src/actions/ActionClass.cpp:354-398 | whenever a call of StopAll or Shutdown returns there are no threads, nothing is queued, every action ever given has been deleted once and every worker has left; after Shutdown the pool is shut down, after StopAll no more than before |
| PoolCalls.ShutdownIsFinal | src/actions/ActionClass.cpp:265-270 | from then on no thread is ever started, nothing is queued, and every action given is deleted at once |
| PoolCalls.QueueGivesTheNextId | src/actions/ActionClass.cpp:265-307 | whenever a call of Queue returns, the action has the id that was next, the next id is one more and there are exactly the maximum of threads; after Shutdown the action is deleted and nothing else changes |
| PoolCalls.IdsComeFirst | src/actions/ActionClass.cpp:275-283 | in every reachable state each action queued, in CancelAction's copy or in a worker's hands has its id, but for the one Queue has pushed and is about to number |
| PoolTimer.TickReportsAll | src/actions/ActionClass.cpp:428-434 | whenever the timer's handler returns it has looked at every thread and posted the progress of each action it found there |
| PoolTimer.ReadsBeforeItPosts | src/actions/ActionClass.cpp:144-151 | before it posts an action's progress it has read the action's mode and percentage, under the action's mutex |
| PoolTimer.HandlersAreLocked | src/actions/ActionClass.cpp:400-415 | a call that adds or removes a handler returns only after it has held the handler mutex |
| PoolGuards.ChangesAreGuarded | src/actions/ActionClass.cpp:195-223 | in every reachable state, a step that changes the queue, the ids, the list of threads, a RunningAction pointer or a cancel flag, or deletes an action others can reach, is made by the thread that holds the mutex for it |
| PoolGuards.CleanupFindsNothing | src/actions/ActionClass.cpp:217-223 | a worker on its way out finds the queue empty, and StopAll is waiting for just that worker |
| PoolGuards.CleanupDeletesAll | src/actions/ActionClass.cpp:217-223 | from any state in which it did not, its cleanup would delete every queued action once |
| RunningThreads.RunningThreadsClass.Queue | src/actions/ActionClass.cpp:275-283 | the action goes to the back of the queue and gets the next id |
| RunningThreads.RunningThreadsClass.NextAction | src/actions/ActionClass.cpp:195-208 | the front leaves the queue and becomes RunningAction, null when there is none |
| RunningThreads.RunningThreadsClass.CancelAction | src/actions/ActionClass.cpp:310-352 | the pop, rebuild and walk loops delete exactly the queued actions of that id, keep the order of the rest, flag exactly the running ones, unless the queue was empty |
| RunningThreads.RunningThreadsClass.CleanupAllActions | src/actions/ActionClass.cpp:217-223 | the queue is emptied and each of its actions deleted as often as it was in it |
| RunningThreads.AimsAreRunning | src/actions/ActionClass.cpp:130-135 | the actions flagged are exactly the running ones with that id |
| Sequence.SequenceClass.AddStep | src/actions/SequenceClass.cpp:229-231 | the step goes to the back |
| Sequence.SequenceClass.RunNextStep | src/actions/SequenceClass.cpp:263-327 | declining steps are deleted in order up to the first that accepts, which is queued if asynchronous; COMPLETE exactly when all declined |
| Sequence.SequenceClass.Run | src/actions/SequenceClass.cpp:233-239 | START, then as RunNextStep |
| Sequence.SequenceClass.OnActionComplete | src/actions/SequenceClass.cpp:241-261 | the front step is removed, deleted unless asynchronous, and the next runs or COMPLETE is posted |
| Sequence.SequenceClass.Stop | src/actions/SequenceClass.cpp:53-75 | all steps are removed, each deleted except an asynchronous front, and COMPLETE is posted |
| Sequence.SequenceClass.Build | src/actions/SequenceClass.cpp:202-212 | nothing while a sequence runs, else the steps are added and run |
| Sequence.FirstAcceptedAt | src/actions/SequenceClass.cpp:271-307 | all steps before the one that runs declined, and it accepts |
| SequenceLaws.HandleInv | src/actions/SequenceClass.cpp:241-327 | between handlers IsRunning holds iff steps are left, IsCurrentStepAsync is the front's DoAsync, the front is the last step initialised, each step before it has exactly one owner that frees it |
| SequenceAnswers.HandlerDoes | src/actions/SequenceClass.cpp:53-75 | what each handler does, by the answers alone: from which step on it asks, that all it passes over said no and are freed, that the one left in front said yes, runs and is the pool's if asynchronous, which step is freed by whom, and what is posted |
| SequenceAnswers.AnswersDecide | src/actions/SequenceClass.cpp:263-327 | of the steps a handler asks, exactly those passed over said no; the one left running is the front and said yes |
| SequenceAnswers.LogTellsAnswers | src/actions/SequenceClass.cpp:271-307 | every Init call a handler adds to the log is recorded with the answer that step gave |
| SequenceAnswers.RefusedBuildChangesNothing | src/actions/SequenceClass.cpp:202-205 | Build while a sequence runs changes nothing in sequence, pool, events and log |
| SequenceLaws.StartsAndCompletes | src/actions/SequenceClass.cpp:202-261 | over every series of calls COMPLETE + still running + empty builds = START + stray ends |
| SequenceLaws.CompleteMeansEmpty | src/actions/SequenceClass.cpp:263-327 | COMPLETE is posted only when no steps remain |
| SequenceLaws.InitsInOrder | src/actions/SequenceClass.cpp:271-289 | Init is called at most once per step, in AddStep order, and on no step behind the front |
| SequenceLaws.CompletionConsumes | src/actions/SequenceClass.cpp:241-261 | a delivered completion event leaves fewer steps: they are a termination measure |
| SequencePool.FreedAtMostOnce | src/actions/SequenceClass.cpp:53-75 | in every run of sequence and pool together, with events of stopped sequences and of other actions delivered to the sequence, no step is freed twice |
| SequencePool.FreedExactlyOnce | src/actions/SequenceClass.cpp:241-327 | in the same runs, once the sequence has no steps and the pool is stopped, each step ever added was freed exactly once by the two together |
| SequenceLog.OrderedUnlessStray | src/actions/SequenceClass.cpp:241-261 | in every run each Init call follows a Build, a step that declined just before, or the event of the step before, which had finished, if and only if no other completion event was delivered while a step waited behind the front |
| SequenceOrder.StepsRunOneByOne | src/actions/SequenceClass.cpp:233-327 | so it is in every orderly run: sequences start only when everything is settled, and no other action with one of the sequence's event ids is queued while one runs |
| SequenceOrder.DeliveriesAreTheFronts | src/actions/ActionClass.cpp:155-166 | in an orderly run at most one completion event is pending while a sequence runs, it is the front step's, and the pool has signalled that step's end |
| SequenceLimits.OrderedExactlyWhenCalm | src/actions/SequenceClass.cpp:368-383 | while a synchronous step runs and another waits, all orderly continuations keep the order if and only if no other completion event is pending or still to come |
| SequenceRaces.OrderedExactlyWhenCalmBehind | src/actions/SequenceClass.cpp:241-261 | the same with at least two steps behind the front one, synchronous or asynchronous, finished or not |
| SequenceLimits.StartIsSafeExactlyWhenSettled | src/actions/SequenceClass.cpp:202-212 | in every reachable state, all ways to start a sequence and go on orderly keep the order if and only if no event of an earlier step or another action is pending or still to come |
| SequenceExamples.StaleEventOvertakes | src/actions/SequenceClass.cpp:53-75 | a run with one disorderly event: the event of a stopped sequence's step makes the next sequence initialise its second step though its first has not finished |
| SequenceExamples.OtherEventOvertakes | src/views/TagViewClass.cpp:224-230 | a run with one disorderly event: an action queued elsewhere under one of the sequence's event ids has the same effect on a running sequence |
| Detector.UrlTagDetectorActionClass.Init | src/actions/UrlTagDetectorActionClass.cpp:63-109 | the three nested loops fill the queue with the specified jobs and the first is tried; the result is whether it started |
| Detector.JobsArePairs | src/actions/UrlTagDetectorActionClass.cpp:78-100 | the queue holds one job for each existing source with a URL of each enabled project and each script, in that order, and no other |
| Detector.JobsAre | src/actions/UrlTagDetectorActionClass.cpp:79-99 | a job is queued if and only if it is that of an existing source of an enabled project, with a URL, and of a script |
| Detector.JobsInOrder | src/actions/UrlTagDetectorActionClass.cpp:79-99 | and in the order of the projects |
| Detector.UrlTagDetectorActionClass.NextDetection | src/actions/UrlTagDetectorActionClass.cpp:121-134 | the front job leaves the queue whether or not its process starts |
| Detector.UrlTagDetectorActionClass.OnProcessComplete | src/actions/UrlTagDetectorActionClass.cpp:150-171 | the next job is tried, or the end is signalled when none is left |
| Detector.StartsInOrder | src/actions/UrlTagDetectorActionClass.cpp:121-171 | in every run jobs are tried in order, each at most once, and the end is signalled at most once |
| Detector.SignalsOnceWhenAllStart | src/actions/UrlTagDetectorActionClass.cpp:150-171 | once nothing runs any more, the end was signalled if and only if every start succeeded, and then all jobs were tried |
| Detector.FailedStartIsSilent | src/actions/UrlTagDetectorActionClass.cpp:150-156 | after a failed start no event can come, no end is signalled, and the remaining jobs stay queued |
| Detector.SecondStartFails | src/actions/UrlTagDetectorActionClass.cpp:150-156 | a run of two jobs that ends without a signal |
| DbgpStream.Connection.ReadUntil | src/actions/DebuggerServerActionClass.cpp:48-53 | receives pieces until a NUL is in the buffer or the connection ends, which is the error |
| DbgpStream.Connection.ReadResponse | src/actions/DebuggerServerActionClass.cpp:48-73 | the result and the bytes left are a function of the bytes alone, error paths included |
| DbgpStream.ResponseIsOfBytes | src/actions/DebuggerServerActionClass.cpp:48-73 | reading piece by piece refines reading the concatenated bytes |
| DbgpStream.ReadExactly | src/actions/DebuggerServerActionClass.cpp:48-73 | the result for every stream of bytes, by its first two NULs: the second field, "close" at once, or an error with what was read so far |
| DbgpStream.PacketsRead | src/actions/DebuggerServerActionClass.cpp:30-40 | a stream of packets gives back exactly their payloads in order and leaves the rest |
| DbgpStream.FramingIsIndependentOfPieces | src/actions/DebuggerServerActionClass.cpp:48-73 | successive reads return the payloads in order for every division of the stream into pieces |
| DbgpStream.SessionSeesTheRest | src/actions/DebuggerServerActionClass.cpp:138-184 | the session sees all bytes after the init packet if and only if the packet ends where a piece ends |
| DbgpStream.LosesWhatCameWithInit | src/actions/DebuggerServerActionClass.cpp:138-184 | a stream of one piece whose second packet never reaches the session |
| DbgpStream.LockStepLosesNothing | src/actions/DebuggerServerActionClass.cpp:138-168 | nothing is lost when the engine sends only the init packet first |
| DbgpSession.VerbOfBuilt | src/language_php/DbgpEventClass.cpp:1551-1569 | the verb found in a command is the one it was built with |
| DbgpSession.VerbIs | src/actions/DebuggerServerActionClass.cpp:230-232 | what is looked at of any command: all before its first space, capitals as small letters |
| DbgpSession.StopsExactlyWhen | src/actions/DebuggerServerActionClass.cpp:254-259 | a command built from a verb ends the script if and only if the verb is run, step_into, step_over, step_out or stop and the answer parses and says stopping |
| DbgpSession.DrainedEmpty | src/actions/DebuggerServerActionClass.cpp:218-225 | the removal loop leaves nothing if and only if no empty command precedes another command |
| DbgpSession.DebuggerServerActionClass.AddCommand | src/actions/DebuggerServerActionClass.cpp:96-99 | the command goes to the back |
| DbgpSession.DebuggerServerActionClass.NextCommand | src/actions/DebuggerServerActionClass.cpp:101-110 | the front command is taken, or the empty string returned |
| DbgpSession.DebuggerServerActionClass.RemoveCommands | src/actions/DebuggerServerActionClass.cpp:218-225 | the queue becomes what follows its first empty command |
| DbgpSession.DebuggerServerActionClass.ParseAndPost | src/actions/DebuggerServerActionClass.cpp:229-257 | the script has stopped if and only if the command's verb is run, step_into, step_over, step_out or stop and its answer parses with status stopping |
| DbgpRuns.WrittenInOrder | src/actions/DebuggerServerActionClass.cpp:180-214 | over every run commands are written in the order in which they were added, each at most once, none empty |
| DbgpRuns.AtMostOneUnanswered | src/actions/DebuggerServerActionClass.cpp:188-214 | exactly one command is unanswered while its answer is awaited, otherwise none |
| DbgpRuns.AnswersMeetTheirCommands | src/actions/DebuggerServerActionClass.cpp:163-214 | the i-th answer of a session is dispatched under the i-th command's verb, the init packet under init |
| DbgpRuns.DrainsExactlyWhenStopping | src/actions/DebuggerServerActionClass.cpp:212-226 | in every run, the removal of commands begins with a read if and only if the answer parses and says stopping and the command was built from one of those five verbs; otherwise the session goes on |
| DbgpRuns.OnlyAnAnswerDrains | src/actions/DebuggerServerActionClass.cpp:217-225 | and nothing but such a read begins it |
| DbgpRuns.WaitsOrIsWritten | src/actions/DebuggerServerActionClass.cpp:180-214 | in every step a waiting command stays, is written in this session, or is lost by the removal, a failed write, or because it is empty |
| DbgpRuns.NothingIsLost | src/actions/DebuggerServerActionClass.cpp:180-214 | while no script stops and no write fails, the commands written and those waiting are all that were added, in that order |
| DbgpRuns.CancelStopsWriting | src/actions/DebuggerServerActionClass.cpp:180-184 | after the server is told to stop it writes at most the command it had taken, and begins a further session only if it was waiting for one |
| DbgpRuns.NothingAfterAccepting | src/actions/DebuggerServerActionClass.cpp:138-160 | once the accept loop is left, no session begins and nothing is written |
| DbgpRuns.DrainLeaves | src/actions/DebuggerServerActionClass.cpp:218-225 | with commands added meanwhile, the removal leaves what it would have left had all been there from the start |
| DbgpRuns.CarriesOverExactlyWhen | src/actions/DebuggerServerActionClass.cpp:218-225 | some continuation writes a command added before the removal was done if and only if an empty command came before one that is not, and the server was not cancelled |
| DbgpRuns.NothingCarriesOver | src/language_php/DbgpEventClass.cpp:1551-1569 | in every run whose commands are all made by Build the queue is empty afterwards and no command added before is ever written |
| DbgpRuns.EmptyCommandSavesTheRest | src/actions/DebuggerServerActionClass.cpp:218-225 | a run in which a command added in one session is written in the next |
| DbgpExchange.PacketsMeetTheirCommands | src/actions/DebuggerServerActionClass.cpp:180-214 | however the engine's bytes are divided and whenever they arrive, what is read i-th in a session is the payload of its i-th packet and is dispatched under the i-th command's verb |
| DbgpExchange.NoByteIsLost | src/actions/DebuggerServerActionClass.cpp:48-73 | during a session the bytes in the buffer, received and under way are exactly the packets not yet dispatched |
| Breakpoints.DebuggerFeatureClass.AddBreakpointAtLine | src/features/DebuggerFeatureClass.cpp:422-461 | appends one breakpoint unless the place has one, and in a session posts its command under the id it remembers, for the file as ToRemoteFilename names it |
| Breakpoints.DebuggerFeatureClass.RemoveBreakpointAtLine | src/features/DebuggerFeatureClass.cpp:396-420 | removes exactly the first breakpoint at the place, and in a session posts a removal of its engine id |
| Breakpoints.DebuggerFeatureClass.OnDbgpInit | src/features/DebuggerFeatureClass.cpp:599-652 | every breakpoint gets the id of the command that sets it, in order, for the file as ToRemoteFilename names it, then the seven starting commands |
| Breakpoints.DebuggerFeatureClass.OnDbgpBreakpointSet | src/features/DebuggerFeatureClass.cpp:682-691 | exactly the breakpoints with that transaction id get the engine's id |
| BreakpointNames.AddedTells | src/features/DebuggerFeatureClass.cpp:432-450 | a breakpoint added in a session: the list gets it enabled, with the id of the one command, which names the file by the remote root and what is below it, with forward slashes, the line, and enabled; that name leads back to the file exactly under the condition of ComesBackExactlyWhen |
| BreakpointNames.AddedRefuses | src/features/DebuggerFeatureClass.cpp:425-431 | where there is one at that line of that file, nothing changes |
| BreakpointNames.RemovedTells | src/features/DebuggerFeatureClass.cpp:396-420 | the first one at that line of that file goes, and only in a session a command is posted, which removes it by the engine's id |
| BreakpointNames.StartTells | src/features/DebuggerFeatureClass.cpp:604-616 | at the start of a session the k-th command sets the k-th breakpoint, so named, at its line, enabled or not as in the list |
| BreakpointNames.StartAsks | src/features/DebuggerFeatureClass.cpp:625-651 | after them come the seven commands, step_into or run being the third |
| BreakpointNames.StartIsPosted | src/features/DebuggerFeatureClass.cpp:599-652 | in every run, handling a session's start posts just these, for the list as it is by then, behind what is still posted |
| Breakpoints.TransactionInjective | src/language_php/DbgpEventClass.cpp:1571-1573 | different counters give different transaction ids |
| Breakpoints.TransactionIdsDiffer | src/language_php/DbgpEventClass.cpp:1571-1573 | commands of two processes never have the same id, nor two of one process |
| Breakpoints.IndexAtFinds | src/features/DebuggerFeatureClass.cpp:400-404 | the search finds a breakpoint at the place if and only if there is one |
| BreakpointWire.SettledAgrees | src/features/DebuggerFeatureClass.cpp:682-691 | with no command and no answer under way both tables have the same entries under the engine's ids |
| BreakpointTheorems.TablesAgree | src/features/DebuggerFeatureClass.cpp:396-461 | in every run over any number of sessions, whenever all messages of one are consumed, list and engine's table agree if and only if nothing was set and nothing under way would set a breakpoint when the session's start was handled, and since then only answered breakpoints were removed |
| BreakpointNames.EngineHasTheList | src/features/DebuggerFeatureClass.cpp:445-448 | in every settled state of a careful session the engine has each breakpoint under its own name for the file, which leads back to the list's, at its line, enabled or not as in the list |
| BreakpointNames.AgreementNames | src/features/DebuggerFeatureClass.cpp:109-135 | the same in every state in which the tables agree |
| BreakpointTheorems.SessionIsKnown | src/features/DebuggerFeatureClass.cpp:599-620 | in every run the main thread takes a session to be active if and only if the last start or stop it has handled was a start; a connection that breaks tells it nothing |
| BreakpointTheorems.TablesAgreeWithRepeatedIds | src/features/DebuggerFeatureClass.cpp:682-691 | with ids unique within a session only, that condition still suffices when nothing left over removes a breakpoint |
| BreakpointTheorems.NoTwoAtOnePlace | src/features/DebuggerFeatureClass.cpp:422-461 | in every run the list has no two breakpoints at one place, and during a session no two with one transaction id |
| BreakpointTheorems.AnswerUpdatesAtMostOne | src/features/DebuggerFeatureClass.cpp:682-691 | in every state of every run an answer changes exactly the breakpoint with its transaction id, and none when there is none |
| BreakpointTheorems.AnswerFindsItsBreakpoint | src/features/DebuggerFeatureClass.cpp:682-691 | in a careful session there always is one, and the engine has it under the answer's id |
| BreakpointTheorems.OldAnswerMatchesNothing | src/features/DebuggerFeatureClass.cpp:599-616 | the answer to a command posted before the session's start was handled matches no breakpoint |
| BreakpointLimits.NextSessionAgreesExactlyWhen | src/actions/DebuggerServerActionClass.cpp:180-225 | after a session the next one's tables agree if and only if no command that sets a breakpoint was left over (after a script: still posted when the queue was emptied; after an error: anywhere) and none was posted until its start was handled |
| BreakpointLimits.RemovalIsSafeWhenAnswered | src/features/DebuggerFeatureClass.cpp:396-420 | in an otherwise careful session a removal keeps the tables together if and only if the engine has answered for the breakpoint |
| BreakpointLimits.EverySessionCanSettle | src/actions/DebuggerServerActionClass.cpp:188-214 | from every joined state of a session some run consumes all its messages |
| BreakpointExamples.HastyRemoval | src/features/DebuggerFeatureClass.cpp:406-413 | a complete run: a breakpoint added and removed at once stays in the engine |
| BreakpointExamples.LateCommand | src/features/DebuggerFeatureClass.cpp:720-724 | a complete run: a breakpoint added while a script runs, whose command is not added before the queue is emptied, is set twice in the next session |
| BreakpointExamples.EarlyStop | src/actions/DebuggerServerActionClass.cpp:358-361 | a complete run: a script stops before its start is handled, and the commands its start posts reach the session after it |
| PathMapping.ToRemoteFilename | src/features/DebuggerFeatureClass.cpp:109-135 | first mapping whose local root matches ignoring case, all occurrences replaced, then backslashes |
| PathMapping.ToLocalFilename | src/features/DebuggerFeatureClass.cpp:56-91 | scheme removed, first mapping whose remote root matches, all occurrences replaced |
| PathMapping.ToRemoteDecides | src/features/DebuggerFeatureClass.cpp:117-134 | the first mapping whose local root begins the name ignoring case decides, without prefix-freedom; with none the name stays |
| PathMapping.ToLocalDecides | src/features/DebuggerFeatureClass.cpp:70-87 | the first whose remote root begins it, ignoring case and the kind of slash, decides on the way back |
| PathMapping.ComesBackExactlyWhen | src/features/DebuggerFeatureClass.cpp:56-135 | for prefix-free roots and every file below a mapped local root, the name comes back up to slashes under a condition on the mapping and on occurrences of its roots in the remainder |
| PathMapping.RoundTrip | src/features/DebuggerFeatureClass.cpp:96-108 | for a remainder without the local root and a remote root with forward slashes, if and only if the remainder does not repeat the remote root |
| PathMapping.SameNameComesBack | src/features/DebuggerFeatureClass.cpp:96-108 | with forward slashes in the remainder the identical name comes back under exactly that condition |
| PathMapping.BackExactlyWhenClear | src/features/DebuggerFeatureClass.cpp:79-80 | replacing one root by another and back gives the same text if and only if the second root begins at no character kept from it |
| PathMapping.BackslashRootIsNotMappedBack | src/features/DebuggerFeatureClass.cpp:70-80 | a remote root with backslashes is matched but never replaced on the way back, whatever the remainder |
| PathMapping.OutsideIsKept | src/features/DebuggerFeatureClass.cpp:85-87 | a file in no mapped directory keeps its name both ways |
| PathMapping.OtherCaseIsNotMapped | src/features/DebuggerFeatureClass.cpp:117-132 | a file named in another case is matched but not mapped |
| PathMapping.OtherCaseComesBackExactlyWhen | src/features/DebuggerFeatureClass.cpp:56-135 | and it comes back as it is if and only if it is in no remote directory that is replaced by another |
| PathMapping.RepeatedRootIsNotUndone | src/features/DebuggerFeatureClass.cpp:79-80 | a concrete name that does not come back |
| PathMapping.MixedSlashesComeBack | src/features/DebuggerFeatureClass.cpp:79-80 | a concrete remainder with both kinds of slash that comes back though the remote root begins at a kept character |
| PathMapping.SlashedIsReplace | src/features/DebuggerFeatureClass.cpp:126-128 | replacing every backslash touches each character separately |
| DebuggerTypes.DecimalInjective | src/features/DebuggerFeatureClass.cpp:225-245 | different numbers are formatted differently |
| DebuggerTypes.DecimalReads | src/features/DebuggerFeatureClass.cpp:225-245 | a number is written in decimal digits, without a leading zero, and read back |
| Strings.SameIgnoringCase | src/features/DebuggerFeatureClass.cpp:114-120 | two characters are the same ignoring case if and only if they are the same or a capital letter and its small one |
| DebuggerConfig.ConfigDeleteGroups | src/features/DebuggerFeatureClass.cpp:141-155 | exactly the groups with that start are gone, in whatever order they are enumerated |
| DebuggerConfig.ConfigStore | src/features/DebuggerFeatureClass.cpp:208-246 | the whole new configuration: options written, old numbered groups gone, one group per breakpoint and mapping |
| DebuggerConfig.ConfigLoad | src/features/DebuggerFeatureClass.cpp:160-201 | appends one breakpoint per group and adds the mappings with both paths, for any order of enumeration |
| ConfigRoundTrip.StoredFormat | src/features/DebuggerFeatureClass.cpp:208-243 | the names of all groups and keys that storing writes, and the values under them |
| ConfigRoundTrip.ReadFormat | src/features/DebuggerFeatureClass.cpp:173-190 | a group with such keys is read as that breakpoint, whoever wrote it, and one without keys as a new one |
| ConfigRoundTrip.MissingOptionsStay | src/features/DebuggerFeatureClass.cpp:163-167 | an option that is not in the configuration keeps its value |
| ConfigRoundTrip.NoLeftoverBreakpoint | src/features/DebuggerFeatureClass.cpp:218-220 | after storing, every breakpoint group is one of the numbered groups of this list |
| ConfigRoundTrip.OtherGroupsUntouched | src/features/DebuggerFeatureClass.cpp:208-220 | groups of other kinds are unchanged, and the debugger's own but for the five options |
| ConfigRoundTrip.OptionsComeBack | src/features/DebuggerFeatureClass.cpp:160-246 | storing over any configuration and loading in any order gives the options, and the mappings with both paths besides those already there |
| ConfigRoundTrip.BreakpointsComeBack | src/features/DebuggerFeatureClass.cpp:160-246 | and the same multiset of persisted breakpoints |
| ConfigRoundTrip.PersistedAre | src/features/DebuggerFeatureClass.cpp:173-190 | what comes back of a breakpoint is what the configuration keeps, and nothing of a session |
| ConfigRoundTrip.MappingsComeBack | src/features/DebuggerFeatureClass.cpp:195-197 | into an empty list all mappings come back if and only if no path is empty |
| ConfigRoundTrip.Restart | src/features/DebuggerFeatureClass.cpp:336-343 | the two methods one after the other |
| TextLines.ParseRenders | src/code_control/CodeControlClass.cpp:1128-1131 | dividing a text into lines loses nothing and is a proper division |
| TextLines.RenderParses | src/code_control/CodeControlClass.cpp:1128-1131 | and it is the only proper division |
| CodeControl.CodeControlClass.TrimLine | src/code_control/CodeControlClass.cpp:1130-1142 | exactly the spaces and tabs before the end position go, back to the start position |
| CodeControl.CodeControlClass.TrimTrailingSpaces | src/code_control/CodeControlClass.cpp:1127-1144 | the loop over shifting positions computes the specified sweep over the original lines, skipped lines and lines beyond the end included |
| TrimResult.TrimmedExactly | src/code_control/CodeControlClass.cpp:1134-1142 | for every text, only spaces and tabs that trail a line are taken away; none is left directly before CR, LF or the end if and only if no line was missed, and then the result is the only such text |
| StripSpaces.StrippedRenders | src/code_control/CodeControlClass.h:754-757 | stripping line by line is stripping character by character |
| StripSpaces.StripsExactlyWhenNoneMissed | src/code_control/CodeControlClass.cpp:1127-1144 | the result is the stripped text if and only if no skipped line ends with blanks; never less than the stripped text is left |
| StripSpaces.LinesAndEndsStay | src/code_control/CodeControlClass.cpp:1127-1144 | when no line disappears the text has the same lines with the same ends, each stripped |
| StripSpaces.LineCount | src/code_control/CodeControlClass.cpp:1128-1129 | the line count drops by one per line that disappears, and stays if and only if no blank line ended by LF follows a lone CR |
| StripSpaces.TrimTwice | src/code_control/CodeControlClass.cpp:1127-1144 | trimming is idempotent if and only if no line was missed |
| StripSpaces.KeepsBlanksOfSkippedLine | src/code_control/CodeControlClass.cpp:1127-1144 | a concrete text of which a line keeps its blanks |
| CodeControl.CodeControlClass.RemoveTrailingBlankLines | src/code_control/CodeControlClass.cpp:1146-1196 | for other than PHP files the backward scan with its flags cuts white space after a closing tag of a text of three characters or more, else changes nothing |
| TrimResult.CutExactly | src/code_control/CodeControlClass.cpp:1151-1196 | for every text, when "?>" with something before it is followed by nothing but space, tab, LF, VT, FF and CR, the result ends with it; otherwise the text stays |
| CodeControl.CodeControlClass.SaveAndTrackFile | src/code_control/CodeControlClass.cpp:508-515 | the passes run as switched on, trimming first |
| TrimResult.SavedExactly | src/code_control/CodeControlClass.cpp:508-515 | with both passes on, nothing follows a closing tag, and no space or tab trails a line if and only if the trim missed none of what the cut leaves |
| TrailingBlankLines.CutAndTrimCommute | src/code_control/CodeControlClass.cpp:508-515 | the order of the two passes makes no difference |
| TrailingBlankLines.SaveTwice | src/code_control/CodeControlClass.cpp:508-515 | saving is idempotent if and only if no line missed by the trim survives the cut |

## Left out

- StepsRunOneByOne: requires an orderly run; SequenceLog and SequenceLimits say in exactly which runs and from which states the order holds without that.
- OrderedExactlyWhenCalm: with an asynchronous front step and just one step behind it, whether another event can come first depends on the order of the pool's queue and its number of threads; that case has no condition on the state here, only OrderedUnlessStray.
- ComesBackExactlyWhen: for a remainder that mixes slashes and repeats a local root with forward slashes, the condition is that replacing and replacing back leaves the remainder as it was; the remote root can then begin at a kept character and the name still come back (`MixedSlashesComeBack`).
- ToLocalFilename: the library's normalisation of the resulting file name.
- TablesAgree: UpdateBreakpointLineNumber and Finish, after which several breakpoints can be at one place; a change of the mappings during a session; a second server started while the first is still there.
- AddBreakpointAtLine: storing the configuration and the event that refreshes the view.
- ParseAndPost: the posting of the individual response events; only the stop decision is modelled.
- TickReportsAll: the values a progress event carries.
- RunningThreadsClass.Queue: the start of the threads and the refusal after Shutdown are in the state machine `Pool`, not in the class.
- NothingCarriesOver: sessions that end by a read or write error or by a cancellation keep their queue, by the definition of the step.
- Calls of the pool from several client threads, failing thread creation, semaphore timeouts, immediate instead of deferred events.
- The DoCancel hook, what progress percentages and modes are, the cleanup object of a thread.
- The other four detector actions, directory traversal, command lines and what the detector scripts do.
- AppStart and the other fixed lists of sequence steps: they call AddStep and Run as Build does.
- Error responses, logging.
- The accept loop's close message and socket exceptions.
- The arguments of commands other than those that set or remove a breakpoint; escaping and base64 encoding; XML parsing.
- Saving itself: character sets, privileged files, detection of the file type. Multi-byte characters.
- User interface, tag caches, profilers and everything else of the repository.
