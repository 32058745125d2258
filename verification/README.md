# Verification of the rejoin agent's checker, license gate and Start helpers

The agent keeps a set of Roblox clones online. It looks at one package at a time,
decides whether it is Online, silent or Dead, and recovers Dead packages one after
the other. This project models that core and proves what it keeps over whole runs.

## What is modelled

**The checker pointer** (`agent/checker_pointer.py`). One lock-guarded object holds a
row per package (committed, displayed and last real presence, raw-evidence flags,
recovery stamps, a No Heartbeat counter), a first-in-first-out recovery queue, the
packages given up, the recovery in progress, the package in focus, a pause flag and
the header line. `PointerModel` defines its state as a value and one function per
locked method; `CheckerPointer` is the class, with the source's fields and loops, and
every method is proved to make exactly that step. The core of the state never depends
on the header (`PointerModel.StepIsTheCore`), so claims about runs are made about
`Core`, under any interleaving of the methods.

**The checking system** (`agent/checking_system.py`). Rounds are code over that class:
`tick_round_start`, `focus_package`, `handle_focus_dead` and the recursion of
`_process_next_recovery`. A round is the list of pointer steps it makes, given what the
supervisor answers, so theorems about runs are theorems about rounds. The recovery
handler (`_handle_state`) is an oracle: for each call any finite list of pointer steps,
its own and those of other threads, about any package of the session, possibly none, then
a normal return or an exception. The only step it may not contain is a new Start. Theorems
that need more say so: an own handler takes no steps about other packages, a settling one
leaves no recovery in progress when it returns normally. A handler need not begin a recovery,
and `StaleFailures` shows what happens when it does not. The launch trace that recovery reads
(`agent/launch_relaunch_trace.py`), a file that outlives a new Start, is one more field of the
state; any step list may record a launch in it.

**The license gate** (`agent/commands.py`). A bounded retry loop over a stored license,
with the server, the clock, the prompt and the terminal as oracles. `LicenseProofs` judges
it against a log of every answer the server ever gave, `LicenseReplies` against what each call
of the server really gave back, an exception included.

**Three loops with plain specifications**: the window-dump scan and the deadline-bounded
batch clear of `agent/android.py` (with the budget of `agent/cache_clear_phases.py`), and
the explicit-stack walk over nested code objects in `agent/build_info.py`.

## Files

| file | content |
|---|---|
| `Common.dfy` | options and substring search |
| `PointerModel.dfy` | the pointer's state and one step function per method |
| `QueueLemmas.dfy` | facts about the list helpers |
| `CheckerPointer.dfy` | the class, proved against `PointerModel` |
| `PointerInvariants.dfy` | what each step keeps: queue, pause, Dead, focus |
| `RecoveryQueue.dfy` | adoption of Dead packages, order and fairness of the queue |
| `PresenceRelay.dfy` | the single writer of what a row shows |
| `HeaderLine.dfy` | resuming, and the history of header texts |
| `LastWord.dfy` | what each field holds after a run, said of the steps |
| `RecoveryRecord.dfy` | what a row remembers of its recoveries, and what the header makes of it |
| `CheckingModel.dfy` | rounds as lists of steps |
| `CheckingSystem.dfy` | the class that drives the pointer, proved against `CheckingModel` |
| `CheckingProofs.dfy` | termination and pausing of recovery |
| `CheckingSession.dfy` | whole sessions of rounds and other calls: never stuck paused |
| `Resting.dfy` | when checking comes back to rest |
| `Attention.dfy` | no Dead package is forgotten, and each is served in its turn |
| `WindowVerdicts.dfy` | how a window ends and what the package shows afterwards |
| `HeartbeatStreaks.dfy` | how many No Heartbeat windows make a package Dead |
| `StaleFailures.dfy` | packages given up for a failure that was not theirs |
| `DriverSessions.dfy` | concrete sessions that end where a promise fails |
| `LicenseModel.dfy`, `LicenseGate.dfy`, `LicenseProofs.dfy` | the license gate |
| `LicenseReplies.dfy` | the gate judged by the raw replies of the server call |
| `PackageNames.dfy` | the package name check |
| `WindowScan.dfy`, `CacheClear.dfy`, `BuildInfo.dfy` | the three loops |

## Promises that do not hold as stated

Each is kept as the code has it, shown to fail on a concrete or exactly described case,
and proved under its exact condition.

- Checking is resumed only when no Dead package is left. True on a freshly computed orphan
  list (`HeaderLine.ResumeLeavesNobodyDead`). On a stale one it holds exactly when no
  recoverable Dead package is a relapse, one whose last recovery ended without an error
  (`HeaderLine.ResumeOverlooksOnlyRelapses`); `HeaderLine.RelapseIsOverlooked` is a reachable run
  of six calls after which checking resumes over an unattended Dead package.
- Raw evidence never changes what a row shows. One exception: the first row of the empty
  package name while nothing is in focus (`PresenceRelay.RawEvidenceIsInvisible`).
- A recovery is in progress exactly when a package is active. Broken only by beginning a
  recovery of the empty name (`PointerInvariants.BusyBreaksOnlyOnEmptyName`).
- Focus exclusivity. Broken only by `reset_for_new_start`, whose comment says it clears all stale
  state while it keeps the package rows (`PointerInvariants.FocusBreaksOnlyOnNewStart`).
- A package is given up only after its own recovery failed. The failure test
  (`agent/checking_system.py:284-294`) reads a stage that only later recoveries overwrite and the last
  launch anybody recorded. `StaleFailures.FailsExactly` says for every handler when the test fails, and
  `StaleFailures.GivenUpForOthersExactly` when that is not the package's own failure: the call wrote no
  stage and a failure was already on record; or the failed stage was written while another package, or
  none, was being recovered (`StaleFailures.WrittenForMeans`, with `StaleFailures.AnotherRecoveryIsBlamed`
  for a concrete call); or it recorded no launch and the last recorded one, of whatever package, was of a
  package not installed; or another package's launch came in between and was. A handler that does nothing,
  as the supervisor's does when it is throttled (`agent/supervisor.py:4251-4255`), is blamed exactly for
  what it finds (`StaleFailures.IdleHandlerBlamedExactly`). `DriverSessions.FailureOfAnother` is a session of
  two rounds that ends so: one package fails, and the next one Dead is given up although its handler did
  nothing; `StaleFailures.StaleLaunchIsReachable` does it across a new Start. From a stale failure one call
  of `_process_next_recovery` gives up the waiting packages in order, up to the first whose handler writes a
  stage other than failed and launches without fault; that one ends the call and the rest keeps waiting
  (`StaleFailures.StaleFailureCascades`).
- One death is recovered once. The driver calls `handle_focus_dead` after every Dead window
  (`agent/supervisor.py:5370-5391`), when `focus_package` has already run the recovery. It declares the package
  Dead again in every case (`Attention.FocusDeadDeclares`), and from rest it calls the handler again exactly
  when the package was not given up or somebody else waits (`Attention.SecondCallExactly`). In
  `DriverSessions.OneDeathTwoCalls` a package that was just recovered (`DriverSessions.DeathIsRecovered`) is
  handed out a second time; when that call is throttled the package stays committed Dead and nobody looks
  after it until the next round (`DriverSessions.SecondCallForgets`).
- A recovery starts the No Heartbeat count again, as it does in `agent/focused_checker.py:260` and
  `agent/supervisor.py:4968`. `agent/checking_system.py` resets the count only on an early Online. A silent
  window declares Dead exactly when the streak, which recoveries do not end, reaches the limit
  (`HeartbeatStreaks.DeadExactlyAtTheLimit`, `HeartbeatStreaks.LimitDeadRepeats`); in
  `DriverSessions.DeadAgainAndAgain`, for every limit, each window from the limit-th on declares the package
  Dead although each recovery in between succeeds (`DriverSessions.ReviverRevives` is such a handler).
- A row reads Dead only while Dead is committed. It reads Dead exactly then or when a stale Dead shows: nothing
  is committed and the row is back at its last real state, Dead (`PresenceRelay.ReadsDeadExactly`). Over all
  runs, that comes about exactly by a step that takes the checking marker off the row: another package takes
  the focus, or, with no launch dispatched, its own focus ends or its own recovery ends as failed
  (`PresenceRelay.BecomesStaleExactly`). `DriverSessions.StaleDeadIsReachable` is a session that ends so: a
  recovered package's window breaks on an exception, and the next Start looks at another package first.
- The license key is erased only after a definitive rejection (`agent/commands.py:739`, and the
  comment at 600-602). The failure handler erases it after an outage too, exactly when a terminal is
  attached and the grace has run out (`LicenseProofs.OutageErasesKeyExactly`).
- The mass cache clear is capped at 5 seconds (`agent/cache_clear_phases.py:30-33`). The inner floor of
  5 seconds a shell makes that true exactly for at most one valid package
  (`CacheClear.FiveSecondsExactly`); 10 seconds hold for any number (`CacheClear.StartDoneWithinTen`).
- `is_package_window_visible` says it never raises. The name check stands before its `try`, and it raises
  exactly when the stripped name is not valid (`WindowScan.IsPackageWindowVisible`), as " roblox " is not
  (`PackageNames.PlainNameIsInvalid`); `PackageNames.PatternMeans` says of the characters which names pass.

Two more matters, which are no broken promises. Every round brings checking back to rest, neither paused nor
blocked by a recovery in progress, exactly when the last handler call of its recovery ended what it began
(`Resting.EventRestsExactly`, over sessions `Resting.SessionRestsExactly`). The supervisor's handler always does
on a normal return (`agent/supervisor.py:4288-4356`), so its sessions are always at rest
(`Resting.SettlingSessionRests`); a handler that did not would block every later round
(`DriverSessions.LeakIsReachable`, `Resting.LeakedRecoveryBlocks`).

As to the resume label: `resume_checking_if_safe` takes it off the header line in every
case, which is what it promises. The pointer text of the state keeps it exactly when nothing is in focus
(`HeaderLine.ResumeIsExact`, reached in `HeaderLine.ResumeTextIsReachable`); the Start table shows that
text only while it is a timer (`agent/commands.py:5197-5225`).

## Model

| member | source | states |
|---|---|---|
| PointerModel.RunIsTheCore | agent/checker_pointer.py:144-260 | over any run of calls the rows, queue, marks, focus and pause evolve without ever consulting the header line |
| CheckerPointer.CheckerPointer.constructor | agent/checker_pointer.py:144-260 | a new pointer knows no package, waits for nothing and shows nothing |
| CheckerPointer.CheckerPointer.Save | agent/checker_pointer.py:1225-1249 | every persist point offers the pointer text to the history, which grows by a new non-blank text and keeps 16 |
| CheckerPointer.CheckerPointer.RecomputeOrphans | agent/checker_pointer.py:697-709 | the orphan list becomes exactly the recoverable Dead packages neither queued nor in recovery, in row order |
| CheckerPointer.CheckerPointer.CountUnrecovered | agent/checker_pointer.py:881-891 | the loop counts the recoverable Dead rows, skipping those that recovered once without error |
| CheckerPointer.CheckerPointer.RefreshHeader | agent/checker_pointer.py:893-959 | the header follows recovery, pending, dead, pause, focus, in that priority |
| CheckerPointer.CheckerPointer.PassFocus | agent/checker_pointer.py:541-543 | the loop unmarks every row but the new focus and changes no other row |
| CheckerPointer.CheckerPointer.DropFromQueue | agent/checker_pointer.py:679 | the rebuilt queue lacks the package and is otherwise unchanged |
| CheckerPointer.CheckerPointer.QueueUnattended | agent/checker_pointer.py:684-693 | appending while scanning queues each unattended Dead package once, behind the queue as it was |
| CheckerPointer.CheckerPointer.StampRequests | agent/checker_pointer.py:1047-1063 | one pass stamps exactly the recoverable Dead rows without a request and queues those nobody attends |
| CheckerPointer.CheckerPointer.Reset | agent/checker_pointer.py:270-283 | ends focus and recovery, clears mode and text, leaves queue, pause and rows alone |
| CheckerPointer.CheckerPointer.ResetForNewStart | agent/checker_pointer.py:285-360 | forgets queue, marks, focus, pause, header and history, and keeps the rows |
| CheckerPointer.CheckerPointer.ForgetRecovery | agent/checker_pointer.py:298-360 | the recovery fields a new Start clears, and nothing else |
| CheckerPointer.CheckerPointer.UpdateCheckingTimer | agent/checker_pointer.py:553-567 | the shown seconds lie between zero and the deadline, which counts as at least one |
| CheckerPointer.CheckerPointer.Prepare | agent/checker_pointer.py:388-422 | every named package has a row afterwards, existing rows are untouched |
| CheckerPointer.CheckerPointer.BeginCheckingPackage | agent/checker_pointer.py:518-547 | the package takes the focus, every other row loses its checking marker, the timer starts at zero |
| CheckerPointer.CheckerPointer.TouchRow | agent/checker_pointer.py:1182-1201 | evidence sources and process ids create a missing row and change nothing else modelled |
| CheckerPointer.CheckerPointer.CacheOnlineEvidence | agent/checker_pointer.py:1141-1146 | raw Online evidence sets its flag in one row, uncommitted |
| CheckerPointer.CheckerPointer.CacheDeadEvidence | agent/checker_pointer.py:1148-1153 | raw Dead evidence sets its flag in one row, uncommitted |
| CheckerPointer.CheckerPointer.MarkLaunchRequested | agent/checker_pointer.py:989-998 | shows Launching for a named package, keeping what is committed |
| CheckerPointer.CheckerPointer.MarkLaunchCommandSent | agent/checker_pointer.py:1000-1019 | records the dispatch and still shows Launching |
| CheckerPointer.CheckerPointer.MarkLaunchDispatched | agent/checker_pointer.py:1021-1042 | waits for the checker and forgets the committed state, except Dead, which stays |
| CheckerPointer.CheckerPointer.CommitPresenceState | agent/checker_pointer.py:1100-1122 | commits the state to all three presence fields of one row and consumes its raw evidence |
| CheckerPointer.CheckerPointer.FinishCheckingDecision | agent/checker_pointer.py:569-589 | commits exactly as `commit_presence_state` does |
| CheckerPointer.CheckerPointer.EndCheckingFocus | agent/checker_pointer.py:591-606 | gives up the focus if it was held and settles the row's display |
| CheckerPointer.CheckerPointer.UnfocusRow | agent/checker_pointer.py:597-604 | a checking marker gives way to the committed state, else to Waiting after a launch, else to the last real state |
| CheckerPointer.CheckerPointer.IncrementNoHeartbeat | agent/checker_pointer.py:1086-1090 | counts one for the package and answers the new count |
| CheckerPointer.CheckerPointer.ResetNoHeartbeat | agent/checker_pointer.py:1092-1094 | resets the count of one package |
| CheckerPointer.CheckerPointer.EnqueueRecovery | agent/checker_pointer.py:624-645 | stamps and queues a package unless it is unnamed, given up, waiting or in recovery |
| CheckerPointer.CheckerPointer.MarkDeadDetected | agent/checker_pointer.py:608-622 | commits Dead, then queues the package, then shows it |
| CheckerPointer.CheckerPointer.DequeueRecovery | agent/checker_pointer.py:655-662 | hands out the first waiting package not given up, dropping those before it |
| CheckerPointer.CheckerPointer.MarkUnrecoverable | agent/checker_pointer.py:673-681 | gives the package up and takes it out of the queue |
| CheckerPointer.CheckerPointer.SyncDeadPackages | agent/checker_pointer.py:683-695 | queues every unattended Dead package and brings the orphan list up to date |
| CheckerPointer.CheckerPointer.SelfHealMissingRequests | agent/checker_pointer.py:1044-1067 | answers the healed packages; header and persist point only when there are any |
| CheckerPointer.CheckerPointer.BeginRecovery | agent/checker_pointer.py:750-768 | the package becomes the active recovery at stage start, and its request is stamped |
| CheckerPointer.CheckerPointer.SetRecoveryStage | agent/checker_pointer.py:770-792 | stores any stage; only mapped stages change mode and text |
| CheckerPointer.CheckerPointer.ReleaseRecovery | agent/checker_pointer.py:848-871 | frees the active recovery and settles its row; success clears Dead and leaves the queue |
| CheckerPointer.CheckerPointer.RecordLaunch | agent/launch_relaunch_trace.py:41-79 | the trace keeps the launch recorded last, of whatever named package |
| CheckerPointer.CheckerPointer.EndRecovery | agent/checker_pointer.py:846-879 | the whole of the above in the source's order, the orphan list last |
| CheckerPointer.CheckerPointer.ResumeCheckingIfSafe | agent/checker_pointer.py:961-984 | unpauses always; answers whether nothing is running, waiting, orphaned or unrecovered |
| PointerInvariants.StepKeepsWellFormed | agent/checker_pointer.py:608-709 | from any state, every method keeps the queue free of duplicates, disjoint from the packages given up and within the known packages |
| PointerInvariants.RunKeepsWellFormed | agent/checker_pointer.py:608-709 | the same over any run of methods |
| PointerInvariants.BusyBreaksOnlyOnEmptyName | agent/checker_pointer.py:750-768 | a recovery is in progress iff a package is active, kept by every step but a recovery of the empty name |
| PointerInvariants.PauseStrandsExactly | agent/checker_pointer.py:846-879 | the exact steps after which checking is paused with no recovery running |
| PointerInvariants.StepOnRow | agent/checker_pointer.py:518-622 | no step drops a row, and each row changes only as the step's own rule says |
| PointerInvariants.DeadIsSticky | agent/checker_pointer.py:1021-1042 | a Dead package leaves Dead exactly by a relay commit for it or the end of its own successful recovery |
| PointerInvariants.DeadStaysOverRun | agent/checker_pointer.py:1160-1168 | along any run without such a step it stays Dead and is shown Dead |
| PointerInvariants.FocusBreaksOnlyOnNewStart | agent/checker_pointer.py:285-360 | a checking marker implies focus; broken exactly by a new Start over a marked row in focus |
| PointerInvariants.FocusRestored | agent/checker_pointer.py:518-547 | taking the focus restores it from any state and changes no committed presence |
| PointerInvariants.OneReadsChecking | agent/checker_pointer.py:1160-1180 | at most one package reads as Checking |
| PointerInvariants.FocusExclusiveOverSession | agent/checker_pointer.py:518-606 | exclusivity holds throughout a session that starts from fresh rows |
| RecoveryQueue.SyncAdoptsEveryDead | agent/checker_pointer.py:683-695 | from any rows, every Dead package is queued, in recovery or given up; no orphan is left; a second sync changes nothing |
| RecoveryQueue.SyncAdoptsInOrder | agent/checker_pointer.py:683-695 | the adopted packages line up behind the queue once each, in the order of the rows |
| RecoveryQueue.HealsInOrder | agent/checker_pointer.py:1044-1067 | from any rows self-heal stamps exactly the Dead packages without a request, answers them in row order, and queues those neither waiting nor active |
| RecoveryQueue.HealAfterSyncOnlyStamps | agent/checking_system.py:41-42 | self-heal after sync leaves the queue alone and stamps every recoverable Dead package |
| RecoveryQueue.StepOnQueue | agent/checker_pointer.py:624-695 | how each step changes the queue: append at the end, drop the front, remove one, or nothing |
| RecoveryQueue.DequeueTakesFirst | agent/checker_pointer.py:655-662 | under the queue invariant the loop hands out the very first entry and skips nobody |
| RecoveryQueue.LeavesExactlyWhenTaken | agent/checker_pointer.py:655-681 | a waiting package leaves the queue exactly when dequeued, given up, recovered, or forgotten by a new Start |
| RecoveryQueue.NoOvertaking | agent/checker_pointer.py:624-695 | no step lets one waiting package overtake another, newcomers line up behind, a dequeue moves everyone up |
| RecoveryQueue.WaitingMovesForward | agent/checker_pointer.py:655-662 | over any run the place of a waiting package drops by at least the number of dequeues |
| RecoveryQueue.ServedInTurn | agent/checker_pointer.py:624-695 | a package at place k leaves by the (k+1)-th dequeue at the latest |
| RecoveryQueue.ActiveQueuedOnlyByBegin | agent/checker_pointer.py:750-768 | the active package is never queued; broken exactly by beginning a recovery of a waiting package |
| RecoveryQueue.DequeuedThenBegun | agent/checking_system.py:248-271 | dequeue then begin, the order of the checking system, keeps it |
| RecoveryQueue.SessionInvariant | agent/checker_pointer.py:608-768 | all of this in every state reachable from a fresh pointer, under any interleaving |
| LastWord.RunLeaves | agent/checker_pointer.py:518-984 | after any run the error on record, the pause, the active package and the focus are the last word of the run on each |
| LastWord.FocusFieldsAgree | agent/checker_pointer.py:270-606 | the two focus fields agree after any run, except that a reset clears only one |
| LastWord.OrphansExactly | agent/checker_pointer.py:697-709 | which steps bring the orphan list up to date, and that it then holds exactly the unattended Dead packages in row order |
| LastWord.CommittedIs | agent/checker_pointer.py:853-1122 | after any run the committed presence is the last commit, wiped by a successful recovery or by a dispatch while not Dead |
| LastWord.RequestedExactly | agent/checker_pointer.py:624-768 | a row has a recovery request on record iff some step of the run asked for one |
| LastWord.EmptyNameIgnored | agent/checker_pointer.py:608-1042 | the methods that ignore the empty name do nothing at all for it |
| RecoveryRecord.CleanRecordExactly | agent/checker_pointer.py:853-866 | after any run a row reads as cleanly recovered iff some recovery of its package ended and every failure with an error was followed by a success |
| RecoveryRecord.RecordIs | agent/checker_pointer.py:853-866 | after any run the row's error is the one standing after the endings of that package's recoveries |
| RecoveryRecord.StandingExactly | agent/checker_pointer.py:859-862 | that is the error of a failure after which nothing succeeded and nothing failed with another |
| RecoveryRecord.FailedEndingBlocks | agent/checker_pointer.py:846-984 | after a failed ending with an error, of a Dead package not given up, the resume guard is false and the header says dead or recovery pending |
| RecoveryRecord.SuccessfulEndingHandsOver | agent/checker_pointer.py:846-879 | after a success nothing is committed for the package, it reads Waiting, and it is out of queue, focus and recovery |
| RecoveryRecord.RecoveryShowsNoPause | agent/checking_system.py:242-309 | after a recovery that called the handler, however often it failed, the header does not say that checking is paused |
| PresenceRelay.RunStaysHonest | agent/checker_pointer.py:1100-1122 | over any run a row's last real state is the one most recently committed for it, and what it shows is never another |
| PresenceRelay.SingleWriter | agent/checker_pointer.py:1160-1180 | a final state on screen is the one most recently committed for that package, and a committed one is on screen |
| PresenceRelay.ReadsDeadExactly | agent/checker_pointer.py:1160-1180 | after any run a row reads Dead exactly when Dead is committed or stale |
| PresenceRelay.ReadsCheckingExactly | agent/checker_pointer.py:1160-1180 | over a session from fresh rows a row reads Checking exactly while its package is in focus with nothing committed, and never an internal marker |
| PresenceRelay.RowReadsTransient | agent/checker_pointer.py:1160-1180 | the internal display markers read as Launching or Waiting, and nothing else does |
| PresenceRelay.BecomesStaleExactly | agent/checker_pointer.py:541-604 | after any run, the exact steps that make a row read Dead with nothing committed: those that unmark it and put its last state back |
| PresenceRelay.RawEvidenceIsInvisible | agent/checker_pointer.py:1141-1153 | raw evidence changes nobody's displayed state, with the exact exception |
| PresenceRelay.PendingExactly | agent/checker_pointer.py:1100-1158 | after any run raw evidence is pending iff the last word on it was a report, with no commit since |
| PresenceRelay.LaunchShows | agent/checker_pointer.py:989-1042 | what each launch step makes a package read: Dead stays, a dispatch makes any other package wait, until then a committed state stays |
| PresenceRelay.LaunchedExactly | agent/checker_pointer.py:1000-1042 | after any run a launch is on record iff one was sent or dispatched |
| HeaderLine.HeaderSays | agent/checker_pointer.py:893-959 | the source, mode, caption and text of the header, said of recovery, queue, orphans, unrecovered packages, pause and focus |
| HeaderLine.CheckShows | agent/checker_pointer.py:518-547 | a check begins in checking mode with its timer at zero, whatever the header said before |
| HeaderLine.DeathShows | agent/checker_pointer.py:608-768 | the start of a recovery shows itself in Dead mode; a package found Dead puts the header into that mode unless nothing is due and checking is paused |
| HeaderLine.StageShows | agent/checker_pointer.py:770-792 | the text and mode of each recovery stage; the others change neither |
| HeaderLine.WritesShow | agent/checker_pointer.py:362-567 | what the direct writes of mode and text, the start of monitoring and the timer ticks leave of the header, and nothing else |
| HeaderLine.PreparingShows | agent/checker_pointer.py:388-422 | preparing shows itself in any case, getting ready only when no recovery is due, no package Dead and checking not paused |
| HeaderLine.TimerShows | agent/checker_pointer.py:553-567 | the shown timer is the whole seconds passed, never more than the deadline |
| HeaderLine.ResumeIsExact | agent/checker_pointer.py:961-984 | True with checking mode and header, or False with a recovery or dead header, never the paused header |
| HeaderLine.ResumeTextIsReachable | agent/checker_pointer.py:961-984 | a reachable state whose pointer text keeps the resume label while the header line drops it |
| HeaderLine.ResumeLeavesNobodyDead | agent/checker_pointer.py:697-709 | on a fresh orphan list, True implies every Dead package was given up |
| HeaderLine.ResumeOverlooksOnlyRelapses | agent/checker_pointer.py:881-891 | on any orphan list, that holds exactly when no recoverable Dead package is a relapse |
| HeaderLine.RelapseIsOverlooked | agent/checker_pointer.py:874-878 | a reachable run of six calls after which checking resumes over an unattended Dead package |
| HeaderLine.RecordKeepsHistory | agent/checker_pointer.py:1225-1238 | recording one text keeps the history equal to the last 16 of the deduplicated non-blank texts |
| HeaderLine.RecordsAtTheEnd | agent/checker_pointer.py:1225-1249 | which methods reach no persist point, and that every other remembers the pointer text it leaves |
| HeaderLine.HistoryOverRun | agent/checker_pointer.py:1225-1249 | after any run of any calls the history is exactly that, counted since the last new start |
| CheckingModel.AttemptNarrows | agent/checking_system.py:273-303 | however the handler behaves, a failed attempt gives up a package not given up before, so fewer are left to try even though sync refills the queue |
| CheckingModel.WatchDecides | agent/checking_system.py:103-137 | a window is decided by its first look that shows Dead, Online or the deadline; Dead wins over Online in one look |
| CheckingSystem.CheckingSystem.ProcessNextRecovery | agent/checking_system.py:242-309 | the recursion terminates and makes exactly the steps and handler calls of its specification |
| CheckingSystem.CheckingSystem.HandOut | agent/checking_system.py:248-255 | a package handed out is never one that was given up, so the branch for that case is dead |
| CheckingSystem.CheckingSystem.RunHandler | agent/checking_system.py:257-272 | checking is paused before the handler runs, and its steps follow |
| CheckingSystem.CheckingSystem.ResumeOrRefresh | agent/checking_system.py:305-309 | after a success the pause ends, and the header is derived again when resuming is not safe |
| CheckingSystem.CheckingSystem.WatchPackage | agent/checking_system.py:103-137 | the polling loop stops at the first Dead, else the first Online, else at the deadline, ticking once per second shown |
| CheckingSystem.CheckingSystem.AfterDead | agent/checking_system.py:110-115 | a window that saw the package Dead declares it, pauses checking, and recovers at once |
| CheckingSystem.CheckingSystem.AfterTimeout | agent/checking_system.py:139-163 | a full window commits Online or No Heartbeat, counts only the latter, and declares Dead at the limit |
| CheckingSystem.CheckingSystem.FocusPackage | agent/checking_system.py:54-163 | all the exits of a focus window, each with exactly its steps |
| WindowVerdicts.WindowEndsBy | agent/checking_system.py:54-163 | how a window ends, said of the first look that shows anything, the late evidence and the count of silent windows |
| WindowVerdicts.WindowShows | agent/checking_system.py:117-163 | after an Online ending the package shows Online, after a silent one No Heartbeat, out of focus in all of them; a broken window keeps the focus |
| WindowVerdicts.WindowDeclares | agent/checking_system.py:77-160 | a window that ends Dead recovers from a state in which its package is committed and shown Dead, waits unless given up, and checking is paused |
| WindowVerdicts.TicksOncePerSecond | agent/checking_system.py:129-133 | the timer never shows the same second twice in a row |
| WindowVerdicts.EverySecondIsShown | agent/checking_system.py:129-133 | every look that does not decide the window has its second shown |
| CheckingSystem.CheckingSystem.HandleFocusDead | agent/checking_system.py:165-186 | declares and queues only what is not declared or queued yet, then recovers |
| CheckingSystem.CheckingSystem.TickRoundStart | agent/checking_system.py:33-47 | adopts and stamps every Dead package, then recovers one unless something is under way, and answers whether something is |
| CheckingProofs.HandlerRunsOncePerPackage | agent/checking_system.py:242-309 | one call runs the handler at most once per package, only on packages not given up, and gives up every one but perhaps the last |
| CheckingProofs.RecoveryEndsUnpaused | agent/checking_system.py:242-309 | whatever the handler did, recovery hands checking back unpaused |
| CheckingProofs.GiveUpFrees | agent/checking_system.py:298-301 | giving a package up ends its recovery and the pause |
| CheckingProofs.TickKeepsPauseOk | agent/checking_system.py:33-47 | a round start keeps: paused implies a recovery in progress |
| CheckingProofs.FocusKeepsPauseOk | agent/checking_system.py:54-163 | so does every exit of a focus window |
| CheckingProofs.FocusDeadEndsPauseOk | agent/checking_system.py:165-186 | `handle_focus_dead` establishes it from any state |
| CheckingSession.SessionIsARun | agent/checking_system.py:33-309 | any mixture of rounds and calls is a run of pointer steps, so the theorems about runs hold of it |
| CheckingSession.NeverStuckPaused | agent/checking_system.py:33-186 | at every boundary of every session, paused implies a recovery in progress, unless a call from elsewhere strands it |
| Resting.RecoveryRestsExactly | agent/checking_system.py:242-309 | a recovery leaves nothing running and nothing paused iff the last call of the handler ended every recovery begun meanwhile |
| Resting.FocusRestsExactly | agent/checking_system.py:54-163 | a window comes back to rest iff it declares nobody Dead or its recovery settled so |
| Resting.FocusDeadRestsExactly | agent/checking_system.py:165-186 | the same for `handle_focus_dead` |
| Resting.TickRestsExactly | agent/checking_system.py:33-47 | the same for a round start |
| Resting.IdleBreaksExactly | agent/checker_pointer.py:750-768 | a pointer at rest stays at rest exactly through every step but beginning a recovery and pausing |
| Resting.SessionRestsExactly | agent/checking_system.py:33-186 | checking is at rest at every boundary of a session iff every event of it settled |
| Resting.SettlingSessionRests | agent/supervisor.py:4288-4356 | with handlers that end what they begin whenever they return normally, a session is always at rest |
| Resting.LeakedRecoveryBlocks | agent/checking_system.py:66-67 | a recovery left in progress survives every later round, and no round dequeues or begins anything |
| Attention.RecoveryForgetsNobody | agent/checking_system.py:242-309 | with own handlers, if every Dead package was attended, afterwards only the one last handled can be unattended |
| Attention.TickForgetsNobody | agent/checking_system.py:33-47 | the same for a round start from any state |
| Attention.FrontIsServed | agent/checking_system.py:248-272 | recovery calls the handler first for the front of the queue |
| Attention.TickRecoversExactly | agent/checking_system.py:33-47 | a round start recovers iff checking is at rest and somebody waits or is Dead and unattended, first whoever has waited longest |
| Attention.DeadWindowRecovers | agent/checking_system.py:54-163 | a window runs a recovery exactly when it declared its package Dead |
| Attention.FocusDeadDeclares | agent/checking_system.py:174-183 | before it recovers, `handle_focus_dead` has the package committed Dead and, unless given up, waiting, whatever it was before |
| Attention.SecondCallExactly | agent/checking_system.py:165-186 | from a state with nothing in progress it calls the handler exactly when the package was not given up or somebody else waits |
| Attention.ServedByRounds | agent/checking_system.py:33-47 | a package at place k of the queue is taken out before k + 1 round starts have found checking idle, whatever else happens |
| HeartbeatStreaks.CounterIsTheTally | agent/checker_pointer.py:1086-1098 | over any run the counter is the number of counts since the last reset; a new Start does not reset it |
| HeartbeatStreaks.CounterIsTheStreak | agent/checking_system.py:116-153 | over any session it is the number of No Heartbeat windows since the last early-Online one, corrected by what handlers and other callers count or reset themselves; late Online does not reset it |
| HeartbeatStreaks.DeadExactlyAtTheLimit | agent/checking_system.py:152-161 | a silent window declares Dead exactly when it completes a streak of the limit |
| HeartbeatStreaks.LimitDeadRepeats | agent/checking_system.py:152-161 | after a Dead at the limit the next silent window of the package declares Dead again, unless the count was reset in between |
| StaleFailures.FailsExactly | agent/checking_system.py:273-294 | for every handler and state: failed iff it raised, the last stage written is a failure, or the last launch recorded is of a package not installed |
| StaleFailures.GivenUpBecause | agent/checking_system.py:273-303 | the error on record after a package was given up: the exception's, else the last launch's, else the one before, else a default |
| StaleFailures.GivenUpForOthersExactly | agent/checking_system.py:284-303 | a package is given up without a failure of its own exactly when an older failure, or one of another package's recovery or launch, is read as its own |
| StaleFailures.WrittenForMeans | agent/checker_pointer.py:750-851 | a failed stage belongs to the package that was active at the last step that wrote a stage |
| StaleFailures.AnotherRecoveryIsBlamed | agent/checking_system.py:273-294 | a call during which its own recovery succeeds and another package's fails gives its package up |
| StaleFailures.OwnStepsBlameOwn | agent/supervisor.py:4282-4356 | a handler that takes only its own steps cannot be blamed for another package's recovery or launch |
| StaleFailures.IdleHandlerBlamedExactly | agent/checking_system.py:284-294 | a handler that did nothing is blamed exactly for a stale stage or a stale launch |
| StaleFailures.StaleLaunchIsReachable | agent/launch_relaunch_trace.py:41-79 | three calls across a new Start reach an idle pointer with a package waiting and the launch of a missing one on record |
| StaleFailures.StaleFailureCascades | agent/checking_system.py:292-309 | from a stale failure one call gives up the queue in order up to the first package whose handler writes another stage and launches without fault; there it stops and the rest keeps waiting |
| StaleFailures.NobodyRecoversNobodyLeft | agent/checking_system.py:292-303 | when no handler writes another stage, that call gives up every Dead package |
| DriverSessions.LeakIsReachable | agent/checking_system.py:273-309 | one round whose handler begins a recovery and does not end it leaves it in progress |
| DriverSessions.DeathIsRecovered | agent/checking_system.py:77-97 | a window finds a package Dead and one handler call recovers it |
| DriverSessions.OneDeathTwoCalls | agent/supervisor.py:5370-5391 | `handle_focus_dead` after it calls the handler for the recovered package once more |
| DriverSessions.SecondCallForgets | agent/supervisor.py:5370-5391 | when that second call is throttled the package ends committed Dead and unattended |
| DriverSessions.FailureOfAnother | agent/checking_system.py:292-303 | a session of two rounds: one package's handler raises, and the next Dead package is given up though its handler did nothing |
| DriverSessions.StaleDeadIsReachable | agent/checking_system.py:99-137 | a session after which a recovered package reads Dead: its window breaks on an exception, and after a new Start another package takes the focus |
| DriverSessions.DeadAgainAndAgain | agent/checking_system.py:152-161 | for every limit, each silent window from the limit-th on declares Dead although each recovery in between succeeds |
| LicenseGate.LicenseStore.Persist | agent/commands.py:232-238 | stores the answer with the time in whole seconds |
| LicenseGate.LicenseStore.Clear | agent/commands.py:738-759 | erases key, status and time |
| LicenseGate.LicenseStore.Judge | agent/commands.py:1372-1430 | what one answer does to the stored license and to the loop |
| LicenseGate.LicenseStore.EnsureRemoteLicense | agent/commands.py:1304-1431 | the loop with its prompt, bind and check paths ends as its specification says |
| LicenseGate.LicenseStore.CheckRemoteLicense | agent/commands.py:1189-1227 | one check: active is stored and opens, outages change nothing, a demanded rebind erases, an exception passes through |
| LicenseGate.LicenseStore.RunStartGate | agent/commands.py:6174-6251 | bypass, developer mode, a disabled license and a local key never ask the server |
| LicenseProofs.GateIsExact | agent/commands.py:1304-1431 | a run opens iff one of its own logged answers is active, or is an outage about a stored key that the latest definite answer confirmed active at most 30 days ago; at most one question per attempt; what it stores stays right |
| LicenseProofs.CheckIsExact | agent/commands.py:1189-1227 | a check without a prompt opens iff the server says active, never by grace; it lets an exception through exactly when the server call raises, and then changes nothing |
| LicenseProofs.StoreIsRight | agent/commands.py:720-735 | after any history of uses the stored key, status and time are those of the latest definite answer, or nothing when it was erased since |
| LicenseProofs.MenuOverHistory | agent/commands.py:1304-1431 | after any history the next run of the menu's gate is exact in that sense and asks at most ten times |
| LicenseProofs.OutagesExtendNothing | agent/commands.py:605-610 | any number of outages in between neither opens nor shuts the grace |
| LicenseProofs.OutageErasesKeyExactly | agent/commands.py:812-826 | an outage costs the stored key exactly at a terminal with the grace run out |
| LicenseReplies.GateByReplies | agent/commands.py:1371-1412 | a run opens iff some turn got the reply active, or no verdict (an exception included) about a stored key in its grace |
| LicenseReplies.TurnsByReply | agent/commands.py:1304-1431 | the turns of a run: each starts from what the one before left, and is followed by another iff the user goes on and attempts are left |
| LicenseReplies.MenuByReplies | agent/commands.py:1304-1431 | after any history the menu's gate opens iff one of its turns does by its raw reply, and it takes ten turns exactly when the user keeps going on |
| LicenseReplies.TurnByReply | agent/commands.py:1338-1430 | one turn, said of the raw reply: when it opens, when it is followed by another, and what it leaves stored |
| LicenseReplies.TurnLogs | agent/commands.py:1371-1391 | what a turn logs is of the key it asked about, and active only if the reply said so |
| LicenseReplies.ActiveOnlyIfSaid | agent/commands.py:1382-1391 | after a run the license is the one before, none, or of a key the server said was active during the run |
| LicenseReplies.ActiveLoggedOnlyIfSaid | agent/commands.py:1371-1391 | nor does a run log any key as active of which the server did not say so |
| LicenseReplies.CheckByReply | agent/commands.py:1189-1227 | a check without a prompt, said of the raw reply: when it opens and what it leaves stored |
| LicenseReplies.StartByReply | agent/commands.py:6174-6251 | Start opens by a bypass, a valid local key or an active reply, and only the last changes anything |
| WindowScan.JoinFinds | agent/android.py:1837-1840 | searching a marker in the joined block finds it iff some line has it |
| WindowScan.BlockDrawing | agent/android.py:1837-1845 | a block is drawing iff it has a marker line or a Surface line naming the package |
| WindowScan.AnyWindowVisible | agent/android.py:1847-1861 | the one-pass scan finds a window iff some maximal header-to-header block mentions the package and is drawing |
| PackageNames.PatternMeans | agent/constants.py:85 | the name pattern, said of the characters: a dot, none at the end, a letter first and after every dot, word characters elsewhere |
| PackageNames.StripMeans | agent/config.py:204-216 | what is stripped is blank, and what is left begins and ends with a character that is not |
| PackageNames.PlainNameIsInvalid | agent/config.py:204-216 | a name the check refuses |
| WindowScan.IsPackageWindowVisible | agent/android.py:1793-1861 | raises iff the stripped name is not valid; else True iff the dump succeeded and some focus line or some such block shows the package, and never when no line names it |
| WindowScan.VisibleMeans | agent/android.py:1823-1861 | visible, line by line: a line with the package and a focus marker, or two lines of one window, one naming the package and one saying it is drawn |
| WindowScan.WindowsAreIndependent | agent/android.py:1829-1861 | appending a window to a dump adds visibility on its own or not at all |
| CacheClear.SplitNames | agent/android.py:2538-2545 | valid names in order, rejected ones labelled Failed |
| CacheClear.AttemptAll | agent/android.py:2557-2582 | attempts run up to the first stop; every attempt keeps the label of its last try, the rest shares the label of the stop |
| CacheClear.ClearMassBatch | agent/android.py:2518-2582 | every name gets a label, for any mix of bad names, no root, exceptions, aborts and clock values; without repeats the attempts go in the caller's order |
| CacheClear.CleanCut | agent/android.py:2560-2575 | without repeats: an attempted prefix with its own labels, then a tail with one label |
| CacheClear.GoodNamesAppend | agent/android.py:2540-2545 | the valid names keep the caller's order |
| CacheClear.CallersOrder | agent/android.py:2560-2582 | without repeats a valid name is labelled by its own attempt iff fewer valid names stand before it than were attempted, else by the stop |
| CacheClear.CutIsASuffix | agent/android.py:2560-2575 | the names not attempted are a suffix of the caller's own list |
| CacheClear.BatchTimeBound | agent/android.py:2555-2579 | shells that respect their timeouts take at most max(0.5, budget) plus max(5, timeout) seconds |
| CacheClear.TimeoutBounds | agent/android.py:2577-2579 | a shell gets at least 5 seconds, and beyond that no more than was asked or is left |
| CacheClear.StartBudgetIs | agent/cache_clear_phases.py:38-45 | Start's budget in seconds: two a name, at most 5, at least half a second |
| CacheClear.DefaultBudgetIs | agent/android.py:2555-2556 | without a budget of its own a batch gets the timeout of each valid package, at least half a second |
| CacheClear.StartDoneWithinTen | agent/cache_clear_phases.py:38-73 | at most 10 seconds for Start's own budget at any number of packages |
| CacheClear.FiveSecondsExactly | agent/cache_clear_phases.py:30-45 | at most 5 seconds exactly for at most one valid package |
| BuildInfo.IterCodeObjects | agent/build_info.py:143-150 | the explicit stack terminates and visits exactly the recursive walk, in its order |
| BuildInfo.PreorderReaches | agent/build_info.py:143-150 | that walk contains exactly the code objects nested at any depth |
| BuildInfo.ReachesNested | agent/build_info.py:143-150 | what is reachable is closed under nesting |
| BuildInfo.ReachesOnly | agent/build_info.py:143-150 | nothing else is reachable: any property of the root that nesting passes on holds of all of it |
| BuildInfo.CodeObjectFacts | agent/build_info.py:153-165 | the collected sets are exactly the names and string constants of the whole tree |
| BuildInfo.IsPersistentWorker | agent/build_info.py:210-268 | the worker test holds iff every required name is there and every required string lies in some constant |
| BuildInfo.VerifyBundle | agent/build_info.py:179-207 | the check passes exactly on the complete bundles |

## Left out

- In the checker, package names are taken as already stripped and are compared only by equality, so they are modelled as numbers with one empty name.
- Timestamps of a row are modelled as set or not set; counters that only feed the probe, pids, evidence sources and ages are not part of this model.
- Committed presences are limited to Online, No Heartbeat and Dead, the values the callers pass; other strings would be shown differently.
- Error texts are opaque; only whether there is one matters, and cutting them to 200 characters is not modelled.
- The state file, its throttling, the probe snapshot, the logcat and staleness bookkeeping of a round, and the Lime tracker hooks are input and output.
- Real threads: each locked method is one atomic step. Steps of other threads happen between rounds and while a recovery handler runs, not between the other steps of a round.
- A new Start while a recovery handler runs is not modelled; every other step of other threads during a handler is.
- A poll of a focus window is one look; the sleep between polls and a stop request are the end of the list of polls. A probe that raises before the window makes no pointer step and is no event.
- The relay that writes presence directly in `agent/rjn_lifecycle_monitor.py` is not part of this model.
- License: one clock reading per attempt, one terminal test per attempt, and every save succeeds; the install id, the messages, the session token and the child process that asks the server are not modelled.
- License: the configuration handed to the checks without a prompt is the stored one.
- The local license loop and the rest of the menus are not part of this model; the bypass switches of Start are taken as given.
- The launch trace keeps only the last launch with its error; whether the error text contains "not installed" is given with it, and the other fields of the trace are left out.
- Attention.RecoveryForgetsNobody: assumes own handlers, because a step of another thread may commit Dead without queueing; the sync of the next round adopts that package.
- Attention.TickForgetsNobody: the same assumption.
- StaleFailures.StaleFailureCascades: the same assumption, because another thread may take waiting packages out; StaleFailures.FailsExactly needs none.
- Window dumps are lists of lines without line breaks, as `splitlines` gives them; taking and caching the dump is input.
- The bounded runner of the cache clear with its deadline thread, recovery's own cache clear and the size checks are left out; they only add easy members.
- The names of the shell paths and the text of the installer are left out.
- Protected modules that are no code objects behave like empty ones, which is what the attribute defaults of the walk make of them; reading and unpacking the bundle is input.
