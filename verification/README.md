# PBLauncher: a verified model

PBLauncher keeps many PocketBase instances alive, asleep or stopped. It routes requests to them,
snapshots their data, renews their certificates and reports their uptime. This project models the
parts of it where the order of events matters and proves what every run of them keeps.
`dafny verify dfyconfig.toml` checks everything.

| files | what they model |
|---|---|
| `Process.dfy`, `ProcessObject.dfy` | one supervised process: its caller, its exit waiters, the shared status cell |
| `Lifecycle.dfy`, `LifecycleSafety.dfy`, `LifecycleTheorems.dfy`, `AutoSleep.dfy`, `Continuations.dfy`, `Commands.dfy`, `CrashReports.dfy`, `Launcher.dfy` | the launcher: every access to shared state as one step, the invariant, the theorems about runs, when a service falls asleep, when a stop lasts, what a command comes to, when a crash is reported, and the locked sections as methods |
| `Uptime.dfy` | the SQL view and the dashboard, both against one count of instants |
| `Paths.dfy`, `Archive.dfy`, `Snapshots.dfy`, `SnapshotRules.dfy`, `SnapshotRuns.dfy`, `SnapshotStore.dfy` | archives, the HEAD pointer of snapshots, the rules of backups, restores and file operations |
| `Vacuum.dfy` | the nightly sweep over interruptible rounds |
| `SerialExecutor.dfy` | the worker, the channel and the timers |
| `CertRetry.dfy`, `CertStore.dfy`, `CertCache.dfy` | certificate requests, stored certificates and the cache before them |
| `HookRoot.dfy` | the common root of imported hook files |
| `Options.dfy` | values that may be absent |
| `Names.dfy` | slugs, friendly domains, and the way from a host to a service |

A machine is a step function over values in which an action whose guard is false does nothing, so
every sequence of actions is a run. A class carries the history of its accesses as a ghost field,
and its invariant says that its fields are what that history leads to, so what is proved of runs
holds of the object. What the outside world decides (a launch, a signal, a file system, a clock, a
certificate authority) is an argument or an arbitrary choice.

Assumptions: repository writes are atomic and succeed, except those that an argument lets fail; a
kill signal kills; a cached or archived value is decoded as it was encoded; the local clock does
not go back between two stores of certificates, and moves on between two vacuums. Services have
unique ids and names, and each its own directory.

## What the code does that its documentation does not say

- A process that dies between its spawn and the last write of `Start` leaves an object that says
  Running for ever; no command can start or stop the service after that
  (`ServiceProcess.PhantomBirth`, `LifecycleTheorems.StuckForever`).
- A user's stop lasts if and only if nobody is on the way to start the service or to overwrite its
  status (`Continuations.StopLastsIffQuiet`); a request that read "sleeping" before the stop undoes
  it, in a run from a new launcher (`Continuations.StaleWakeUndoesStop`).
- A service is put to sleep although activity was recorded after the scan
  (`AutoSleep.SuspendedIffQuietSinceScan`, `Continuations.ActivityInTheGap`).
- The view and the dashboard differ by what they make of restarts and of operations other than the
  four. Without restarts they agree if and only if nothing is inferred before the first log and no
  such operation is logged, with time after it, while the dashboard takes the service to be active
  (`Uptime.AgreeWithoutRestart`); restarts are the case of `Uptime.AgreeWithRestart`, and
  `Uptime.DifferenceByLog` gives the difference for all logs.
- HEAD goes wrong in exactly these calls: a save, a deletion or a restore that breaks off after
  changing the directory while HEAD is set (`SnapshotRuns.Harmless`, `SnapshotRuns.HeadCoherence`). A
  snapshot of a directory without files cannot be restored: the attempt removes the directory, and
  no other snapshot but a pre-restore one can be restored after it (`SnapshotRuns.RestoreOfNothing`).
- The cap on certificate attempts has no effect, because saving a failure triggers an unchecked
  post (`CertRetry.HookDefeatsCap`).
- A certificate store that fails after making its folder takes the older certificates out of use
  (`CertStore.BrokenStoreKeepsAnswer`); one that stops inside the key file has the new certificate
  served with a truncated key, because only the certificate is checked (`CertStore.TornKeyIsServed`).
- A certificate store that breaks off in the second of a complete one serves the certificate of one
  with the key of the other (`CertStore.SameSecondMixes`).
- A crash is reported only if the exit waiter reads the status before anybody begins to stop the
  process; a stop that begins in between keeps it silent (`CrashReports.MessageIffCrashed`).
- A service whose name is not a slug, is the first label of the API host, or equals the id of an
  earlier record is not reached by its friendly domain (`Names.ReachesService`).

## Model

| member | source | states |
|---|---|---|
| ServiceProcess.InvStep | helpers/process/service_process.go:89-216 | every access by the caller, by an exit waiter or by the operating system keeps the invariant of a process object |
| ServiceProcess.LiveNeverStopped | helpers/process/service_process.go:89-166 | in every interleaving a live process is the latest one spawned and no status read returns Stopped while it lives |
| ServiceProcess.LiveMeansRunning | helpers/process/service_process.go:133-143 | between calls a live process has status Running |
| ServiceProcess.ChannelClosedAtMostOnce | helpers/process/service_process.go:147-166 | in every interleaving each done channel is closed at most once and each exit reported at most once |
| ServiceProcess.StopReturns | helpers/process/service_process.go:168-216 | a Stop that returns because the done channel is closed leaves status Stopped; either way of returning leaves the process dead |
| ServiceProcess.StoppedExitNeverReported | helpers/process/service_process.go:147-161 | an exit that follows a delivered stop signal is never sent on the error channel (when an exit is reported: CrashReports.ReportedIffCrashed) |
| ServiceProcess.PhantomBirth | helpers/process/service_process.go:133-143 | the object gets stuck in Running with no process exactly when the last write of Start, the first write of Stop or the write back after a failed signal overwrites the Stopped of an exit waiter |
| ServiceProcess.PhantomForever | helpers/process/service_process.go:89-93 | a stuck object stays so under every continuation: no Start spawns anything and every Stop fails |
| ServiceProcess.PhantomIsReachable | helpers/process/service_process.go:140-143 | such a state is reachable: the process dies between its spawn and the last write of Start |
| ProcessObject.ChainIsExec | helpers/process/service_process.go:89-216 | what an object has become is what the interleaving recorded in its history leads to |
| ProcessObject.Process.UpdateStatus | helpers/process/handler.go:23-27 | the locked status write, at each of the five places where the caller makes it |
| ProcessObject.Process.RunWaiter | helpers/process/service_process.go:147-166 | one access of an exit waiter or of the operating system, as the runs make it; what it decides and reports is CrashReports.DecideSplits and CrashReports.ReportedIffCrashed |
| ProcessObject.Process.Start | helpers/process/service_process.go:89-145 | fails exactly when the launch fails on a stopped object, and then leaves Stopped; a successful one spawns once and ends Running; on any other status nothing changes |
| ProcessObject.Process.Stop | helpers/process/service_process.go:168-216 | does nothing unless Running; fails only with status back at Running; success leaves no live process and a status other than Running |
| ProcessObject.Process.AwaitExit | helpers/process/service_process.go:204-214 | waits for the done channel or kills: either way nothing lives afterwards |
| CrashReports.DecideSplits | helpers/process/service_process.go:151-156 | when the waiter looks, it owes a report if the exit is an error other than a termination signal and the status is neither Stopping nor Stopped, and otherwise it will never make one |
| CrashReports.ReportedIffCrashed | helpers/process/service_process.go:147-166 | in every continuation in which the waiter gets past its report, the exit has been reported exactly once if that held when it looked, and not at all if not |
| CrashReports.CrashIsReported | helpers/process/service_process.go:147-166 | a crash that nobody begins to stop is reported in every continuation in which its waiter gets past the report |
| CrashReports.CleanExitNeverReported | helpers/process/service_process.go:151-156 | an exit that is no error is never reported |
| CrashReports.CrashRun | helpers/process/service_process.go:147-166 | the report is reached: from an idle object with a live process, the process dies with an error and the waiter reports it |
| CrashReports.ReportNeedsRoom | internal/launcher/domain/launcher_manager.go:86-86 | a waiter that owes a report can send it exactly while fewer than ten messages are unread, and then appends its service |
| CrashReports.MessageIffCrashed | helpers/process/service_process.go:147-166 | in every run of the launcher, by the time the waiter is past its report the service has been appended to the unread messages if and only if the exit was an error and the status was neither Stopping nor Stopped when the waiter looked |
| CrashReports.CrashIsHeard | internal/launcher/domain/launcher_manager.go:337-337 | from every reachable state with the lock free and room for a message, the death of a live process makes its service the last of the unread messages |
| LifecycleSafety.SafeStep | internal/launcher/domain/launcher_manager.go:116-807 | every access of every actor (exit waiters, failure handler, command runner, wake-ups, auto-sleep, deletion, recovery, start and stop sections) keeps the safety invariant; what a command comes to is Commands.CommandComesTo |
| LifecycleTheorems.SafeAt | internal/launcher/domain/launcher_manager.go:116-807 | the safety invariant holds in every state of every run |
| LifecycleTheorems.OneLiveProcess | internal/launcher/domain/launcher_manager.go:254-423 | with the lock free, a live process is the one processList names, reads Running, is the only live one of its service, and the service is not persisted as stopped or sleeping |
| Commands.StartStarts | internal/launcher/domain/launcher_manager.go:523-524 | an executed start leads the runner to a start section of its service and to no other |
| Commands.StopStops | internal/launcher/domain/launcher_manager.go:525-527 | an executed stop leads to a stop section that persists Stopped and to no other |
| Commands.RestartStopsIffRunning | internal/launcher/domain/launcher_manager.go:425-440 | an executed restart leads to a stop section first if and only if the service is running, and otherwise to a start section |
| Commands.UpgradeStartsIffStopped | internal/launcher/domain/launcher_manager.go:442-491 | an executed upgrade leads to a start section if and only if its record read stopped and its checks pass, and otherwise to nothing |
| Commands.StartSectionEnds | internal/launcher/domain/launcher_manager.go:254-379 | in every run, from the lock on a start section goes on until one of its four ends: started (registered, spawned, persisted as running), launch failed (persisted as failure), refused because running, not prepared |
| Commands.StopSectionEnds | internal/launcher/domain/launcher_manager.go:387-423 | in every run, from the lock on a stop section goes on until one of its two ends: gone and persisted as its caller asked, or still registered and running with its record untouched |
| Commands.CommandComesTo | internal/launcher/domain/launcher_manager.go:516-535 | in every run, what a command comes to from the step on in which it executes: the runner waits for the lock, is in the section of that kind, or that section has ended; a restart that has stopped its service goes on to start it, one whose stop failed does not |
| Commands.StoppedIsGone | internal/launcher/domain/launcher_manager.go:404-421 | when a stop section has succeeded the service is not registered and has no live process |
| Commands.StartCanSucceed | internal/launcher/domain/launcher_manager.go:248-379 | a start of a service that is not running can reach a live registered process persisted as running |
| Commands.StopCanSucceed | internal/launcher/domain/launcher_manager.go:381-423 | a stop of a running service can reach a dead unregistered one persisted as stopped |
| Commands.CommandsInOrder | internal/launcher/repos/comand.go:46-54 | in every run, the commands waiting at first and those asked for since, by users for known services and by the failure handler, are those taken followed by those still waiting: in order, each once, none lost |
| Commands.TakenWithItsStatus | internal/launcher/domain/launcher_manager.go:516-520 | a command is taken only by an idle runner after the recovery, together with the status its record has then |
| Commands.MessagesInOrder | internal/launcher/domain/launcher_manager.go:116-117 | in every run, the failure messages sent are those the handler has taken followed by those unread |
| Commands.MessageIsHandled | internal/launcher/domain/launcher_manager.go:116-153 | each message marks its service as failed and asks for its start if and only if its restart policy is on-failure |
| Commands.DeletionStops | internal/launcher/domain/launcher_manager.go:800-807 | a deletion enters a stop section that leaves the record alone |
| Commands.RecoveryTakesTheRunning | internal/launcher/domain/launcher_manager.go:493-514 | a recovery takes exactly the services persisted as running, each once, and happens once |
| LifecycleTheorems.QuietStep | internal/launcher/domain/launcher_manager.go:116-807 | no access other than the execution of a start, restart or upgrade ends a quiet stop |
| LifecycleTheorems.QuietStopLasts | internal/launcher/domain/launcher_manager.go:116-807 | from a quiet stop every run keeps the service persisted as stopped with no live process until a start, restart or upgrade of it executes |
| Continuations.MessageBrings | internal/launcher/domain/launcher_manager.go:116-153 | an unread failure message, however far back in the channel, has a continuation without a command that ends a stop |
| Continuations.WakeBrings | internal/launcher/domain/launcher_manager.go:595-636 | so has a wake-up that has read any status but stopped |
| Continuations.SuspensionBrings | internal/launcher/domain/launcher_manager.go:771-780 | so has a suspension that is due, however many others are before it |
| Continuations.PendingStartBrings | internal/launcher/domain/launcher_manager.go:248-252 | so has a start section that the runner still has to enter |
| Continuations.PendingRestartBrings | internal/launcher/domain/launcher_manager.go:425-440 | so has a restart that the runner has begun by stopping |
| Continuations.StopLastsIffQuiet | internal/launcher/domain/launcher_manager.go:116-807 | in every reachable state with the lock free, a stopped service with nothing left of its processes stays stopped under every continuation without a start, restart or upgrade of it if and only if none of these is on its way |
| Continuations.StaleWakeUndoesStop | internal/launcher/domain/launcher_manager.go:595-636 | from a new launcher, a run in which a request reads the record, the user stops the service, the stop takes effect, and the request then brings a live process without any command |
| Continuations.ActivityInTheGap | internal/launcher/domain/launcher_manager.go:769-780 | from a new launcher, a run in which a service enters suspension at the very moment at which activity of it is recorded |
| AutoSleep.TouchedStep | internal/launcher/domain/launcher_manager.go:354-355 | the time of the last activity moves exactly on activity and on the end of a start |
| AutoSleep.ActivityIsLatest | internal/launcher/domain/launcher_manager.go:354-355 | every registered service has an activity entry, and it is the time of the latest start or activity in the whole run: not earlier, and not any other time |
| AutoSleep.ListedIffIdle | internal/launcher/domain/launcher_manager.go:755-768 | a scan lists a service if and only if it reads Running and no start or activity in the whole run so far is younger than the timeout; the branch for a missing entry is never taken |
| AutoSleep.SuspendedIffQuietSinceScan | internal/launcher/domain/launcher_manager.go:769-780 | a service entering suspension was listed by a scan, and has been idle for the timeout if and only if every activity since the scan is that old; within the timeout after the scan, if and only if there was none |
| LifecycleTheorems.CrashLeavesPhantom | internal/launcher/domain/launcher_manager.go:254-379 | a process that exits between its spawn and the last write of its start leaves the service with a stuck object |
| LifecycleTheorems.StuckForever | internal/launcher/domain/launcher_manager.go:387-409 | once the registered object is stuck no command, request, scan, hook or recovery removes it, and the service never has a live process again |
| Launcher.LauncherManager.StartServiceLocked | internal/launcher/domain/launcher_manager.go:254-379 | refused exactly when the service is up, cannot be prepared or cannot be launched; on success the new object is registered, has an activity entry and is persisted as running; a failed launch is persisted as failure; the lock is given back |
| Launcher.LauncherManager.RegisterProcess | internal/launcher/domain/launcher_manager.go:344-355 | the last write of Start and the two new map entries |
| Launcher.LauncherManager.StopLocked | internal/launcher/domain/launcher_manager.go:387-423 | on success the service is not registered, its activity entry is gone if it was, the status is the one the caller asked for and no object of the service is live; on failure the maps are as before |
| Launcher.LauncherManager.StopProcess | internal/launcher/domain/launcher_manager.go:392-402 | stopping the registered object ends either with it gone or with the section over and the maps unchanged |
| Launcher.LauncherManager.ForgetProcess | internal/launcher/domain/launcher_manager.go:404-408 | exactly the two entries of the service are deleted |
| Launcher.LauncherManager.RecordActivity | internal/launcher/domain/launcher_manager.go:702-706 | the activity entry becomes the current time and nothing else changes |
| Launcher.LauncherManager.ScanForIdle | internal/launcher/domain/launcher_manager.go:750-769 | every id collected is registered and idle for the timeout, and every idle one that is still up is collected; the maps are unchanged |
| Launcher.LauncherManager.WakeLocked | internal/launcher/domain/launcher_manager.go:615-636 | fails exactly when the service is down and was read as stopped or cannot be started; otherwise the service is registered and persisted as running |
| Launcher.LauncherManager.RunningServices | internal/launcher/repos/service.go:116-129 | exactly the services persisted as running, each once |
| Launcher.LauncherManager.RecoverLastState | internal/launcher/domain/launcher_manager.go:493-514 | under one lock, every service that was persisted as running and can be started is registered afterwards, whatever became of the others, and no other service is added |
| Launcher.LauncherManager.Unlock | internal/launcher/repos/service.go:165-198 | the last access of a section: its status write, after which only the lock is given back or handed to the next start of a recovery |
| Uptime.ActiveSecCounts | migrations/1782945300_consolidate_uptime_view.go:61-108 | active_sec is the number of seconds of the window whose last log at or before them is a start, wake-up or restart |
| Uptime.WindowIs | migrations/1782945300_consolidate_uptime_view.go:36-51 | the window holds exactly the moments that are neither older than it, nor before the creation of the service, nor in the future |
| Uptime.CapNeverBinds | migrations/1782945300_consolidate_uptime_view.go:36-113 | for a service created in the past the active time lies within the window, so the cap at 100 never binds |
| Uptime.CreatedInTheFuture | migrations/1782945300_consolidate_uptime_view.go:36-51 | a service created in the future has no active time |
| Uptime.SqlWindowsSplit | migrations/1782945300_consolidate_uptime_view.go:77-108 | the long window minus the short one is the active time between the two window starts, between 0 and their distance |
| Uptime.Percent | ui/src/utils/uptime.ts:103-103 | the exact percentage for active times within the window, 0 below it and 100 above it |
| Uptime.ActiveTime | ui/src/utils/uptime.ts:82-101 | the fold over the logs of the window, for logs of any kind and time |
| Uptime.FoldStep | ui/src/utils/uptime.ts:85-97 | one iteration adds the time since the last log exactly if the state was active |
| Uptime.CalculateForDays | ui/src/utils/uptime.ts:37-109 | window, truncation at creation, empty window, active and inactive time, and the percentage that the active time is of the window |
| Uptime.TsActiveCounts | ui/src/utils/uptime.ts:54-101 | with no log in the future the fold counts the active instants of the window, whatever the operations |
| Uptime.TsStateIsPlain | ui/src/utils/uptime.ts:54-75 | the inferred initial state agrees with the state a longer window computes |
| Uptime.DashboardAgainstView | ui/src/utils/uptime.ts:37-101 | on logs of the four operations, none in the future, the dashboard equals the view plus the time before the first log of all, exactly when that log lies in the window and is a stop or sleep |
| Uptime.DifferenceCounts | ui/src/utils/uptime.ts:37-101 | for any logs, none in the future, dashboard minus view is the number of instants only the dashboard counts minus the number only the view counts |
| Uptime.DifferenceByLog | ui/src/utils/uptime.ts:37-101 | the same difference log by log: exactly what the time after each log of the window, and before the first, adds to one account and not to the other |
| Uptime.AgreeWithoutRestart | migrations/1782945300_consolidate_uptime_view.go:61-71 | without restarts the dashboard never shows less; they agree if and only if nothing is inferred and no other operation with time after it is logged while the fold is on |
| Uptime.AgreeWithRestart | migrations/1782945300_consolidate_uptime_view.go:61-71 | with restarts, no further operation and nothing inferred the dashboard never shows more; they agree if and only if no restart with time after it is logged while the fold is off, nor last before a window that begins without a log |
| Uptime.FutureLogs | ui/src/utils/uptime.ts:85-101 | with logs in the future the fold is off by exactly the instants between now and the last log at which the state is not the final one |
| Uptime.DashboardWindowsSplit | ui/src/utils/uptime.ts:54-101 | the windows of the dashboard split like those of the view |
| Uptime.SortSorts | ui/src/utils/uptime.ts:33-35 | the sort yields the selected logs in time order |
| Uptime.SortIsStable | ui/src/utils/uptime.ts:33-35 | logs of the same moment stay in the order of the table |
| Uptime.SelectIsFilter | ui/src/utils/uptime.ts:33-34 | exactly the successful logs of the service are selected, each as often as the table has it |
| Uptime.CalculateUptimeForLogs | ui/src/utils/uptime.ts:27-116 | for 1, 7 and 30 days, in milliseconds, the dashboard shows the active time of the view plus the inferred time, the rest of the window, and the exact percentage, in an order the view may have chosen |
| Paths.SplitJoin | helpers/zip/zip.go:58-60 | splitting a joined path gives the path back |
| Paths.ResolveClean | helpers/unzip/unzip.go:52-53 | a clean name leads from a directory straight down |
| Paths.RelInside | helpers/unzip/unzip.go:52-54 | the path relative to a directory above is the rest |
| Archive.CreateFromDir | helpers/zip/zip.go:18-85 | fails exactly on a top-level name that begins with two dots; otherwise one entry per file after the extra file |
| Archive.Extract | helpers/unzip/unzip.go:18-43 | the entries in order, up to the first that fails |
| Archive.ExtractInside | helpers/unzip/unzip.go:52-56 | whatever the entries are called, an archive that extracts has every one of them inside the extraction directory |
| Archive.FilesFromEntries | helpers/unzip/unzip.go:18-78 | every file extracted comes from an entry that leads to it |
| Archive.SnapshotEntries | internal/backup/manager.go:540-609 | the manifest first, then the files below data under their own paths |
| Archive.FileNameResolves | helpers/unzip/unzip.go:52-56 | the entry name of a file leads back to its path below the prefix, wherever the archive is extracted |
| Archive.DirectoryIsMade | helpers/unzip/unzip.go:58-61 | an entry for a directory makes it and those above it, unless a file is in the way |
| Archive.FileIsWritten | helpers/unzip/unzip.go:62-78 | an entry for a file makes the directories above it and writes it, also over a file that is there; fails exactly if a file is above it or a directory at its place |
| Archive.NothingInTheWay | helpers/unzip/unzip.go:58-78 | no file or directory extracted before is in the way of the next file |
| Archive.WalkExtracted | helpers/unzip/unzip.go:18-78 | extraction succeeds and yields exactly the files below the prefix and the extra file, with no directories but those above them |
| Archive.RoundTrip | helpers/zip/zip.go:18-85 | archiving and extracting a directory gives it back, with the manifest beside it; a directory without files leaves no data directory |
| Archive.ArchiveDetermines | helpers/zip/zip.go:18-85 | an archive is the archive of one directory only |
| Archive.CopyDir | internal/backup/manager.go:830-861 | succeeds exactly when there is a data directory without top-level names that begin with two dots, and then copies it whole |
| Snapshots.AcceptedPath | internal/filemanager/manager.go:339-374 | an accepted name is clean, in an allowed directory, and leads there below any base, so the join never fails |
| Snapshots.PathAccepted | internal/filemanager/manager.go:339-366 | every clean path in an allowed directory has an accepted name |
| SnapshotRules.AcceptedIff | internal/filemanager/manager.go:339-366 | a name is accepted if and only if it is relative, its segments never climb above its start, and it leads to a path in pb_hooks, pb_public, pb_migrations or pb_data |
| SnapshotRules.NamesAccepted | internal/filemanager/manager.go:339-366 | every clean path in one of these four has an accepted name |
| Snapshots.ApplyKept | internal/backup/manager.go:145-433 | every operation, succeeding or failing anywhere, keeps HEAD linked to a stored snapshot of the service, every archive the archive of some directory, and everything of other services |
| Snapshots.MadeIsArchive | internal/backup/manager.go:540-609 | a new snapshot holds the directory, HEAD names it, nothing else changes |
| Snapshots.OutcomeCoherence | internal/backup/manager.go:145-433 | from a coherent HEAD the next one is coherent if and only if the operation succeeded, or failed without touching the directory, or left no HEAD |
| SnapshotRuns.SaveSpares | internal/filemanager/manager.go:220-272 | for a save, that outcome in terms of its arguments: HEAD is set, the service stopped, the name accepted and not blocked, the write breaks off and its part differs from what was there |
| SnapshotRuns.DeleteSpares | internal/filemanager/manager.go:310-313 | for a deletion: HEAD is set and the removal breaks off after removing some file |
| SnapshotRuns.RestoreSpares | internal/backup/manager.go:344-353 | for a restore: the backup is possible if due, HEAD is set or comes with the backup, and replacing the directory breaks off with something else in place, which it also does for a snapshot without files |
| SnapshotRuns.HeadCoherence | internal/backup/manager.go:145-433 | a coherent HEAD stays coherent if and only if the call is harmless, a condition on the state and the arguments of the call |
| SnapshotRuns.RunCoherence | internal/backup/manager.go:145-433 | HEAD is coherent all along a run of any calls with any failures if and only if every call on its service is harmless where it comes |
| SnapshotRuns.RestoreOfNothing | internal/backup/manager.go:237-360 | restoring a snapshot without files removes the directory, and then every restore of a snapshot that is not a pre-restore one fails without a change |
| Snapshots.SuccessRepairs | internal/backup/manager.go:145-360 | a snapshot, a save or a restore that succeeds makes HEAD coherent, whatever happened before |
| Snapshots.PriorFiles | internal/backup/manager.go:237-360 | unless a restore leaves the files alone, they are in some snapshot afterwards if and only if the directory counted as modified or some snapshot held them before (what counts as modified: SnapshotRules.BackupIffModified) |
| SnapshotRules.BackupIffModified | internal/backup/manager.go:254-293 | a restore makes a pre-restore snapshot of the prior files if and only if its target is a manual snapshot and it is not so that HEAD and its time are set, the database is there, and it was written no later than two seconds after that time; a backup that is due and cannot be made stops the restore without a change |
| SnapshotRules.ModifiedIsKept | internal/backup/manager.go:270-275 | a database written more than two seconds after HEAD was set: a restore of a manual snapshot that succeeds keeps the prior files in a snapshot |
| SnapshotRules.UnmodifiedIsNotBackedUp | internal/backup/manager.go:270-275 | a database written no later than that: no snapshot is made, however the restore ends |
| SnapshotRules.RestoreRefused | internal/backup/manager.go:237-251 | refused without a change for a service that is unknown or not stopped and for a snapshot that is unknown or foreign |
| SnapshotRules.RestoreSetsHead | internal/backup/manager.go:344-360 | a restore that succeeds sets HEAD and its time and changes nothing else but the directory |
| SnapshotRules.ManifestIsNeeded | internal/backup/manager.go:802-812 | only an archive with an entry that leads to the manifest can be restored |
| SnapshotRules.SnapshotIsManual | internal/backup/manager.go:145-230 | a snapshot is made if and only if it has a name, the service is known and stopped and its directory can be archived; it is a manual one of the present directory, HEAD names it as of now, and everything else stays |
| SnapshotRules.SnapshotIsGone | internal/backup/manager.go:407-428 | carried out if and only if the snapshot is one of the service and can be removed; then it is gone, every other snapshot stays, and HEAD and its time go exactly if HEAD named it |
| Snapshots.NothingIsLost | internal/backup/manager.go:237-360 | restoring a snapshot that is not a pre-restore one never loses the prior files when HEAD is coherent, however the restore ends |
| Snapshots.RestoreInstalls | internal/backup/manager.go:344-353 | a restore without trouble installs the archived files and moves HEAD; of a snapshot without files it fails and leaves no directory |
| Snapshots.RestoreUndone | internal/backup/manager.go:254-353 | restoring the automatic backup brings the prior files back |
| Snapshots.SaveStores | internal/filemanager/manager.go:200-287 | a save that succeeds stores exactly these bytes, clears HEAD, and touches no other file but the compressed companion and its temporary form |
| SnapshotRules.SaveAccepted | internal/filemanager/manager.go:200-287 | a save succeeds if and only if the service is known and stopped, the name accepted, nothing in the way and the write complete; what each other case leaves |
| SnapshotRules.CompanionIsWritten | internal/filemanager/manager.go:42-81 | what becomes of the compressed companion and its temporary form, in each case; outside pb_public nothing but the file changes |
| Snapshots.DeleteRemoves | internal/filemanager/manager.go:289-321 | a deletion that succeeds leaves nothing at or below the path and touches no other file but the compressed companion |
| SnapshotRules.DeletionRefused | internal/filemanager/manager.go:289-305 | refused without a change for a service that is unknown or not stopped and for a bad name |
| SnapshotRules.NothingToDelete | internal/filemanager/manager.go:302-309 | with nothing at or below the path nothing changes, and it succeeds unless a file is above the path |
| SnapshotRules.DeletionCompletes | internal/filemanager/manager.go:307-321 | exactly what is at or below the path goes, and the compressed companion, and HEAD is cleared |
| SnapshotRules.DeletionBreaksOff | internal/filemanager/manager.go:310-313 | a removal that fails takes what it can and leaves HEAD |
| SnapshotStore.Managers.SetCurrentSnapshotID | internal/backup/manager.go:525-537 | HEAD and its time are set together and cleared together |
| SnapshotStore.Managers.CreateSnapshotWithType | internal/backup/manager.go:540-609 | on success the archive of the directory is stored under a new id and HEAD names it; when the directory, the archive or the record fails, nothing changes |
| SnapshotStore.Managers.CreateSnapshot | internal/backup/manager.go:145-230 | refused without a change for an empty name and for a service that is unknown or not stopped; otherwise a manual snapshot |
| SnapshotStore.Managers.DeleteSnapshot | internal/backup/manager.go:407-428 | refused for an unknown or foreign snapshot; otherwise it is gone and HEAD is cleared exactly when it named it |
| SnapshotStore.Managers.ClearCurrentSnapshot | internal/launcher/repos/service.go:256-260 | HEAD goes, its time stays |
| SnapshotStore.Managers.CompressToGzip | internal/filemanager/manager.go:42-81 | the temporary file is gone afterwards and the companion is there exactly when compression worked |
| SnapshotStore.Managers.SaveFile | internal/filemanager/manager.go:200-287 | refused for a service that is unknown or not stopped, a bad name, or something in the way; a complete write (with its compressed companion below pb_public) clears HEAD, one that breaks off leaves a partial file and HEAD |
| SnapshotStore.Managers.DeleteFile | internal/filemanager/manager.go:289-321 | a missing path succeeds without a change; a file or subtree goes with its compressed companion and HEAD is cleared; a removal that fails midway keeps HEAD |
| SnapshotStore.Managers.BackUp | internal/backup/manager.go:254-293 | the automatic backup, made exactly when SnapshotRules.BackupIffModified says, before anything else is touched |
| SnapshotStore.Managers.Replace | internal/backup/manager.go:344-353 | the directory is removed, refilled and HEAD moved, with the two ways this can break off |
| SnapshotStore.Managers.RestoreSnapshotInPlace | internal/backup/manager.go:237-360 | backup if due, extraction, replacement and HEAD, each with its failures: the state it leaves is the one about which SnapshotRules.BackupIffModified, SnapshotRules.RestoreSetsHead and the theorems on restores are proved |
| Vacuum.SortByLastVacuum | internal/hooks/sqlite_vacuum.go:172-187 | in place: sorted, never vacuumed first, and a permutation |
| Vacuum.InsertRecord | internal/hooks/sqlite_vacuum.go:174-185 | one record moves left, by swaps of neighbours, to its place among those before it |
| Vacuum.SortedIsRanking | internal/hooks/sqlite_vacuum.go:89-96 | the sorted records list every instance once |
| Vacuum.VacuumIsFair | internal/hooks/sqlite_vacuum.go:87-168 | over any number of sweeps cut anywhere, between two vacuums of an instance every instance that was neither running nor failed when visited was vacuumed |
| Vacuum.VacuumScheduler.Visit | internal/hooks/sqlite_vacuum.go:190-197 | the time stamp of the visited instance changes exactly when it was vacuumed |
| Vacuum.VacuumScheduler.RunVacuumSweep | internal/hooks/sqlite_vacuum.go:87-168 | visits the ranking from its beginning until the window is closed; the instances visited that neither ran nor failed are stamped with a later time, every other stamp stays, and the history of sweeps is extended |
| SerialExecutor.CompareIsExact | helpers/serialexecutor/executor.go:54-56 | the comparison orders by falling priority exactly when the 64-bit difference does not overflow, so always for priorities that are not negative |
| SerialExecutor.CompareCanCycle | helpers/serialexecutor/executor.go:54-56 | with negative priorities it can cycle |
| SerialExecutor.EveryTaskSomewhere | helpers/serialexecutor/task.go:20-37 | in every state after Start each added task is in the channel, executing or on its timer, as often as it was added |
| SerialExecutor.TimerNeverBlocks | helpers/serialexecutor/task.go:28-36 | a timer that expires always finds room in the channel |
| SerialExecutor.FirstRoundByPriority | helpers/serialexecutor/executor.go:54-64 | the first executions are the sorted tasks, by falling priority |
| SerialExecutor.ExecutedInTurn | helpers/serialexecutor/executor.go:66-77 | from any state, position k of the channel is executed after exactly k others |
| SerialExecutor.BoundedWaiting | helpers/serialexecutor/executor.go:66-77 | in every run a waiting task is executed after fewer other executions than there are tasks |
| SerialExecutor.InsertTask | helpers/serialexecutor/executor.go:54-56 | one insertion of the sort keeps the tasks and the order |
| SerialExecutor.SequentialExecutor.Add | helpers/serialexecutor/executor.go:26-45 | the four refusals in their order; otherwise the task is appended |
| SerialExecutor.SequentialExecutor.Start | helpers/serialexecutor/executor.go:47-80 | sorts, fills the channel once and starts; a second call changes nothing |
| SerialExecutor.SequentialExecutor.Take | helpers/serialexecutor/executor.go:66-77 | the worker takes the oldest task when it is idle |
| SerialExecutor.SequentialExecutor.FinishTask | helpers/serialexecutor/task.go:20-27 | the timer of the executed task is armed |
| SerialExecutor.SequentialExecutor.FireTimer | helpers/serialexecutor/task.go:28-36 | a timer that expires puts its task at the end of the channel without waiting |
| CertRetry.PlannedIff | internal/certmanager/domain/request_planner.go:39-75 | the same for the runs, with the record written out: a is the next attempt of a checked failure and 1 otherwise |
| CertRetry.DueIsRequested | internal/certmanager/domain/request_executor.go:32-69 | a request is made exactly if it is pending and due, and settles the record as approved or failed |
| CertRetry.RenewalRun | internal/certmanager/domain/request_planner.go:70-74 | a certificate that is called for is requested a*a minutes after the post and not before: an approved domain whose certificate runs out gets a new one |
| CertRetry.RequestsAndBudget | internal/certmanager/domain/request_planner.go:39-75 | in every run, requests made and requests still allowed add up to what was there at first and what the resets grant: each unchecked post that plans and each success refills the budget, by one full budget at most |
| CertRetry.RetryBound | internal/certmanager/domain/request_planner.go:48-58 | a domain pending at attempt a is requested at most max(1, maxAttempts - a + 1) times |
| CertRetry.RetryBoundIsTight | internal/certmanager/domain/request_planner.go:48-58 | and there is a run that makes all of them |
| CertRetry.BackOff | internal/certmanager/repos/cert_requests.go:48-60 | attempts 1 to k take at least 1 + 4 + ... + k*k minutes from the first planning and are k requests, in every run without unchecked posts |
| CertRetry.SumOfSquaresClosed | internal/certmanager/repos/cert_requests.go:56-57 | the closed form of that time |
| CertRetry.HookDefeatsCap | internal/hooks/domains.go:89-104 | with the update hook answering each saved failure by an unchecked post, any number of requests is made, one a minute, at attempt 1 |
| CertRetry.CertManager.CreatePending | internal/certmanager/repos/cert_requests.go:48-60 | fails exactly for an unknown domain; otherwise pending, at least attempt 1, not before its square in minutes |
| CertRetry.CertManager.PostSSLDomainRequest | internal/certmanager/domain/request_planner.go:39-75 | a known domain is planned (pending, attempt a, not before a*a minutes from now) if and only if it is not pending, not a checked failure at the cap, and its certificate is unusable or about to run out; otherwise nothing changes; fails exactly when a request is called for and the store is broken or the domain unknown |
| CertRetry.CertManager.PendingToExecute | internal/certmanager/domain/request_executor.go:32-44 | exactly the pending records that are due, each once |
| CertRetry.CertManager.ProcessRequest | internal/certmanager/domain/request_executor.go:46-69 | one request, then approved or failed |
| CertRetry.CertManager.ExecutePlan | internal/certmanager/domain/request_executor.go:71-85 | each due request is made exactly once, its record gets its outcome, and nothing else changes |
| CertStore.DigitsOrder | internal/certificates/certstore/storer.go:22-22 | zero-padded numbers of one width are ordered as strings like numbers |
| CertStore.NamesAreChronological | internal/certificates/certstore/storer.go:22-44 | folder names are ordered as strings exactly like the times at which they were made |
| CertStore.FolderNameIs | internal/certificates/certstore/storer.go:22-22 | the name of a folder written out: year-month-day_hour-minute-second, each of fixed width |
| CertStore.DigitsAreDecimal | internal/certificates/certstore/storer.go:22-22 | the digits of a number are decimal digits and stand for it |
| CertStore.TlsStorer.Store | internal/certificates/certstore/storer.go:43-61 | the new folder holds both files exactly when the store succeeds; where it stops decides what is left |
| CertStore.TlsStorer.LatestDir | internal/certificates/certstore/storer.go:95-103 | the loop finds the folder with the greatest name, in whatever order the entries come |
| CertStore.TlsStorer.Resolve | internal/certificates/certstore/storer.go:81-133 | the answer is what the latest folder holds, or that there is none |
| CertStore.BrokenStoreAnswers | internal/certificates/certstore/storer.go:43-61 | what a lookup answers after a store that fails, for every place where it can stop |
| CertStore.BrokenStoreKeepsAnswer | internal/certificates/certstore/storer.go:43-61 | a store that fails leaves a usable certificate in use if and only if it fails before making its folder |
| CertStore.SameSecondMixes | internal/certificates/certstore/storer.go:43-61 | what is answered after a store in the second of a complete one, for every place where it can stop: the certificate of one with the key of the other, unless it stops before the first byte |
| CertStore.TornKeyIsServed | internal/certificates/certstore/storer.go:63-79 | a store that stops inside the second file has its certificate served with a key that is not its own |
| CertCache.LaterIsNewest | internal/certificates/certstore/storer.go:43-47 | in a later second every store makes a newer folder |
| CertCache.StoredIsLatest | internal/certificates/certstore/storer.go:43-61 | a store at a time not before the last one makes its folder the latest, also within the same second |
| CertCache.TlsStorerCache.Store | internal/certificates/certstore/storer_cache.go:45-56 | a successful store becomes the last one on both levels; when the cache takes it and the disk does not, the cache serves a certificate that was not stored |
| CertCache.TlsStorerCache.Resolve | internal/certificates/certstore/storer_cache.go:58-79 | under any evictions a certificate returned is the one stored last; it is returned exactly when it is cached or still valid |
| CertCache.TlsStorerCache.Evict | internal/certificates/certstore/storer_cache.go:30-38 | dropping any entries keeps both levels in agreement |
| HookRoot.HookNames | internal/hookmanager/manager.go:268-287 | a hook file is one whose name ends in .pb.js |
| HookRoot.CommonIsGreatest | internal/hookmanager/manager.go:311-321 | the common prefix extends every other common prefix |
| HookRoot.CommonDir | internal/hookmanager/manager.go:311-329 | on absolute clean names the loop returns the name of the longest common directory, also when that is the root |
| HookRoot.OneCommonRoot | internal/hookmanager/manager.go:288-291 | the root depends on the set of directories only, not on their order |
| HookRoot.FoldDirs | internal/hookmanager/manager.go:288-291 | folding gives the longest common ancestor of all hook directories |
| HookRoot.DetectHookRoot | internal/hookmanager/manager.go:268-293 | exactly the hook files, each once, and their longest common ancestor; refused exactly when there is none |
| HookRoot.RelativeToRoot | internal/hookmanager/manager.go:331-345 | the relative path of a hook file never fails and is a clean path below the root |
| HookRoot.BelowIsInjective | internal/hookmanager/manager.go:244-254 | different hook files have different relative paths |
| HookRoot.ValidateOnlyPBJS | internal/hookmanager/manager.go:295-309 | accepts exactly when nothing but hook files is below the root |
| HookRoot.Stage | internal/hookmanager/manager.go:244-254 | every hook file is staged under its own path below the root, none written over |
| HookRoot.CopyDir | internal/hookmanager/manager.go:393-408 | the staged files are copied whole; no relative path fails |
| HookRoot.Import | internal/hookmanager/manager.go:208-266 | refused exactly when the service is not stopped, there is no hook file or anything else is below the root, and then without a change; otherwise the hooks directory holds exactly the hook files under their paths below it |
| Names.SlugJoinsWords | utils/domainutil/domain.go:35-40 | the slug is the maximal runs of letters and digits of the lower-cased name, in order, with one hyphen between them |
| Names.SlugIsSlug | utils/domainutil/domain.go:35-40 | a slug has letters, digits and single hyphens inside only |
| Names.OwnSlug | utils/domainutil/domain.go:35-40 | a name is its own slug exactly when it has that form; making slugs is idempotent |
| Names.RootOfBase | utils/domainutil/domain.go:42-48 | a base with fewer than two dots is its own root, and of any other the root is what follows the first dot |
| Names.FriendlyDomainsEqual | utils/domainutil/domain.go:50-56 | friendly domains are equal exactly when the slugs are |
| Names.FriendlyIsApi | utils/domainutil/domain.go:42-56 | a friendly domain is the host of the API exactly when that host has more than two labels and the slug is its first |
| Names.ExtractFriendly | internal/proxy/proxy_discovery.go:93-110 | the slug is recovered from a friendly domain unless that is the host of the API |
| Names.HostIs | internal/proxy/proxy_discovery.go:93-110 | what a host is, in all five cases: a subdomain exactly if it is one label, not empty, before the root domain, and not the host of the API |
| Names.ExtractedFrom | internal/proxy/proxy_discovery.go:93-110 | a subdomain is extracted from one host only |
| Names.ReachesService | internal/proxy/proxy_discovery.go:379-398 | the API routes of the friendly domain reach the service exactly when that is not the host of the API, the name is its own slug and no earlier record has it as its id |
| Names.ReachedByName | internal/proxy/proxy_discovery.go:395-398 | nobody is reached under a name that is not theirs |

## Left out

- Process: the systemd path of `Start` and `Stop`, CPU limits and the Windows branch; only the signal path is modelled.
- Launcher: `Dispose`, health checks, the wait for a running vacuum, superuser creation, and the parts of restart and upgrade between their locked sections, which appear only as steps of the command runner.
- Launcher.LauncherManager.StopProcess: process objects are values in a sequence here, not objects of the class of `ProcessObject.dfy`; both follow the same step function.
- Lifecycle: the hooks that rename, restore or clone services and direct edits of records write outside the launcher lock and are not steps.
- Uptime: rounding of the shown hours and percentages, parsing of dates, the status filter of the dashboard for all services at once.
- Uptime.CalculateForDays: an absent creation time is any time before the window.
- Snapshots: empty directories, file modes and modification times other than that of the database; renames, unpacking of uploads and writes by the running instance do not clear HEAD in the code and are not operations here; two operations on one service do not overlap.
- Snapshots.AcceptedPath: the name is given without surrounding white space.
- SnapshotStore.Managers.SaveFile: stands for both the buffered and the streaming save, which differ only in how a write can break off; what gzip produces is an argument.
- Vacuum: the jitter and the second test of running are one test; exclusion between vacuum and process is not claimed.
- SerialExecutor: stop, restart and sends after the channel is closed; the library sort is modelled by an insertion sort, so the order among equal priorities is one of those possible.
- CertRetry.CertManager.ExecutePlan: posts by the update hook while the loop runs are left to the runs for one domain.
- CertStore: the files of a wildcard domain are under another root, which only renames the directory; years after 9999; what makes a certificate valid.
- HookRoot.Import: reading the archive, an unknown service, and input and output errors.
- Names: lower-casing outside ASCII is an arbitrary mapping of characters; the cache of looked-up services and custom domains.
- The proxy, its gzip cache, TLS handshakes, ACME, downloads, the user interface and the other migrations would only add easy members or are input and output.
