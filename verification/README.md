# BlessForge: a verified model of its protocols

BlessForge runs Minecraft servers on nodes: a panel (`app/`) and an agent on each node
(`agent/`). This project models the stateful parts of both in Dafny, as the code does
them, and proves what they promise over every input and every run.

Each part is a state machine whose steps are the stretches of code between two awaits
(or one database transaction), a class whose methods do those steps to its fields, and
lemmas over every sequence of steps. Where two parties share something, the other one's
moves are arbitrary.

| files | part |
|---|---|
| `NodeConsole`, `ConsoleFrames`, `PanelFeed`, `ConsoleRelay`, `ConsoleStates`, `ConsoleBounds`, `ConsoleHub` | the console, from a server's output through two bounded hops to its viewers |
| `BackupStore`, `BackupRuns`, `BackupTakes`, `BackupPromises`, `BackupLimits`, `BackupKills`, `BackupDisk` | the content-addressed backup store, also when it is killed |
| `StatsRollup`, `StatsCompaction`, `CompactionRuns`, `StatsTable` | the roll-up of statistics, and compactors that race and crash |
| `BootQueue`, `BootPromises`, `BootLimits`, `BootBounds`, `BootDoors`, `BootStops`, `BootStretches`, `BootSupervisor` | boot slots, the boot queue and the lines for the servers' locks |
| `CrashRestarts`, `GamePorts` | automatic restarts and automatic ports |
| `CacheClaims`, `DownloadCache`, `DownloadRuns`, `DownloadPromises` | the download cache and a fetch of many files |
| `EventQueue` | the queue of events to the panel |
| `FolderPaths`, `FolderNames`, `FolderJail` | paths and the walk into a server's folder |
| `AttachStream`, `ContainerSpec`, `ContainerRules` | the container's console stream, and its body, checker and start |
| `ClientOverrides`, `ClientNames` | the last word on which mods a server keeps |
| `SignInThrottle`, `SignInOutcomes` | signing in, lockout and codes |

`Prelude` holds the few definitions they share. `dafny verify dfyconfig.toml` checks
everything.

## What the code does less than it says

Where code and comments disagree the model follows the code. Each point names the
member that says exactly when it happens, and the one that shows an input.

- A restore keeps only excluded names at the top level: a nested exclude, and a file that
  was skipped when the backup was taken, are removed (`agent/worldbackup.py:301-304`):
  `BackupLimits.LeftOutSurvivesAtTheTop`, `ANestedExcludeIsLost`.
- A file that did not change but can no longer be read is still recorded by a take that
  carries hashes over; one that reads would skip it (`agent/worldbackup.py:164-169`):
  `BackupPromises.CarryOverReadsTheSame`, `BackupLimits.AHiddenFileIsRecorded`.
- When the event queue overflows during a post, the events popped are not the batch sent
  (`agent/events.py:77-78`), though counts still balance; and after an answer that is not
  heard, events are sent twice: `EventQueue.PoppedExactlyTheBatch`, `UnheardDuplicates`,
  `AnOverflowInFlight`.
- Averages are not kept by rolling up twice (`app/history.py:125-126`):
  `StatsRollup.AveragesNeedEqualSizes`, `AveragesOfGroups`, `AnAverageMoves`.
- `max_concurrent_boots` bounds slots, not servers starting (`agent/servers.py:521-524`
  says servers): a hold ends at `boot_timeout` with its server still starting, and a
  server re-attached with no slot free starts without one. `BootBounds.HoldEndsCovered`
  and `AdoptionEndsCovered` say exactly when, `NoMoreStartThanSlots` that otherwise the
  bound holds; `BootLimits.ASlowStartFreesItsSlot`, `AnAdoptionStartsBesides`.
- One server can hold two slots (`agent/servers.py:583`): only if it exited under an open
  hold, as in a restart. `BootLimits.TwoHoldsNeedAnExitUnderOne`, `ARestartHoldsBoth`.
- A stop that waits for the server's lock (a restore has it, `agent/servers.py:1110`) while
  the start it is to stop leaves the queue, and waits behind it, does nothing
  (`agent/servers.py:557-562`): `BootDoors.StopPassesByExactlyThoseBehind`, `AStopIsLost`.
- The third crash delay, 45 seconds, is never used: a third crash is not restarted
  (`agent/servers.py:818-827`): `CrashRestarts.CrashesAreCounted`.
- Protection is one level deep: only `server` items vote (`app/clientscan.py:475`), so what
  a kept mod requires can go: `ClientOverrides.WhatRemains`, `AKeptJarMakesNoDifference`,
  `AKeptJarLosesWhatItRequires`.
- A mod the operator blocked is not always disabled (`app/clientscan.py:407`, `:429`): it is
  kept when a staying mod requires it: `ClientOverrides.ABlockedJarIsKept`,
  `ABlockedJarStaysOn`.

## Model

| member | source | states |
|---|---|---|
| `ConsoleRelay.EveryRunKeeps` | app/console_hub.py:57-86 | over every run of node, connection, panel and viewers: every frame on the wire and in every viewer's queue carries on from, or restarts, what its reader shows |
| `ConsoleRelay.ViewersShowTheHistory` | app/console_hub.py:57-86 | whatever overflowed at either hop, a viewer that has read any part of its queue shows nothing yet or a contiguous run of one run's line history ending at its number; having read all of it, it shows exactly the feed's ring |
| `ConsoleRelay.QuietMeansCaughtUp` | agent/main.py:440-473 | with nothing left on the wire or in the follower's queue, the feed is the node's ring up to its newest line |
| `ConsoleRelay.OverflowIsRepaired` | agent/main.py:454-466 | a follower that lost a line always has another waiting, and the next frame sent is the ring afresh with its queue emptied |
| `ConsoleBounds.EveryRunIsBounded` | agent/servers.py:184-192 | over every run at most 5000 lines wait for a follower and 500 frames for a viewer, a frame has at most 200 lines and a ring 2000 |
| `ConsoleBounds.LinesAreLostExactlyWhenFull` | agent/servers.py:184-192 | a printed line waits for the follower, numbered, unless 5000 do, and is marked as lost exactly then |
| `ConsoleBounds.BatchesAreFull` | agent/main.py:446-467 | a batch is all that waits, up to 200 lines |
| `ConsoleBounds.ViewersAreDrainedExactlyWhenFull` | app/console_hub.py:57-64 | what the feed reads waits for each viewer as one more frame that brings it to the feed's view, unless 500 do: then the ring instead of them all |
| `ConsoleBounds.AReconnectCatchesUp` | app/console_hub.py:92-124 | from wherever a run has come to, a new connection and the one frame it opens with bring the feed to the newest line of the live run and the server's state |
| `ConsoleBounds.AViewerJoins` | app/console_hub.py:130-137 | a viewer that joins has the feed's ring waiting, or nothing before there is one |
| `ConsoleBounds.TheNoticeIsGiven` | app/console_hub.py:115-121 | the notice that the node does not answer waits for each viewer like any frame |
| `ConsoleStates.StateIsTheLastSent` | app/console_hub.py:70-86 | once the wire has been read the feed's state is the last one the node sent on that socket, and so is that of every viewer that has read its queue |
| `ConsoleStates.AViewersState` | app/console_hub.py:70-86 | whatever a viewer reads, its state is that of the last frame read that has one |
| `ConsoleFrames.EveryPrefixIsExact` | app/console_hub.py:70-86 | reading any prefix of a well-formed chain of frames leaves the reader with exactly the ring as it was at its number |
| `NodeConsole.OfferedIsGapless` | agent/servers.py:184-192 | a line offered to a follower leaves its queue gapless, or marks it overflowed |
| `NodeConsole.SentIsGapless` | agent/main.py:446-467 | a batch sent carries on without a gap from what was sent before, or is the ring; what remains queued carries on from it |
| `NodeConsole.Console.Feed` | agent/servers.py:184-192 | the ring is the last 2000 lines, numbered; every follower is offered the line, full queues refuse it, and each refusal is counted |
| `NodeConsole.Console.Since` | agent/servers.py:175-182 | the lines after a number, or the whole ring and a restart exactly when that number has left the ring, is negative or is ahead |
| `NodeConsole.Console.SendBatch` | agent/main.py:450-467 | up to 200 lines with the number of the last, or the ring and an emptied queue when a line was refused |
| `PanelFeed.TookStaysInStep` | app/console_hub.py:66-86 | whatever frame arrives, every viewer's queue still takes it from what it shows to the feed's ring |
| `PanelFeed.Refreshed` | app/console_hub.py:57-64 | a full viewer queue is replaced by one backlog that brings the viewer to the feed's ring at once |
| `PanelFeed.FeedObject.Give` | app/console_hub.py:57-64 | one frame into one viewer's queue, or the queue emptied and the backlog put in its place |
| `PanelFeed.FeedObject.Send` | app/console_hub.py:66-68 | the frame is given to every viewer |
| `PanelFeed.FeedObject.Take` | app/console_hub.py:70-86 | a frame from the node updates the ring, the number and the state, and reaches every viewer |
| `ConsoleHub.WatchedFeedsAreFollowed` | app/console_hub.py:130-159 | in every run, while the hub is not closing, each feed in it is followed by exactly one running task |
| `ConsoleHub.NobodyIsLeftBehind` | app/console_hub.py:142-159 | in every run without a close, a feed with viewers is in the hub and followed by exactly one task, however joins, leaves and ending tasks interleave |
| `ConsoleHub.LeftBehindExactlyByAClose` | app/console_hub.py:161-171 | in every run, a feed with viewers is in the hub (and followed, while the hub is not closing) if and only if it was opened since the last close ended |
| `ConsoleHub.LeftBehindForGood` | app/console_hub.py:142-171 | and the viewers of a feed that is out of the hub stay on it, out of the hub, whatever happens |
| `ConsoleHub.ViewersAreWhoJoined` | app/console_hub.py:130-148 | in every run, a feed's viewers are exactly those who joined it and have not left |
| `ConsoleHub.ATaskEnds` | app/console_hub.py:150-159 | in every run, a task that ends is gone; its feed is followed on exactly while somebody watches, leaves the hub when nobody does, and nothing else changes; while closing, nothing but the task goes |
| `ConsoleHub.Hub.Join` | app/console_hub.py:130-140 | a viewer joins, opening the feed and starting its task when there is none running |
| `ConsoleHub.Hub.EndTask` | app/console_hub.py:150-159 | a task that ends is replaced while its feed has viewers, and its feed leaves the hub otherwise |
| `BackupRuns.EveryRunIsSound` | agent/worldbackup.py:197-272 | after any run of takes, deletes, prunings and collections, every indexed readable manifest refers only to stored objects, each object hashes to its name, and no hash is stored both plain and packed |
| `BackupRuns.CollectedExactly` | agent/worldbackup.py:254-272 | collection leaves exactly the objects an indexed manifest refers to, and those whose file would not go |
| `BackupTakes.WhatATakeRecords` | agent/worldbackup.py:143-195 | of any store, folder and walk: each file not left out is entered with its size and time or was refused, at most 200 of those are named, new objects have the form asked for, and the snapshot is the newest and finished; nothing else changes |
| `BackupTakes.WhatADeletionRemoves` | agent/worldbackup.py:234-238 | that snapshot and its index entry, and nothing of the others; there being none, nothing |
| `BackupTakes.WhatARestoreLeaves` | agent/worldbackup.py:291-315 | of any store, manifest and folder: which refusal, each exactly when; otherwise every entered file with the bytes of its last entry, what is excluded at the top level (by the usual names if the manifest has none) and nothing else |
| `BackupRuns.RemovingLeavesOnlyWhatIsNeeded` | agent/worldbackup.py:234-252 | a delete, and a pruning that removed something, leave exactly the objects the remaining backups need |
| `BackupRuns.EveryRunIsFaithful` | agent/worldbackup.py:143-195 | after any run, each manifest still there lists exactly the readable, unexcluded files of the folder it was taken from, with their hashes |
| `BackupKills.EveryWriteIsSafe` | agent/worldbackup.py:143-272 | the writes of a take, delete, pruning or collection, one after another, make what the whole operation makes, and none of them ever takes an object from an indexed readable manifest |
| `BackupKills.EveryKilledRunIsSound` | agent/worldbackup.py:143-272 | after any run of operations, each killed between any two of its writes or not at all, every indexed readable manifest still has all its objects |
| `BackupKills.CollectionCleansUp` | agent/worldbackup.py:254-272 | and the next collection that runs to its end leaves exactly the objects those need |
| `BackupKills.EveryMismatchIsFromAKill` | agent/worldbackup.py:187-252 | a manifest that is not indexed, or an index entry with no manifest, is of a backup that some take or removal had in its hands when it was killed |
| `BackupPromises.RestoreGivesBackTheFolder` | agent/worldbackup.py:291-315 | restoring any still-indexed snapshot after any run, onto any folder, succeeds and gives back every readable unexcluded file byte for byte, keeps what is under an excluded top-level name, and leaves nothing else |
| `BackupPromises.RefusedBeforeAnythingMoves` | agent/worldbackup.py:291-300 | a restore is refused exactly when its manifest or one of its objects is missing, before anything changes, and is never stopped half way by a path in the way |
| `BackupPromises.CarryOverReadsTheSame` | agent/worldbackup.py:148-179 | when unchanged size and mtime mean unchanged bytes, taking with carried-over hashes gives the same store and manifest as reading every file, if and only if no unchanged file has become unreadable |
| `BackupPromises.CarryOverRefinesReading` | agent/worldbackup.py:148-179 | along a whole run in which no carried file turns unreadable, the store that carries over equals the store that always reads |
| `BackupPromises.EveryRunIsIndexed` | agent/worldbackup.py:78-95 | the index and the manifests on disk name the same snapshots after any run |
| `BackupPromises.PruningKeepsTheNewest` | agent/worldbackup.py:240-252 | after any run, keep_only keeps the newest `keep` finished backups in their order, and all of them when `keep` is 0 or less |
| `BackupLimits.LeftOutSurvivesAtTheTop` | agent/worldbackup.py:301-304 | of what is in the folder but not in the backup, excluded or skipped, a restore keeps exactly what is under an excluded top-level name |
| `BackupLimits.ANestedExcludeIsLost` | agent/worldbackup.py:301-304 | a run that shows it: a file under a nested exclude, in no backup, is gone after the restore |
| `BackupLimits.AHiddenFileIsRecorded` | agent/worldbackup.py:164-169 | a run that shows it: a file that can no longer be read is recorded by a take that carries over and skipped by one that reads |
| `BackupDisk.Disk.StoreFile` | agent/worldbackup.py:197-230 | a file is copied and hashed in chunks into the store, once, compressed or not; one already there is left alone |
| `BackupDisk.Disk.Take` | agent/worldbackup.py:143-195 | the walk is taken file by file, carrying over or storing, and the manifest and index are what the specification of a take says |
| `BackupDisk.Disk.Collect` | agent/worldbackup.py:254-272 | objects no manifest refers to are unlinked one by one, but for those whose file will not go |
| `BackupDisk.Disk.Delete` | agent/worldbackup.py:234-238 | a snapshot, its index entry and what only it needed are removed |
| `BackupDisk.Disk.KeepOnly` | agent/worldbackup.py:240-252 | all but the newest are removed and what only they needed is collected |
| `BackupDisk.ServerFolder.Restore` | agent/worldbackup.py:291-315 | objects are checked first, the top level is swept but for what is spared, then every file is written back |
| `StatsRollup.BucketsNest` | app/history.py:48-51 | a bucket of any multiple of 15 minutes is made of whole 15-minute buckets |
| `StatsRollup.RollingTwiceIsRollingOnce` | app/history.py:109-128 | for every multiple of 15 minutes, rolling up compacted rows gives the same groups in the same order as rolling up the raw rows, with the same samples, minutes up, player peak, player limit and memory limit |
| `StatsRollup.ChartsReadTheSame` | app/history.py:199-217 | and so does rolling up compacted rows followed by raw rows, which is what a chart reads |
| `StatsRollup.AveragesNeedEqualSizes` | app/history.py:117-127 | for any number of groups of given sizes, the average of their CPU averages is the average of their readings, whatever the readings, if and only if all groups with a reading are equally large |
| `StatsRollup.AveragesOfGroups` | app/history.py:117-127 | and for given readings, if and only if group size and group average have no covariance |
| `StatsRollup.AveragesNeedEqualGroups` | app/history.py:117-127 | of two groups it is, if and only if they are as large as each other or average the same |
| `StatsRollup.AnAverageMoves` | app/history.py:125-126 | an input that shows it: an average of 1.0 becomes 1.5 |
| `StatsRollup.Roll` | app/history.py:109-128 | the loop over rows gathers each server's bucket and totals it, in order of first appearance: one row for each that occurs, with the sums, peaks and averages of exactly its rows |
| `StatsRollup.RolledUp` | app/history.py:109-128 | rolled rows, by the rows alone: one for each server and bucket that occurs, sums of samples and minutes up, the greatest `online`, the greatest non-zero limits or none, the CPU readings' average and the non-zero memory readings' truncated one |
| `StatsRollup.BucketHolds` | app/history.py:48-51 | a moment's bucket is the one of its day that begins a whole number of buckets after midnight, not after it and less than a bucket's length before it |
| `StatsCompaction.SortedIsWhole` | app/history.py:139-161 | whatever batch was read, what a pass takes is all raw rows before some bucket edge not past the cutoff, and the last pass takes all of them |
| `CompactionRuns.EveryRunKeeps` | app/history.py:131-172 | any number of compactors with their own clocks, killed anywhere, and a recorder that never writes before a cutoff already passed: at every moment the table still comes, at the latest clock so far, to the clean table of everything recorded |
| `CompactionRuns.AnyInterleavingIsOneCleanRun` | app/history.py:131-172 | over runs of any length, whatever interleaved or died: once a compactor with the latest clock so far purges, the table is exactly what one clean run makes of everything recorded |
| `CompactionRuns.EveryReadingCounts` | app/history.py:59-70 | everything recorded means the table it began with and, at every other key, the first row recorded since, however long ago, and nothing else |
| `CompactionRuns.CleanIsIdempotent` | app/history.py:131-135 | running it again, then or at any later time, leaves what one run at that time would have |
| `CompactionRuns.ACompactorReads` | app/history.py:135-161 | a compactor starts by reading, and whatever batch it reads it then holds whole buckets, reads one bucket again, or has nothing more to roll up |
| `CompactionRuns.ACompactorRolls` | app/history.py:162-169 | what it holds it inserts rolled up and then deletes, and reads on or, after the last batch, purges |
| `StatsTable.RollingInserts` | app/history.py:59-70 | inserting what `_roll` makes of whole buckets, leaving present rows alone, inserts exactly the roll-up of each bucket |
| `StatsTable.StatsRows.Select` | app/history.py:139-144 | the oldest raw rows before the cutoff, at most a batch |
| `StatsTable.StatsRows.InsertRolled` | app/history.py:59-70 | the rolled rows are inserted where no row is |
| `StatsTable.StatsRows.Compact` | app/history.py:131-172 | for every batch size from 1 and every table: it terminates, leaves no one-minute row before the cutoff and none past keeping, and the table is the clean one |
| `BootQueue.NextKeeps` | agent/servers.py:518-589 | every step of start, queued start, stop, restart, launch, failure, timeout, deletion and adoption keeps: `queued` holds exactly the cancellable starts, one attempt per server lock, the line in order of arrival, no slot given back twice |
| `BootPromises.NoSlotIsLost` | agent/servers.py:518-589 | over every interleaving, free slots and held slots add up to max_concurrent_boots |
| `BootPromises.EveryAcquireIsReleasedOnce` | agent/servers.py:545-575 | each attempt acquires at most once, releases what it acquired exactly once and only at its end, and launches at most once, with a slot |
| `BootPromises.LaunchesAreBounded` | agent/servers.py:518-550 | never more container starts in flight than slots, and never two of one server |
| `BootPromises.NobodyOvertakes` | agent/servers.py:552-557 | while a queued start waits, nobody who came to the line later has had a slot |
| `BootPromises.NobodyWaitsForNothing` | agent/servers.py:535-544 | a start waits only while no slot is free, or while one is being handed on |
| `BootPromises.StoppedInTheQueueNeverLaunches` | agent/servers.py:760-769 | a start stopped while in the queue never launches, whatever happens later, even if a slot was already handed to it |
| `BootStops.AStopBegins` | agent/servers.py:760-775 | after any run, a stop, a restart or a restore of a running server that is not queued, its lock free: the server is stopping and the lock is with that request, whether it is to start it again or not |
| `BootStops.ARestoreBegins` | agent/servers.py:1110-1127 | a restore of a server that does not run has its lock too, and changes neither its state nor the queue |
| `BootStops.AStopGoesOn` | agent/servers.py:760-780 | in every continuation in which it has not ended, the lock stays with it, no start of the server is in its checks or its launch, and none has launched since |
| `BootStops.AStopEnds` | agent/servers.py:500-512 | up to its end nothing of the server is launched; then it is over with the lock free, or goes on to start the server with the lock: exactly when it was to and the server is gone and not queued |
| `BootStops.APlainStopStartsNothing` | agent/servers.py:760-780 | a plain stop is over with the lock free, and however the run goes on it never launches |
| `BootStops.EveryRunKeepsApart` | agent/servers.py:532-575 | over every run, nothing is in its checks or its launch while its server runs |
| `BootStops.LaunchesExactly` | agent/servers.py:532-575 | over every run, an attempt launches exactly when its checks pass with a slot in hand or free to it, and then once, with the server's lock, of a server that does not run and is then starting |
| `BootStops.TheQueuedGoOnExactly` | agent/servers.py:560-563 | a queued start that gets the lock goes on exactly if its server still waits in the queue and does not run, and gives its slot back otherwise |
| `BootStops.ARefusedStartEnds` | agent/servers.py:564-575 | a start whose checks fail is over: nothing launched, its slot back, the lock free, and offline if it came from the queue |
| `BootStops.DeletedInTheQueueNeverLaunches` | agent/servers.py:362-366 | a start taken out of the queue by a deletion never launches, whatever follows |
| `BootStops.AStopOfTheQueuedEnds` | agent/servers.py:760-767 | a stop of a queued server leaves it offline, out of the queue, and neither its lock nor what runs changed |
| `BootStretches.AStartBegins` | agent/servers.py:531-533 | in every state, a request to start a running or queued server comes to nothing, and for any other goes to its checks with the lock |
| `BootStretches.AStartIsQueued` | agent/servers.py:534-543 | checked with no slot to be had, it is over and a start of the server waits in the queue in its place |
| `BootStretches.AQueuedStartRuns` | agent/servers.py:552-557 | a queued start joins the end of the line, or has a slot at once and leaves the queue for the lock |
| `BootStretches.ARevokedStartGivesBack` | agent/servers.py:552-575 | one handed a slot after it was stopped gives it back and is over |
| `BootStretches.ALaunchSucceeds` | agent/servers.py:546-551 | a launch that succeeds leaves the server running, its lock free and the slot held |
| `BootStretches.ALaunchFails` | agent/servers.py:546-575 | one that fails leaves it offline, its lock free and the slot given back |
| `BootStretches.AnAdoptionEnds` | agent/servers.py:719-736 | a re-attached server runs, and holds a slot exactly if it still starts and one is to be had at once; one that is not is offline |
| `BootLimits.StopReachesExactlyTheQueued` | agent/servers.py:760-769 | of the starts of a server that are queued or on their way out of the queue, a stop that has the lock cancels exactly those still in `queued` |
| `BootLimits.StopTooLate` | agent/servers.py:557-564 | a stop that has the lock while the start waits for it changes nothing |
| `BootLimits.StartOutlivesTheStop` | agent/servers.py:557-564 | so the start it meant to stop still launches |
| `BootDoors.EveryNodeRunIsARun` | agent/servers.py:502-575 | with each server's lock had at once when it is free and in order of arrival when it is not, and a queued start out of the queue and at the lock in one stretch, every run of the node is a run of the boot queue, so all that holds of those holds of it |
| `BootDoors.EveryRunKeepsDoors` | agent/servers.py:552-562 | over every run of the node, the starts in line for a server's lock are exactly those of it that are out of the queue and have not had it, each once |
| `BootDoors.FirstComeFirstServed` | agent/servers.py:502-560 | whatever happens, a lock's line only loses its head or gains an end |
| `BootDoors.StopPassesByExactlyThoseBehind` | agent/servers.py:557-562 | over every run of the node, when a stop's turn for the lock comes it cancels every start of its server but those behind it in the line, which it leaves as they are |
| `BootDoors.AStopAtOnceReachesAll` | agent/servers.py:502-506 | a stop that need not wait for the lock reaches every start of its server |
| `BootDoors.AStopIsLost` | agent/servers.py:1110 | a run of thirteen events on one slot that shows it: a restore has the lock, a stop waits for it, the start leaves the queue and waits behind, and launches after the stop |
| `BootLimits.TwoSlotsForOneServer` | agent/servers.py:577-589 | a restart of a server under an open hold, with a slot free, that is up again within one look of the hold, makes it hold two slots |
| `BootLimits.TwoHoldsNeedAnExitUnderOne` | agent/servers.py:577-589 | the other way round: in every run, a server holds two slots only if it exited, earlier in the run, while a hold of it was open |
| `BootLimits.ARestartHoldsBoth` | agent/servers.py:577-589 | a run of eight steps on two slots after which one server holds both |
| `BootLimits.ASlowStartFreesItsSlot` | agent/servers.py:583-589 | a run after which every slot is free while a server still starts |
| `BootLimits.AnAdoptionStartsBesides` | agent/servers.py:718-733 | a run on one slot after which two re-attached servers start and only the first has a slot |
| `BootBounds.HoldEndsCovered` | agent/servers.py:580-588 | a hold that ends leaves its server starting without a slot if and only if the server is still starting (boot_timeout has passed) and no other attempt of it boots |
| `BootBounds.AdoptionEndsCovered` | agent/servers.py:727-733 | a re-attached server starts without a slot if and only if it is still starting while no slot is free or somebody is ahead, and no other attempt of it boots |
| `BootBounds.EveryStartIsCovered` | agent/servers.py:518-589 | in every run without such a step, each starting server has an attempt that launches, holds a slot or re-attaches it |
| `BootBounds.NoMoreStartThanSlots` | agent/servers.py:521-524 | so in every such run no more servers start at once than max_concurrent_boots, those just being re-attached aside |
| `BootSupervisor.Supervisor.constructor` | agent/servers.py:266-271 | at least one slot, all free |
| `BootSupervisor.Supervisor.WakeNext` | agent/servers.py:552-557 | a free slot goes to the head of the line |
| `BootSupervisor.Supervisor.BeginStart` | agent/servers.py:531-533 | a start of a server running or queued does nothing; any other goes to its checks with the lock held |
| `BootSupervisor.Supervisor.CheckedStart` | agent/servers.py:533-550 | refused, queued when no slot is free or somebody is ahead, or launched with a slot |
| `BootSupervisor.Supervisor.ResumeQueued` | agent/servers.py:552-557 | a queued start joins the line, takes a slot, or gives back one it was cancelled with |
| `BootSupervisor.Supervisor.LockQueued` | agent/servers.py:559-562 | out of the queue and with the lock, it gives up if the server is not queued any more or runs |
| `BootSupervisor.Supervisor.CheckedQueued` | agent/servers.py:563-570 | it launches, or reports why not and gives its slot back |
| `BootSupervisor.Supervisor.EndLaunch` | agent/servers.py:545-575 | a launch that worked keeps its slot, one that failed gives it back |
| `BootSupervisor.Supervisor.EndHold` | agent/servers.py:577-589 | a hold that ends gives its slot to the next in line |
| `BootSupervisor.Supervisor.CancelQueued` | agent/servers.py:761-764 | a queued start is taken out and cancelled, in the line or holding a slot it has not used |
| `BootSupervisor.Supervisor.BeginStop` | agent/servers.py:760-774 | a stop cancels a queued start, begins stopping a running server, or does nothing; a restart goes on to start |
| `BootSupervisor.Supervisor.EndAdoption` | agent/servers.py:718-733 | a re-attached server takes a slot only if it is still starting, one is free and nobody is ahead |
| `BootSupervisor.Supervisor.Run` | agent/servers.py:490-589 | whichever stretch of these methods comes next, it keeps the invariant and is the step of the state machine, so every promise over runs holds of the fields |
| `BootSupervisor.Locks.Run` | agent/servers.py:502-575 | with the lines for the locks, whatever comes next keeps the invariant and is the event of the node |
| `BootSupervisor.Locks.ResumeStart` | agent/servers.py:552-562 | a start that leaves the queue has its server's lock at once if it is free, and goes to the end of its line if not |
| `CrashRestarts.CrashesAreCounted` | agent/servers.py:813-828 | with a clock that never goes back, remembering ten crashes decides as remembering all would: restart the first and second crash in ten minutes, after 5 and 15 seconds, and no third |
| `CrashRestarts.AtMostTwoRestartsInAWindow` | agent/servers.py:803-834 | any three automatic restarts span at least the crash-loop window |
| `CrashRestarts.WhichExitsAreCrashes` | agent/servers.py:796-815 | over every run, in the exit's own fields: a stop if asked for, a clean stop exactly of a server that was up, not out of memory, with a code it counts as clean, and a crash otherwise; only crashes are remembered, the last ten |
| `CrashRestarts.ForgettingIsHarmless` | agent/servers.py:213 | forgetting all but ten crash times never makes a count of three or more look smaller than three |
| `CrashRestarts.Server.Exited` | agent/servers.py:782-834 | an exit is a stop that was asked for, a clean stop of its own, a crash with or without a restart, or a crash loop |
| `GamePorts.NextFreePort` | agent/servers.py:432-451 | the best free port of the range, else of above it, else of below it: one no other server is set to if there is one, the nearest of those; None exactly when 1024 to 65535 is all taken |
| `GamePorts.OneChoice` | agent/servers.py:432-451 | that description fits exactly one answer |
| `GamePorts.Server.ChoosePort` | agent/servers.py:457-477 | a port that is free is kept; a taken one is moved to the best free one |
| `GamePorts.Server.Launched` | agent/servers.py:627-663 | a launch with an automatic port moves on at most five times, each time to the best port free of what is held and refused by then, never to one any bind so far was refused on, and only while binds are refused; what it reports, and the next free port with it |
| `GamePorts.NoPortTwice` | agent/servers.py:647-656 | when each refusal names the port tried, no port is tried twice |
| `CacheClaims.ClaimedKeeps` | agent/downloads.py:139-150 | a claim keeps the counts right and everybody who wants a file on one lock |
| `CacheClaims.LeftKeeps` | agent/downloads.py:139-150 | so does a claim that ends, from inside the lock or from the wait for it |
| `CacheClaims.OneInsideEach` | agent/downloads.py:139-150 | two claims inside at once are for two different files |
| `DownloadRuns.NextKeeps` | agent/downloads.py:196-285 | every step of a fetch, and everything the rest of the node does to the cache and its claims, keeps claims, folder and progress in agreement |
| `DownloadRuns.NothingUnverifiedLands` | agent/downloads.py:409-425 | whatever is done to the cache meanwhile, every file in the folder is one of the list's with its stated size and SHA-1, and every file counted as fetched is there |
| `DownloadRuns.OneDownloadPerFile` | agent/downloads.py:265-285 | two downloads in flight at once are of different hashes |
| `DownloadRuns.ClaimsAreCounted` | agent/downloads.py:139-150 | at every moment the count kept for a hash is the number of claims open on it, its lock is kept exactly while it is positive, and the gate holds |
| `DownloadRuns.FetchedAndFailedMakeRequested` | agent/downloads.py:215-247 | when all are settled, downloaded, cached and failed add up to the files requested and no claim is left |
| `DownloadPromises.AGoodDownloadIsUsed` | agent/downloads.py:276-288 | after any run, a download whose first decisive attempt of four is good puts that attempt's body in the cache and the file goes on to its copy |
| `DownloadPromises.FilesFailForAReason` | agent/downloads.py:263-291 | over every run, a file has failed exactly if it may only come from a cache that has no copy of its size, no attempt of a download was any good, its copy was refused, or a second copy was bad or gone |
| `DownloadPromises.WhatNothingBefellIsPlaced` | agent/downloads.py:209-291 | in every run in which none of that befell it, a settled file is in the folder with its stated size and SHA-1, counted as downloaded exactly when its last pass downloaded it |
| `DownloadPromises.LookComesTo` | agent/downloads.py:272-280 | a cached copy of the right size is used and nothing is downloaded; without one, and unless it may not be, it is downloaded |
| `DownloadPromises.CopyComesTo` | agent/downloads.py:281-291 | a verified copy lands; another is dropped from the cache and the file is fetched once more, but once only |
| `DownloadPromises.TurnComesTo` | agent/downloads.py:213-217 | a file's turn comes while fewer than the gate lets through are under way, and it goes on once its lock is free |
| `DownloadRuns.Receive` | agent/downloads.py:345-363 | a body is taken exactly when all of it has the stated size and SHA-1, however it is chunked, and no more than that size is ever written |
| `DownloadRuns.DownloadFile` | agent/downloads.py:288-301 | one to four attempts are made, none after an answer that is final, and fewer than four only after one that is |
| `DownloadRuns.FirstGoodTry` | agent/downloads.py:288-301 | a body comes back if and only if some attempt is good with none before it good or final, and it is that attempt's |
| `DownloadCache.Cache.Claim` | agent/downloads.py:139-143 | a claim makes or shares the file's lock and is counted |
| `DownloadCache.Cache.Leave` | agent/downloads.py:146-150 | the last claim to leave takes the count and the lock with it |
| `DownloadCache.Cache.Has` | agent/downloads.py:152-161 | a file of the right size is there and its time refreshed; one of the wrong size is dropped |
| `DownloadCache.Cache.Prune` | agent/downloads.py:169-193 | oldest first, never a file claimed when its turn comes, stopping exactly when the cache fits or the rest is claimed or undeletable; the bytes freed are those gone |
| `EventQueue.NothingIsUncounted` | agent/events.py:41-82 | at every point of every run, emitted = sent + dropped + queued |
| `EventQueue.DeliveredInOrder` | agent/events.py:56-82 | when the panel takes a batch exactly when the flush hears so, it has a duplicate-free in-order part of what was emitted, as long as the count sent |
| `EventQueue.ReportsAddUp` | agent/events.py:59-79 | the drops told to the panel add up to dropped_reported, never above dropped |
| `EventQueue.OnePostAtATime` | agent/events.py:58-81 | over every run, a post is out from a flush that finds something queued to its answer, with the oldest 500 at most and every drop not told yet; the panel has both unless it refused |
| `EventQueue.FailuresAreInVain` | agent/events.py:68-81 | `failures` counts the posts in vain since the last accepted one |
| `EventQueue.UnheardDuplicates` | agent/events.py:70-76 | when the panel took a batch but the flush heard an error, the next flush sends again what of the batch the queue has not dropped; with distinct events, something arrives twice if and only if fewer events were dropped meanwhile than the batch has |
| `EventQueue.PoppedExactlyTheBatch` | agent/events.py:77-78 | the events popped after an answer are the batch moved on by what was dropped while it was out, so of distinct events the batch sent if and only if nothing was |
| `EventQueue.AnOverflowInFlight` | agent/events.py:77-78 | a run of 5001 events that shows it: the 500 at the head of the queue, which an accepted answer pops, are not the 500 sent, the first of which is no longer queued |
| `EventQueue.Events.Emit` | agent/events.py:41-46 | an event is appended, the oldest dropped and counted when the queue is full |
| `EventQueue.Events.BeginFlush` | agent/events.py:56-59 | up to 500 events and the unreported drops go into the post |
| `EventQueue.Events.EndFlush` | agent/events.py:68-82 | accepted: as many are popped as were sent, and counted; refused or failed: nothing is |
| `FolderPaths.PartsAreNames` | agent/files.py:75-89 | a path that is let through is a list of plain names: no dot-dot, no separator, no null |
| `FolderPaths.NamesReadBack` | agent/files.py:75-89 | a list of names, joined, reads back as itself if and only if it has no spaces at its ends and does not look like a drive |
| `FolderNames.WhichPathsPass` | agent/files.py:74-89 | every path but the empty one (the folder itself) is refused exactly for a null byte, for being absolute or on a drive, or for a "..", in that order, and otherwise comes to exactly the names between its slashes, in order |
| `FolderNames.WhichNamesPass` | agent/files.py:92-98 | a name is what is left of it without the spaces at its ends, unless that is nothing, not a single name, only dots, or longer than 255 |
| `FolderNames.WhatFits` | agent/files.py:655-668 | an archive fits exactly if it unpacks to no more than there is room for and to no more than 200 times its size or 64 MiB |
| `FolderPaths.CheckArchive` | agent/files.py:644-667 | an archive is accepted exactly when every member stays inside and is no link, and the whole is within the limit and the ratio |
| `FolderJail.Disk.OpenDir` | agent/files.py:112-121 | a folder opened by name from a folder of the tree is one of the tree's, whatever the other process swapped in |
| `FolderJail.Disk.Walk` | agent/files.py:112-140 | every folder the walk opens or makes is the tree's own, every call is on the tree's own folders, no folder outside changes; undisturbed, it ends at the folder the path names, and without create it fails exactly when there is none |
| `FolderJail.Disk.Place` | agent/files.py:244-257 | the temp file and the rename stay in that folder; undisturbed, the entry is the new content and nothing else changes, or nothing changed at all |
| `FolderJail.Disk.WriteFile` | agent/files.py:205-270 | the same for a whole write by path: a temp file beside, renamed in, or nothing |
| `FolderJail.Disk.MakeFolder` | agent/files.py:399-406 | a folder and the missing ones above it are made inside the tree |
| `FolderJail.Disk.Extract` | agent/files.py:670-697 | an archive is refused exactly when a member or the whole breaks a rule, before any call; otherwise everything it writes stays inside the tree |
| `AttachStream.DemuxInvertsEncoding` | agent/containers.py:377-392 | parsing an encoded list of frames followed by an incomplete one gives the frames back and leaves the rest in the buffer |
| `AttachStream.ParsingGoesOn` | agent/containers.py:377-392 | parsing in pieces, keeping what is left over, is parsing the whole |
| `AttachStream.NothingIsLost` | agent/containers.py:377-392 | every byte received is in a frame or still in the buffer, which holds no whole frame |
| `AttachStream.LinesAreTheText` | agent/containers.py:643-646 | the lines and the tail are the text cut at its newlines and nowhere else |
| `AttachStream.ChunksDoNotMatter` | agent/containers.py:633-646 | for any encoded stream cut off anywhere, the lines shown are the newline-terminated lines of the concatenated payloads |
| `AttachStream.WhatIsWrittenIsShown` | agent/containers.py:632-645 | of any frames and part of another: the lines shown and the text pending are all that the frames wrote, cut at its newlines and nowhere else |
| `AttachStream.Pump.Demux` | agent/containers.py:377-392 | whole frames are taken off the front of the buffer in place |
| `AttachStream.Pump.Read` | agent/containers.py:636-646 | after any chunk, what has been shown, the pending text and the buffer depend only on the bytes received so far |
| `ContainerSpec.BuilderMeetsChecker` | agent/containers.py:137-320 | for every accepted server record and add-on list, the server's body and the installer's body pass the checker if and only if the node's settings and folder are sane |
| `ContainerSpec.WhatIsBuilt` | agent/containers.py:137-190 | for every record and node: exactly the game port on tcp and udp and the add-ons' keys, each on the node's address under its own number; memory hard without swap or soft as a reservation, CPU, shares and weight within their bounds; its own user, folder and network. An installer: as limited, no port, no input |
| `ContainerRules.CheckerNamesTheFirst` | agent/containers.py:234-325 | for every body, node and folder: the checker lets a body through exactly when it breaks none of the rules, each stated of the body's fields, and names the first one broken otherwise |
| `ContainerSpec.OwnFoldersFit` | agent/containers.py:285-294 | on a servers_root apart from the forbidden paths, every server's own folder is accepted |
| `ContainerSpec.Detect` | agent/addons.py:158-186 | the first eight, in order, of the distinct add-on ports from 1024 up that are none of the game port's, and all there are when there are fewer |
| `ContainerSpec.Retry` | agent/containers.py:587-623 | each start after a refused add-on port has fewer add-on ports, so it ends; every body sent has passed the checker; the game port is never dropped; how the last start ended is what is reported |
| `ContainerSpec.Begin` | agent/containers.py:583-625 | on a sane node the checker never stops a start, however many add-on ports are dropped; on any other nothing is started; it is up exactly if Docker started the last body, which publishes exactly the game port and the add-ons not refused and is limited and confined as built |
| `ClientOverrides.ApplyOverrides` | app/clientscan.py:400-501 | the four passes in place come to the specification: decisions, renderers, the least set of names gone, protection |
| `ClientOverrides.SwitchOffWhatNeedsThem` | app/clientscan.py:456-473 | the changed-until-stable loop ends, and what it switches off is the least fixpoint over items neither allowed nor already client |
| `ClientOverrides.OrderDoesNotMatter` | app/clientscan.py:456-473 | in any order of the items, each comes out the same |
| `ClientOverrides.VerdictsAre` | app/clientscan.py:400-501 | each item's verdict after the whole pass, said of the scan, the decisions and the names gone alone |
| `ClientOverrides.RequiredJarsStay` | app/clientscan.py:475-501 | afterwards, another-named provider of a staying mod's hard dependency stays if and only if it is not a never-on-server item, which only an operator-allowed mod can still require |
| `ClientNames.RequiredNamesStay` | app/clientscan.py:439-442 | and so by the names written in the jars: a dependency that lowers to the mod id or to one of the provided names |
| `ClientNames.WhoIsNamed` | app/clientscan.py:475-501 | a kept mod names exactly the mods, staying of their own and listed otherwise, that require one of its names |
| `ClientNames.GoneByAChain` | app/clientscan.py:444-472 | a name is gone if and only if a chain of requirements leads from a renderer that is not allowed, through mods neither decided nor client already, to a mod of that name |
| `ClientNames.WhatElseComesOut` | app/clientscan.py:418-437 | the operator's decision and nothing else of the record is changed; a mod that does not remain is client-only, unless it was under review, undecided and in need of nothing gone |
| `ClientOverrides.WhatRemains` | app/clientscan.py:475-501 | a mod remains if and only if it stays of its own, or it may stay and some mod of another name that stays of its own requires it |
| `ClientOverrides.AKeptJarMakesNoDifference` | app/clientscan.py:475-501 | with a kept mod out of the scan every other mod comes out the same: what it requires is not protected on its account |
| `ClientOverrides.AKeptJarLosesWhatItRequires` | app/clientscan.py:475-501 | a scan of three mods after which a kept one has lost what it requires |
| `ClientOverrides.ABlockedJarIsKept` | app/clientscan.py:425-431 | a mod the operator blocked is kept if and only if it is no renderer and some mod of another name that stays of its own requires it |
| `ClientOverrides.ABlockedJarStaysOn` | app/clientscan.py:425-431 | a scan of two mods that shows it |
| `SignInThrottle.StoredFailuresStayBelow` | app/auth.py:626-633 | stored failures stay in 0 to 7 over any run |
| `SignInThrottle.AtMostEightWrongOnes` | app/auth.py:609-654 | for any mix of passwords, codes and recovery codes, attempts less than the lockout apart with no full sign-in, unlock or new password between them: at most eight wrong ones are looked at, counting those already stored |
| `SignInOutcomes.WhoGetsIn` | app/auth.py:609-654 | over every run, in the row's own fields: who gets in, half way in, is wrong, locked out or turned away, each if and only if; with two-factor on only by a stored recovery code or a fresh code of a nearby step, without it only by a right password; and what is left of the row |
| `SignInOutcomes.WhoSettles` | app/access.py:233-345 | over every run, two-factor is set up, turned on or off, or given new recovery codes exactly by a right password and a good code as each needs, to exactly that; a refusal changes nothing |
| `SignInOutcomes.WhatElseHappens` | app/auth.py:461-488 | an unlock or a new password forgets failures and lock-out and nothing else; disabling changes nothing else |
| `SignInThrottle.RightPasswordsBuyNothing` | app/auth.py:639-643 | with two-factor on, right passwords can be left out of any run without changing the row: they never reset the count |
| `SignInThrottle.LockedMeansUntouched` | app/access.py:382-385 | while locked, nothing tried is looked at or changes the row |
| `SignInThrottle.CodeIsOfANewStepNearby` | app/access.py:129-144 | a code is taken exactly when it is that of one of the three steps around now and later than the last one taken, and counts as the latest such step |
| `SignInThrottle.CodesWorkOnce` | app/access.py:275-290 | over the whole life of an account, steps taken for a secret strictly increase, and every recovery code issued is either left or spent, as often as it was issued |
| `SignInThrottle.User.MatchTyped` | app/access.py:129-144 | every candidate is compared and the last match stands |
| `SignInThrottle.User.CheckSecond` | app/access.py:275-290 | a recovery code is deleted, or the step recorded, exactly when the code is right |
| `SignInThrottle.User.Authenticate` | app/auth.py:609-654 | one password attempt: locked, wrong and counted, half way in exactly with two-factor on, or in exactly without it |
| `SignInThrottle.User.FinishLogin` | app/access.py:363-401 | one code attempt: refused, locked, wrong and counted, or in |
| `SignInThrottle.User.TurnOn` | app/access.py:254-272 | two-factor is turned on by a code of its secret, which is spent |
| `SignInThrottle.User.TurnOff` | app/access.py:293-307 | it is turned off by a right password and a right code, and everything of it is cleared |
| `SignInThrottle.User.RegenerateCodes` | app/access.py:310-325 | new recovery codes replace the old by a right password and a right code |

## Left out

- HTTP routes, websockets, Docker calls, TLS and the database engine: their outcomes are parameters or steps; a `db.session()` block is one atomic step, a table is a map with its unique key.
- SHA-256 is taken as injective, SHA-1 and HOTP as functions, zlib as lossless; password hashing, JWT, Fernet and the challenge's MAC are parameters that say whether a check passed.
- BackupDisk.Disk.Take: does not record file modes, restore modes or mtimes, count bytes, or keep empty folders.
- BackupDisk.Disk.StoreFile: how many bytes a compressed object takes is not given.
- BackupDisk.Disk.Collect: does not count the bytes freed.
- BackupDisk.ServerFolder.Restore: a file operation that fails half way through is not modelled; the store, not the server's folder, is what a failure leaves whole.
- StatsRollup.Roll: CPU averages are exact reals, not rounded to two decimals; memory averages are truncated as in the code.
- StatsTable.StatsRows.Compact: rows are deleted by their unique key rather than by row id, in one statement rather than in chunks of 500.
- The console's statistics frames carry only the state; command input, token checks and the requested backlog size (the panel asks for all of it) are not modelled.
- ConsoleHub.WatchedFeedsAreFollowed: says nothing while the hub is closing; a viewer that joins during a close is not followed up.
- BootSupervisor.Supervisor.ResumeQueued: the semaphore is CPython's as of 3.12, one waiter woken for each slot; a resumed waiter wakes the next while a slot is free.
- BootSupervisor.Supervisor.EndHold: a hold may end at any time, which covers the quarter-second poll, the state it polls and the timeout.
- BootDoors.EveryNodeRunIsARun: a restore looks whether its server runs when it has the server's lock, not after the wait for the backups' lock as well; nobody gives up waiting for a lock; and adoptions may come at any time, though the node has them before it serves anything.
- BackupKills.EveryKilledRunIsSound: a file is moved into place whole or not at all; the temporary files a kill leaves behind are not modelled.
- A server deleted and created again under the same id while an older start is still waiting for its lock; the `kill` and `switch` actions, which are a container kill and a stop followed by a start.
- Memory overcommit, the startup command and the port conflicts between servers are whether a check passes.
- CompactionRuns.EveryRunKeeps: a reading recorded more than two days after its minute is not a step; `record` writes the minute it is called in.
- StatsRollup.AveragesOfGroups: of CPU only; memory averages are truncated to whole bytes at each rolling as well.
- DownloadRuns.NextKeeps: a fetch that is cancelled as a whole is not modelled, only claims of others that are; hosts, redirects and back-off times are part of how an attempt ends.
- DownloadCache.Cache.Prune: who is claimed when a file's turn comes is a parameter, since claims go on between two files; unlinking a file is one step; reading it while it is unlinked is the copy that finds it missing or damaged.
- check_entries: only that it refuses a path listed twice is used.
- FolderJail.Disk.WriteFile: whether an inode has other hard links, and whether the disk is willing, are answers given to each call; what a read serves is not modelled.
- The Windows branches of `agent/files.py`, and its move, copy, delete, chmod, search and compress.
- AttachStream.Pump.Read: lines are bytes; decoding them as UTF-8 and stripping a trailing carriage return are per line and not modelled.
- ContainerSpec.BuilderMeetsChecker: published ports are numbers, the CPU limit is exact, and the body's fields no rule reads (labels, environment, image, logging, CPU pinning) are left out; the checker's tolerance of spaces and upper case in options, which the builder never writes, too.
- ContainerSpec.Detect: how each add-on's port is read from its config is a parameter.
- ClientOverrides.ApplyOverrides: the reasons and confidence shown to a person, and the cut of the protectors' names to five, are left out; the scores, the operator's list and the list of renderers are parameters.
- SignInThrottle.User.Authenticate: times are exact reals; the database keeps microseconds. Sessions and the decoy hash for unknown users are not modelled.
- `agent/runtime` processes, players and pings, installs, fleet groups, caches, the status page, configuration files, heap sizing, dependency and update checks, and the rest of the panel: they would add only easy members.
