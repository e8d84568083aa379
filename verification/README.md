# A2A Superhub: a Dafny model of its durable protocols

The project models the state that A2A Superhub keeps on disk and proves what its protocols promise about it. Each SQL
transaction and each atomic file replacement is one step, and a crash may fall between any two steps. A run is any
sequence of steps; the main results speak of every state of every run.

Three kinds of member do the work:

- *Functions* say what one transaction does to the tables (`Ledger.Generate`, `NoteIndex.Upsert`, `Upload.Commit`, ...).
- *Classes* run the same transactions in place, with the source's loops, and every method is proved to take the state
  where its function takes it (`LedgerStore`, `IndexStore`, `NoteService`, `HubStore`, `TaskLogger`, `RetentionManager`,
  `MemoryWatcher`, `ArtifactStore`).
- *Lemmas* prove the promises about those functions and about runs of steps.

| part | modules |
|---|---|
| notes and routing | `Notes` |
| delivery ledger, cursors, acknowledgement, migration | `Ledger`, `LedgerInvariant`, `LedgerMigration`, `LedgerRuns`, `LedgerTheorems`, `LedgerInbox`, `LedgerStore` |
| note files, job queue, derived index | `NoteIndex`, `IndexSync`, `IndexTheorems`, `IndexConvergence`, `IndexRuns`, `IndexStore` |
| idempotent creation and delivery over index and ledger | `NoteCreation`, `CreationRuns`, `SyncRecovery`, `NoteService` |
| tasks, terminal outbox, task logs | `Tasks`, `HubStore`, `TaskLog`, `TaskLogger` |
| recoverable retention and its acknowledgement gate | `Retention`, `RetentionManager`, `RetentionGate` |
| watcher queue and convergence loop | `Watcher`, `WatcherLoop`, `MemoryWatcher` |
| resumable upload | `Upload`, `UploadRuns`, `ArtifactStore` |
| chunking, wakeup packing, timeline and graph | `Chunker`, `Wakeup`, `WakeupInbox`, `Views`, `NoteGraph` |

Conventions. A hash is the value it was taken of, so it is injective. An artifact id, which keeps half of a digest,
may collide; a task-log note id, which also keeps half, and the path locator of a job, which keeps a quarter, are taken
as injective. Names, ids and texts that the code only compares are numbers. Clocks, random ids, the order in
which SQLite visits groups, and the AUTOINCREMENT numbers that ignored inserts use up are inputs, so the results hold
for all of them. Fields marked as history (what a page scanned, which notifications a path had, which bytes were
accepted first) are never read by a step. `dafny verify dfyconfig.toml` checks the whole project.

## Where a promise has an exact condition

- *The two delivery models.* A delivery that came with the v3 migration can gain a reason when its note is first
  evaluated afterwards. Its logical row keeps the old sequence, so v1 may show the new reason row while v2 counts the
  delivery as read. The models agree on a delivery exactly when that did not happen (`UnreadAgreesUnlessReasonGained`),
  it happens exactly as `ReasonGainedWhen` says, and `ReasonGainedExample` is one such run.
- *Incremental synchronisation.* `notes.relative_path` is unique and rows of removed notes are deleted last, so a note
  that moved to a path another row still holds cannot be indexed before that row moves. Synchronising ends with the
  rebuilt table exactly when the pending jobs can be scheduled around this (`SyncEqualsRebuildIffScheduled`); with no
  path reused they always can (`SyncEqualsRebuild`). Repeated on unchanged files, one round more than there are changed
  notes ends with the rebuilt table if and only if no notes exchanged their paths in a ring
  (`RepeatedSyncConvergesIffNoRing`); `ExchangedPathsNeverConverge` and `SwapExample` are the other side.
- *A synchronisation that stopped before its evaluations* leaves notes indexed that nobody was told about. Later
  synchronisations of the same process evaluate a note if and only if its manifest entry still differs
  (`RetriesDeliverIffUnindexed`, `StoppedSyncExample`); the next start makes up for all of it (`StartDelivers`).
- *A rebuild* fails as a whole exactly when a valid note repeats a relation (`RebuildIsExact`).
- *A wakeup whose inbox page leaves rows behind.* Only a v2 result has `hasMore`, so a v1 envelope that shows every
  candidate is not marked truncated (`TruncatedIsExactIff`, `V1HidesTheRest`, `HiddenPageUnderEachModel`).
- *A completed upload whose manifest was trashed* keeps its blob but serves nothing, and a repeated commit finds the
  artifact missing, until a manifest of its digest is in place again (`CompletedServesForever`, `RestoreUndoesTrash`).
- *A commit that crashed while removing its chunk directory* is completed: a repeated commit replays the manifest and
  leaves the remaining chunk files behind (`CompletedServesForever`, `CommitResumes`).

## Model

| member | source | states |
|---|---|---|
| `LedgerTheorems.NoGapBelowWatermark` | src/a2a_superhub/memory.py:1454-1626 | In every run, each logical delivery for a consumer's principal at or below its watermark and above the one it started from was scanned by a page whose cursor that consumer acknowledged. |
| `LedgerRuns.PageIsExact` | src/a2a_superhub/memory.py:1454-1466 | A page scans exactly the rows between the old watermark and its sequence: none is skipped by the limit or by hidden notes. |
| `LedgerInbox.PageIsFull` | src/a2a_superhub/memory.py:1453-1464 | A page holds as many unread rows as its limit, at least 1 and at most 100, allows. |
| `LedgerInbox.AckConsumesThePage` | src/a2a_superhub/memory.py:1454-1626 | Fetching and acknowledging leaves unread exactly what the page did not scan. |
| `LedgerInbox.ReadingWritesReceipts` | src/a2a_superhub/memory.py:1479-1614 | A fetch and its acknowledgement write a receipt for exactly what was read: under v2 each readable delivery the watermark moved over, under v1 each with a readable reason row moved over and its own sequence reached; earlier receipts stay. |
| `LedgerRuns.IssuedIsShown` | src/a2a_superhub/memory.py:1479-1510 | Whatever comes between reading a page and issuing its cursor, the cursor's items are exactly the readable deliveries between the page's two positions. |
| `LedgerInbox.InboxDrains` | src/a2a_superhub/memory.py:1437-1626 | Repeated fetches and acknowledgements, whatever notes each may see, leave nothing unread exactly when their pages have room for all of it. |
| `LedgerRuns.ExactStays` | src/a2a_superhub/memory.py:1145-1161 | No later row is born inside an interval that a page covered. |
| `LedgerRuns.AckNoGap` | src/a2a_superhub/memory.py:1547-1624 | Acknowledging any cursor, stale, repeated or out of order, under either model leaves no gap below the shared watermark. |
| `LedgerRuns.RunsKeep` | src/a2a_superhub/memory.py:518-712 | Every step of every run, restarts included, keeps the whole ledger invariant. |
| `LedgerTheorems.WatermarksRise` | src/a2a_superhub/memory.py:1551-1624 | Watermarks never fall, never pass the highest allocated sequence, and cursors of unknown purpose do not raise them. |
| `LedgerTheorems.NeverBornRead` | src/a2a_superhub/memory.py:1120-1161 | A new logical delivery lies above every watermark of every consumer. |
| `LedgerTheorems.OnlyEvaluationsDeliver` | src/a2a_superhub/memory.py:1101-1215 | Reads, cursors, acknowledgements and restarts add no delivery, alias, reason or route. |
| `LedgerTheorems.UnreadAgreesUnlessReasonGained` | src/a2a_superhub/memory.py:1146-1161 | For every watermark v1 and v2 agree that a delivery is unread if and only if it did not gain a reason after the migration. |
| `LedgerTheorems.ReasonGainedWhen` | src/a2a_superhub/memory.py:1029-1073 | The exact step at which a migrated delivery gains a reason. |
| `LedgerTheorems.ReasonGainedExample` | src/a2a_superhub/memory.py:1147-1161 | A reachable state in which the two models disagree. |
| `LedgerTheorems.ReceiptsAreEarned` | src/a2a_superhub/memory.py:1560-1614 | A receipt exists only for a delivery addressed to that principal, at or below that consumer's watermark, shown on a page it acknowledged. |
| `LedgerTheorems.AcknowledgeReceipts` | src/a2a_superhub/memory.py:1558-1614 | An acknowledgement adds exactly the receipts its page earns: none when stale, none for a v1 row whose logical sequence is not reached. |
| `LedgerTheorems.FrozenRoutes` | src/a2a_superhub/memory.py:1029-1073 | Without migrated rows, the deliveries and reasons of a note are for ever exactly the targets of its first evaluated version, even when that is empty. |
| `Notes.TargetsAre` | src/a2a_superhub/memory.py:1020-1027 | A version's targets: never its author; others because it is about them, directed to them, or a handoff directed to them. |
| `LedgerTheorems.ToldForEver` | src/a2a_superhub/memory.py:1020-1073 | In every run, for ever after a note's first evaluation, its reason rows are exactly those of its first version: about, direct, handoff, and none for its author. |
| `LedgerTheorems.DeliveredToForEver` | src/a2a_superhub/memory.py:1020-1161 | Its logical deliveries go to exactly the principals it is about or directed to, never to its author. |
| `LedgerTheorems.ConflictIsRecordedOnce` | src/a2a_superhub/memory.py:1029-1064 | A later version with other routes changes no route; the first such version is recorded as the conflict, later ones are not. |
| `LedgerTheorems.SnapshotStaysForever` | src/a2a_superhub/memory.py:1029-1073 | Recorded routes survive every later step. |
| `LedgerInvariant.RegenerateChangesNothing` | src/a2a_superhub/memory.py:1101-1215 | Evaluating a note again, in any version, adds and changes no delivery. |
| `LedgerInvariant.GenerateKeeps` | src/a2a_superhub/memory.py:1101-1215 | One evaluation keeps one logical row per pair, its own sequence, its aliases and reasons, and the high water. |
| `LedgerMigration.MigrationIsLossless` | src/a2a_superhub/memory.py:658-712 | From v3 rows, one logical row per note and recipient with the group's maximum sequence, one alias per row, the full reason set. |
| `LedgerMigration.NoClash` | src/a2a_superhub/memory.py:668-682 | The ignored insert of a logical row never loses it to another pair's sequence. |
| `LedgerMigration.BackfillChangesNothing` | src/a2a_superhub/memory.py:658-712 | On every consistent v4 state the migration, visited in any group order, changes nothing. |
| `LedgerTheorems.RestartChangesNothing` | src/a2a_superhub/memory.py:651-712 | In every reachable state a restart's migration changes nothing. |
| `LedgerStore.DeliveryStore.GenerateDeliveries` | src/a2a_superhub/memory.py:1101-1215 | The nested insertion loops make exactly the evaluation transaction and keep the invariant. |
| `LedgerStore.DeliveryStore.BackfillLogicalDeliveries` | src/a2a_superhub/memory.py:658-712 | The migration loop establishes the invariant from v3 rows and changes nothing on a valid ledger. |
| `LedgerStore.DeliveryStore.FetchInbox` | src/a2a_superhub/memory.py:1437-1512 | A fetch issues one new cursor, of this consumer and model, for exactly the items it returns, returns the visible items in order, says whether rows lie behind the page exactly under v2, and keeps the ledger valid. |
| `LedgerStore.DeliveryStore.AcknowledgeInbox` | src/a2a_superhub/memory.py:1514-1626 | The acknowledgement loop makes exactly the acknowledgement transaction: refused for a foreign token or an unknown purpose ahead of the watermark, advanced iff the watermark rises, no receipt otherwise; a valid ledger stays valid. |
| `IndexSync.SyncEqualsRebuildIffScheduled` | src/a2a_superhub/memory.py:2787-2810 | From any consistent index, synchronising gives exactly the rebuilt table if and only if every path that changed hands is given up by a pending job before a pending job needs it. |
| `IndexTheorems.SyncEqualsRebuild` | src/a2a_superhub/memory.py:2787-2810 | With no path reused, synchronising equals rebuilding, revisions and relations included, for every job order and every stale job. |
| `IndexTheorems.RebuildIsExact` | src/a2a_superhub/memory.py:2698-2725 | A rebuild fails iff a valid note repeats a relation; else it has exactly the settled row of each non-colliding note. |
| `IndexTheorems.RebuiltRow` | src/a2a_superhub/memory.py:2350-2378 | A rebuilt row shows the note's own file and content; its revision is 1 for a new note and else rose by one iff the content changed. |
| `IndexTheorems.RepeatedRelationKeepsOldRow` | src/a2a_superhub/memory.py:2380-2381 | A note that repeats a relation keeps its old row or none through synchronising, while a rebuild fails for all notes. |
| `IndexTheorems.SyncAgainChangesNothing` | src/a2a_superhub/memory.py:2787-2810 | Synchronising an index that is in step changes nothing. |
| `IndexTheorems.ExchangedPathsNeverConverge` | src/a2a_superhub/memory.py:2350-2378 | Notes that exchanged their paths keep their old rows through every synchronisation. |
| `IndexConvergence.RepeatedSyncConvergesIffNoRing` | src/a2a_superhub/memory.py:2787-2810 | More rounds on unchanged files than there are changed notes end with the table a rebuild makes if and only if no notes exchanged paths in a ring. |
| `IndexConvergence.RoundProgresses` | src/a2a_superhub/memory.py:2350-2378 | Without a ring, a round on an index of valid notes leaves fewer changed notes, or none. |
| `IndexConvergence.RingKeepsApart` | src/a2a_superhub/memory.py:2350-2378 | With a ring, no number of rounds ends with the rebuilt table. |
| `IndexTheorems.SwapExample` | src/a2a_superhub/memory.py:767 | A state reached by a run, two indexed files that swapped names, which a rebuild indexes and synchronising does not. |
| `IndexSync.ProcessingFinishes` | src/a2a_superhub/memory.py:2306-2329 | The job loop ends with no job pending, and with none running if none was. |
| `IndexSync.TransactionsMakeRecovery` | src/a2a_superhub/memory.py:2183-2217 | Removing the rows of colliding notes and then planning is one recovery when no crash divides them. |
| `IndexSync.PlanEffect` | src/a2a_superhub/memory.py:2189-2217 | Planning changes only the current job of each valid note: done when indexed and new, pending when changed and not queued. |
| `IndexRuns.ReachableOk` | src/a2a_superhub/memory.py:616 | In every reachable state, crashes between any two transactions of recovery, processing and pruning included, the index is consistent, and between operations no job is left running. |
| `IndexRuns.RestartRequeues` | src/a2a_superhub/memory.py:616 | A restart makes running jobs pending again and leaves every other job as it was. |
| `IndexRuns.TransactionsMakeAJob` | src/a2a_superhub/memory.py:2308-2328 | The three transactions of a job are one processing step when no crash divides them. |
| `IndexRuns.RepeatedUpsertIsStable` | src/a2a_superhub/memory.py:2350-2381 | A job repeated after a crash between its upsert and its completion mark leaves the same table, revision included. |
| `NoteIndex.UpsertKeeps` | src/a2a_superhub/memory.py:2350-2381 | An upsert keeps paths unique and the relations table equal to the relations of the indexed notes. |
| `IndexStore.ScanNotes` | src/a2a_superhub/memory.py:2252-2283 | Grouping by id and by normalised path finds as valid exactly the files that share neither with another, and as collided the ids of the rest. |
| `IndexStore.Store.UpsertIndex` | src/a2a_superhub/memory.py:2335-2386 | The upsert transaction, rolled back exactly when a constraint fails. |
| `IndexStore.Store.RecoverJobsFromScan` | src/a2a_superhub/memory.py:2176-2217 | The planning loop makes exactly the recovered state. |
| `IndexStore.Store.ProcessPendingJobs` | src/a2a_superhub/memory.py:2306-2329 | The loop that selects the first pending job each time processes the jobs in table order, terminates and leaves none pending. |
| `IndexStore.Store.SyncFilesystem` | src/a2a_superhub/memory.py:2787-2810 | Scan, plan, process and prune make exactly one synchronisation. |
| `IndexStore.Store.RebuildIndex` | src/a2a_superhub/memory.py:2698-2725 | A new generation replaces the index only when it is complete. |
| `CreationRuns.BindingsNeverChange` | src/a2a_superhub/memory.py:896-991 | Over any number of attempts, crashes and sparing outside edits, a key stays bound to its first note id and its written note file never changes. |
| `CreationRuns.OneFilePerKey` | src/a2a_superhub/memory.py:945-970 | In every reachable state a bound id has at most one note file, which holds its request's note, and no two keys share an id. |
| `CreationRuns.ReturnMeansDone` | src/a2a_superhub/memory.py:970-1011 | An attempt that returns gives the bound id; its note is written, says field by field what the request says in the caller's name, is indexed if its relations are distinct, and its deliveries are exactly its targets. |
| `CreationRuns.OutcomeIs` | src/a2a_superhub/memory.py:896-942 | When an attempt conflicts, is rejected for superseding a note that is missing or another's, or returns, and whether it then created its note. |
| `CreationRuns.OtherRequestChangesNothing` | src/a2a_superhub/memory.py:896-903 | Whatever happened since a key was bound, a different request under it is a conflict and trying it changes nothing. |
| `CreationRuns.RepeatChangesNothing` | src/a2a_superhub/memory.py:912-919 | Repeating a request that is done changes no file, key, row, job or delivery, wherever the repeat crashes. |
| `CreationRuns.ReachableOk` | src/a2a_superhub/memory.py:868-1011 | Files, keys, jobs, rows and routes of bound notes agree in every reachable state, crashes inside attempts, recovery, job processing and pruning and outside edits included. |
| `CreationRuns.SyncDeliversChanged` | src/a2a_superhub/memory.py:2811-2822 | A synchronisation delivers every bound note that differed from the manifest to exactly its targets, indexed or not. |
| `SyncRecovery.RetriesDeliverIffUnindexed` | src/a2a_superhub/memory.py:2794-2822 | Whatever a stopped synchronisation left, later ones of unchanged files evaluate a valid note iff it had a snapshot or was not yet indexed as it is. |
| `SyncRecovery.StoppedSyncExample` | src/a2a_superhub/memory.py:2797-2822 | A reachable state whose indexed note no later synchronisation evaluates. |
| `SyncRecovery.RecordedIsEvaluated` | src/a2a_superhub/memory.py:745-757 | In every run, crashes included, every note of the recorded corpus revision has its route snapshot. |
| `SyncRecovery.StartDelivers` | src/a2a_superhub/memory.py:736-757 | From the backfill of any start on, for ever, every note its scan found valid has its snapshot and the deliveries recorded there, a bound note exactly its targets. |
| `NoteService.Service.CreateNote` | src/a2a_superhub/memory.py:868-991 | The create operation takes reservations, files, jobs, index and ledger exactly where the attempt function does. |
| `NoteService.Service.SyncFilesystem` | src/a2a_superhub/memory.py:2787-2822 | Synchronising the index and then evaluating every changed note reaches exactly the synchronised index and the evaluated ledger. |
| `NoteService.Service.ReconcileCreate` | src/a2a_superhub/memory.py:998-1011 | Enqueue, process and deliver, shared by new notes and repeated requests. |
| `Tasks.TaskLifecycle` | src/a2a_superhub/store.py:280-319 | In every run a task names both agents, its events are numbered 1..n, each state may follow the one before it, its state is that of its last state-bearing event, and it has one outbox row, at its last event, iff it is terminal. |
| `Tasks.OneTaskPerKey` | src/a2a_superhub/store.py:125-185 | In every run an idempotency key belongs to at most one task. |
| `Tasks.AppendedIff` | src/a2a_superhub/models.py:20-27 | An event is taken iff the task exists, has not ended, and the event has no state or one that may follow: never submitted, accepted only while submitted. |
| `Tasks.TerminalIsFinal` | src/a2a_superhub/models.py:61-68 | A terminal task never changes and gains no event. |
| `HubStore.Store.CreateTask` | src/a2a_superhub/store.py:125-185 | Creation with its idempotency key: the first task returned for a known key, else inserted, or refused for a missing agent or a taken id. |
| `HubStore.Store.AppendTaskEvent` | src/a2a_superhub/store.py:206-229 | An append adds one numbered event, moves the task's state and time and files one outbox row iff that state is final, or refuses and changes nothing. |
| `HubStore.Store.AcknowledgeTerminalOutbox` | src/a2a_superhub/store.py:257-264 | Acknowledging an outbox row once or repeatedly. |
| `TaskLog.ExactlyOnce` | src/a2a_superhub/memory.py:1843-1908 | Over any interleaving of events, replays and crashes, an acknowledged operation has exactly one note, of its task, event, agents, state and times, iff its task completed, failed or was canceled with a configured intent and a payload within the limit and without a secret marker. |
| `TaskLog.SecretsAreNeverLogged` | src/a2a_superhub/memory.py:1814-1872 | In no state of any run is there a note of a task whose payload carries a secret marker. |
| `TaskLog.NoteNeverRewritten` | src/a2a_superhub/memory.py:1870-1897 | A written task-log note stays as it is. |
| `TaskLog.ReplayWorksOffItsList` | src/a2a_superhub/memory.py:1843-1908 | A replay that works off its list without a crash, with any events between its rows, leaves none of the listed rows pending, each with its note iff it was eligible. |
| `TaskLog.NextRowIsDone` | src/a2a_superhub/memory.py:1848-1908 | A replay never sticks: its next row is written if need be, acknowledged and done with. |
| `TaskLogger.Logger.Replay` | src/a2a_superhub/memory.py:1831-1908 | A completed replay leaves nothing pending, adds only notes of the operations it listed, and leaves every operation with its note iff state, intent, payload size and secret marker allow it. |
| `Retention.ExactlyOnePlace` | src/a2a_superhub/operations.py:426-623 | In every reachable state, each crash point included, exactly one of original and trash holds the recorded bytes of an active tombstone. |
| `Retention.NothingLostOrDoubled` | src/a2a_superhub/operations.py:485-623 | No step loses or copies the bytes of a retained object. |
| `Retention.RecoverySettles` | src/a2a_superhub/operations.py:426-460 | Recovery never asks for manual review, leaves no unfinished row, and marks a row trashed iff the bytes are in trash. |
| `Retention.RecoveryIsIdempotent` | src/a2a_superhub/operations.py:426-460 | Recovering twice is recovering once. |
| `Retention.CrashedTrashRecovers` | src/a2a_superhub/operations.py:535-559 | Trashing that crashed at either point is undone or finished by recovery, according to where the bytes are. |
| `Retention.CrashedRestoreRecovers` | src/a2a_superhub/operations.py:604-623 | The same for restoring. |
| `RetentionManager.Manager.RecoverTransitions` | src/a2a_superhub/operations.py:426-460 | The recovery loop makes exactly the recovered rows, or rolls back. |
| `RetentionManager.Manager.TrashObject` | src/a2a_superhub/operations.py:535-593 | Intent, move and mark; refused operations move nothing. |
| `RetentionManager.Manager.Restore` | src/a2a_superhub/operations.py:604-623 | Intent, move back and mark. |
| `RetentionGate.AssertDeliveriesAcknowledged` | src/a2a_superhub/operations.py:510-528 | The gate passes iff every delivery of the note has a consumer and every consumer of its recipient counts it as read. |
| `RetentionGate.GatePassedMeansSeen` | src/a2a_superhub/operations.py:510-528 | When it passes, every consumer of a delivery's recipient acknowledged a page that scanned it, or counted it as read before the migration. |
| `Watcher.NoNotificationLost` | src/a2a_superhub/memory.py:2848-2884 | Every path of a notification is entered with its due time; under any interleaving it then stays pending until a sync that started after it has completed. |
| `WatcherLoop.PendingWorkIsAttended` | src/a2a_superhub/server.py:855-881 | Until stopped, pending work that the running flush does not hold has `changed` set, a handler about to set it, or the loop between clearing it and its snapshot. |
| `WatcherLoop.LoopLosesNothing` | src/a2a_superhub/server.py:864-881 | In the convergence loop, too, every path of a handler's notification is entered and stays pending until a sync that started after it has completed, failing syncs included. |
| `WatcherLoop.QuietRoundDrains` | src/a2a_superhub/server.py:864-881 | A round that nothing disturbs empties the queue. |
| `MemoryWatcher.DebounceQueue.NotifyPaths` | src/a2a_superhub/memory.py:2848-2858 | One notification enters every relevant path with just its due time and a new generation, that of its last occurrence, and leaves every other path alone; an irrelevant one changes nothing. |
| `MemoryWatcher.DebounceQueue.Flush` | src/a2a_superhub/memory.py:2869-2884 | A flush removes what it took after a successful sync and keeps everything after a failing one. |
| `Upload.LayoutIsExact` | src/a2a_superhub/artifacts.py:250-275 | Expected chunk sizes are positive, at most one chunk, and add up to the declared size. |
| `Upload.AssembledHasDeclaredSize` | src/a2a_superhub/artifacts.py:313-321 | Chunks that were accepted assemble to the declared length. |
| `UploadRuns.RunsStay` | src/a2a_superhub/artifacts.py:109-342 | Every step of every run, crashes included, keeps the store's invariant. |
| `UploadRuns.ManifestHasItsBlob` | src/a2a_superhub/artifacts.py:142-175 | In every crash state a manifest implies its blob, with the recorded size and digest. |
| `UploadRuns.CompletedYieldsFirstBytes` | src/a2a_superhub/artifacts.py:302-331 | A completed upload has the blob of the first accepted bytes per index in index order, with the declared length and digest, and serves it iff a manifest of that digest is in place. |
| `UploadRuns.CompletedServesForever` | src/a2a_superhub/artifacts.py:302-310 | Whatever follows, retention included, its blob stays; it serves the same bytes iff a manifest of its digest is in place, as it is until trashed; a repeated commit replays that manifest or reports it missing. |
| `UploadRuns.RunsPreserve` | src/a2a_superhub/artifacts.py:263-342 | First bytes, blobs, manifests, in place or in the trash, and finished sessions outlive every continuation. |
| `UploadRuns.RestoreUndoesTrash` | src/a2a_superhub/operations.py:561-623 | Trashing withdraws an artifact; restoring it after any steps puts the same manifest and bytes back iff no other manifest was filed in its place. |
| `UploadRuns.CommitResumes` | src/a2a_superhub/artifacts.py:322-331 | A commit that stopped after its blob or its manifest, tried again, does all that one commit does. |
| `UploadRuns.AnyOrderCommits` | src/a2a_superhub/artifacts.py:263-331 | The right chunks in any order with any repetitions, with their digests or without, commit to a manifest of exactly the declared content, unless its artifact id is taken by other content or another owner. |
| `UploadRuns.RightChunkIsTaken` | src/a2a_superhub/artifacts.py:268-300 | A right chunk, sent with its digest or without, is never refused: it is new or a duplicate. |
| `Upload.TakenIff` | src/a2a_superhub/artifacts.py:263-300 | A chunk is taken iff it fits the layout of a pending upload, any digest sent is its own, and its index holds nothing or the same bytes; else nothing changes. |
| `Upload.ForeignDigestIsRefused` | src/a2a_superhub/artifacts.py:277-279 | A chunk that fits is refused for its checksum exactly when another digest was sent with it, and then nothing changes. |
| `ArtifactStore.Artifacts.Spool` | src/a2a_superhub/artifacts.py:128-139 | The stream loop stops exactly when the whole stream exceeds the limit. |
| `ArtifactStore.Artifacts.PutStream` | src/a2a_superhub/artifacts.py:109-178 | Blob, then manifest with the stream's digest, size and owner, or the first refusal that applies: limit, checksum, collision, other owner. |
| `ArtifactStore.Artifacts.InitiateUpload` | src/a2a_superhub/artifacts.py:220-261 | A new pending session with the declared size, chunk size, digest, owner and media type, or the refusal of its sizes. |
| `ArtifactStore.Artifacts.PutChunk` | src/a2a_superhub/artifacts.py:263-300 | The first bytes at an index are kept; later ones are duplicates or refused, and a digest that is not the chunk's own is a checksum mismatch. |
| `ArtifactStore.Artifacts.CommitUpload` | src/a2a_superhub/artifacts.py:302-331 | The chunk loop and the stream make exactly the commit: session completed, manifest of the declared digest, size and owner in place, chunk files gone; every other outcome changes nothing. |
| `ArtifactStore.Artifacts.CancelUpload` | src/a2a_superhub/artifacts.py:333-342 | Canceling ends a session that is not completed and removes its chunk files; nothing else changes. |
| `Chunker.DeterministicChunks` | src/a2a_superhub/retrieval.py:82-117 | The loop terminates with the windows of the boundary rule and one chunk per window. |
| `Chunker.WindowEndsAtLastBreak` | src/a2a_superhub/retrieval.py:98-102 | A window that can reach the text's end does; any other stops at the last newline or space of its second half, else at its limit. |
| `Chunker.ChunksCover` | src/a2a_superhub/retrieval.py:97-116 | Every character that is not white space is shown by some chunk, at its distance from the start of that chunk's window less the white space stripped there. |
| `Chunker.SpacesAre` | src/a2a_superhub/retrieval.py:103-112 | The white space that stripping a chunk removes, by code point. |
| `Chunker.ChunksAreTrimmed` | src/a2a_superhub/retrieval.py:103-112 | A chunk is a contiguous piece of its window that neither begins nor ends with white space, or empty. |
| `Chunker.WindowsOverlap` | src/a2a_superhub/retrieval.py:98-115 | Starts strictly increase, windows leave no gap, and each step advances at least half a chunk less the overlap. |
| `Chunker.ChunksBounded` | src/a2a_superhub/retrieval.py:102-112 | Ordinals count from 0 and no chunk exceeds the limit. |
| `Chunker.ChunkCountBounded` | src/a2a_superhub/retrieval.py:97-116 | With an overlap below half a chunk the number of chunks is bounded by the text's length over the step. |
| `Chunker.ChunkCountLinear` | src/a2a_superhub/retrieval.py:97-116 | With any valid overlap there is at most one chunk per character. |
| `Wakeup.Pack` | src/a2a_superhub/memory.py:1732-1767 | The packing loop stops at the first candidate that does not fit, the encoded envelope fits the budget, and the fallback envelope is unreachable. |
| `Wakeup.RefreshTruncation` | src/a2a_superhub/memory.py:1698-1730 | The loop over the sections computes exactly the truncation marks. |
| `Wakeup.PackedIsAPrefix` | src/a2a_superhub/memory.py:1732-1746 | Each section holds a prefix of its candidates, an incomplete one leaves later ones empty, and `truncated` holds iff something was omitted or a v2 inbox had more; so do, each for itself, the section marks and the two reasons. |
| `Wakeup.TruncatedIsExactIff` | src/a2a_superhub/memory.py:1672-1730 | `truncated` tells exactly whether anything is left out, rows behind the page included, iff the model is v2, the page left nothing behind or a candidate is missing. |
| `Wakeup.V1HidesTheRest` | src/a2a_superhub/memory.py:1501-1502 | A v1 wakeup with nothing to show and rows behind its page says that nothing is missing. |
| `WakeupInbox.PageMoreIff` | src/a2a_superhub/memory.py:1454-1464 | A wakeup's inbox page leaves rows behind iff more than a hundred are unread. |
| `WakeupInbox.HiddenPageUnderEachModel` | src/a2a_superhub/memory.py:1672-1730 | With a hidden first page of an overfull inbox, the envelope is marked truncated iff the model is v2. |
| `Wakeup.LargerBudgetShowsNoLess` | src/a2a_superhub/memory.py:1732-1746 | A larger budget never shows less in any section. |
| `Wakeup.PackIsTheLongestPrefix` | src/a2a_superhub/memory.py:1732-1746 | Greedy packing is optimal: a prefix of the candidates fits iff it is no longer than the packed one. |
| `Wakeup.EmptyFits` | src/a2a_superhub/memory.py:1679-1731 | The empty envelope fits the smallest budget for every consumer id. |
| `Views.BuildTimeline` | src/a2a_superhub/memory.py:2461-2499 | The loop with its early stop gives the first items of the filtered rows. |
| `Views.FindSuperseded` | src/a2a_superhub/memory.py:2444-2459 | The pass over the successors finds exactly the superseded ids. |
| `Views.ReadIff` | src/a2a_superhub/memory.py:788-812 | A note is read by its author, an administrator, everybody if shared, and the principal it is directed to, unless a source of it is hidden. |
| `Views.SupersededIff` | src/a2a_superhub/memory.py:2444-2459 | A readable note is superseded iff a readable note of the same author or the local operator supersedes it. |
| `Views.MatchesIff` | src/a2a_superhub/memory.py:2480-2492 | What the superseded, project, about and pair filters ask of a note. |
| `Views.TimelineIsExact` | src/a2a_superhub/memory.py:2461-2499 | Newest first, only readable matching notes with their true marks, and all of those unless it is full of newer ones. |
| `Views.TimelineIsLocal` | src/a2a_superhub/memory.py:2444-2499 | The timeline over the whole corpus equals the timeline over only the readable notes: items, order, marks and limit. |
| `NoteGraph.BuildGraph` | src/a2a_superhub/memory.py:2520-2562 | The rounds over sources and edges give exactly the graph, refused unless one or two hops are asked for. |
| `NoteGraph.GraphIsLocal` | src/a2a_superhub/memory.py:2525-2540 | The graph over the whole corpus equals the graph over only the readable notes. |
| `NoteGraph.GraphIsExact` | src/a2a_superhub/memory.py:2541-2562 | It holds exactly the edges with an end at a distance below `hops` in the readable graph, each once, and exactly their ends as nodes. |
| `NoteGraph.EdgesAre` | src/a2a_superhub/memory.py:2501-2518 | A note's edges lead to its author, project, participants, subjects, predecessor and the targets of its relations, a bare principal being the agent, and nowhere else. |
| `NoteGraph.SourcesAreReadable` | src/a2a_superhub/memory.py:2527-2540 | The readable graph has exactly the edges of readable notes whose note targets are readable. |

## Left out

- HTTP, JSON-RPC, the command line, MCP, the client and the adapter: transport over the services modelled here.
- YAML parsing, field validation, Unicode normalisation and note size limits: a note is an abstract record, two paths carry a key that tells whether they collide.
- Files that do not parse: the scan quarantines them without effect on the index, and the quarantine table is not modelled.
- HMAC and base64 encoding of cursors and the token versions in them: a cursor is a record that must be in the issued table.
- The audit table `receipts` and trace ids: no modelled step reads them.
- Full-text search, Qdrant and embeddings: foreign engines; of retrieval only the chunker is modelled.
- `derivation.py`: provider work outside the repository.
- File locks, leases, fsync, symlink checks and the polling for another process's reservation: state is exclusive and replacements are atomic.
- The scan cache and index status snapshots: performance views.
- The process's catalog of note paths (src/a2a_superhub/memory.py:1936-1943): after an edit from outside between a scan and a job, the code may read a note at the path it scanned where `NoteIndex.Find` finds none, or fail there where it finds one elsewhere.
- Removing derived notes, and retention together with creating a trashed note again under its old key.
- NoteIndex.Sync: does not assign missing ids; the evaluations of changed notes follow it in `CreationRuns` and `NoteService`.
- IndexStore.Store.SyncFilesystem: the index part only; `NoteService.Service.SyncFilesystem` adds the deliveries.
- NoteCreation.Create: requests carry an idempotency key; one without a key is one whose key is never used again. Trace ids of reservations are not modelled.
- CreationRuns.Next: edits from outside spare the files, ids and paths of bound notes; with an edit to such a note the promise is not made.
- NoteService.Service.CreateNote: runs through all stages, as does NoteService.Service.ReconcileCreate; attempts that crash are steps of `CreationRuns`.
- NoteService.Service.ReconcileCreate: see the line above.
- TaskLogger.Logger.Replay: nothing comes between its rows; `TaskLog.ReplayWorksOffItsList` lets other steps come between.
- MemoryWatcher.DebounceQueue.Flush: nothing is notified during its sync; `Watcher` has that interleaving.
- RetentionManager.Manager.TrashObject: the checks of authority, visibility, references and deliveries are one flag; the last is in `RetentionGate`.
- ArtifactStore.Artifacts.InitiateUpload: refusals of file name, media type, digest text and visibility are not modelled.
- TaskLog.ExactlyOnce: the index job of a task-log note is not modelled.
- Upload.ChunkCount: the ceiling is exact, as the code's floating-point division is for sizes below 2^53.
- `ArtifactStore.set_visibility` and artifact read permissions: an unreadable source artifact is an input of `Views.CanRead`.
- Chunker.DeterministicChunks: starts from the prepared text; chunk ids, which are hashes, are not modelled.
- LedgerStore.DeliveryStore.FetchInbox: its read and its cursor are one step there; `LedgerRuns` lets other steps come between.
- Views.Timeline: rows are those of an index in step with files of unique ids.
- Wakeup.EnvelopeOf: the encoded text of an envelope is written out for its size; that it is the JSON of the envelope's fields is not proved.
- Wakeup.Pack: how the candidates are chosen and encoded is not modelled; they are given in encoded form, each longer than its two delimiters where `PackIsTheLongestPrefix` needs it.
- Retention.Next: edits from outside spare the paths that an active tombstone names.
- Backups, bootstrap, release checks, soak harness and benchmarks.
- Authentication, rate limits and the A2A part mapping.
