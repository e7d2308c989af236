# Starkeep local data server: a verified model

A Dafny 4.11 model of the parts of Starkeep's local data server on which a user's files depend, and of three tools
around it, with proofs of what they keep. `dafny verify dfyconfig.toml` checks everything.

**File watcher** (`Watch*.dfy`). The world is the disk, the `watch_files` table, the in-memory map, the record library
with its tombstones, the local object store and the contents proved in the cloud. One call of `ingestFile`, one path of
the reverse comparison, one path of a recheck and one `addBack` are each one step; files appear, change and leave,
records are deleted and restored elsewhere, cloud copies land, watches load and stop, and the process restarts between
any two steps. `WatchModel` has the steps, `WatchInvariant` what every run keeps, `WatchLoss` when a content can be
lost, `WatchScan` what a startup scan leaves, `WatchObjects` which store entries answer, `WatchScope` what a watch takes
in, `WatchLibrary` tombstones and marks, and `WatchManager` the source's object, whose methods are proved equal to the
steps.

**Runner and supervisor** (`SyncState`, `EngineRunner`, `Supervisor*`). The promise chain over the shared state table,
and the timer machine of one engine: tick, nudge, drain, pause, resume, kick and stop. Every stretch of code between two
awaits is one step, so bodies, timers and requests interleave in every possible way.

**Merge, binding and cutover** (`FileTree`, `Merge`, `MergeDir`, `Keys`, `Binding`, `Library`, `Cutover`, `KeysFollow`).
Directory trees as values, the in-place merge as a method that may stop before any of its renames and removals, the
binding and the cutover on top of it, and the stored keys that must keep finding their bytes.

**CRC-32 and PNG** (`Bits`, `Crc`, `CrcPoly`, `Png`, `PngImage`). Words are their 32 bits; the table-driven checksum is
proved to be the bit-serial one, and that one to be the remainder of a polynomial division over two elements. Chunk
framing and the image file have a reader of their own to be inverse to.

**Session** (`Session`, `SessionServer`). Who is signed in, whose library it is and when sync runs, with checks,
sign-ins, sign-outs and installed apps interleaved at their awaits.

**Event streams** (`Strings`, `Sse`), **policy guard** (`Guard`), **ranges and tokens** (`Numbers`, `Range`, `Tokens`)
and the **worker pool** (`Pool`).

## What the proofs found

The model follows the code. Where the code does less than its comments say, a lemma gives the case and the exact
condition.

- A content is lost in silence by exactly the steps `WatchLoss.Loses` names. Two short runs show it:
  a failed ingest blanks the entry, so the removal after it is reported `evicted` with nothing proved
  (`WatchLoss.FailureThenRemovalLoses`); and new bytes over the last path of a content leave it nowhere
  (`WatchLoss.OverwriteLoses`).
- New bytes at a tracked path whose old record was deleted elsewhere are excluded by their *old* content; only the next
  ingest takes them in, so a restart scan is a fixpoint exactly where the first scan met no such path
  (`WatchScan.IngestSettlesExactly`, `WatchScan.RestartFixpointExactly`).
- A departure asks only the first surviving path it finds: where that path's record has no key, a proof drops the store
  entry although another survivor's record could have kept it (`WatchObjects.FirstSurvivorOnly`).
- A recheck after deletions and restores settles every path in memory under a record, and no other: what is not loaded
  or blank after a failed ingest keeps its mark (`WatchLibrary.RecheckedAgreeExactly`).
- A second tick timer arises exactly where a `resume`, or a drain begun between the end of a drain and its owner's
  return, meets a first (`SupervisorTimers.OneLoopExactly`), and both happen (`SupervisorTimers.GapHappens`,
  `SupervisorTimers.ResumeDoubles`). A stopped engine stays silent exactly if nothing was in flight
  (`SupervisorTimers.QuietExactly`): a drain in flight re-arms its timer.
- The SQL of the binding replaces every `/local/syncable/` in a key, not only the owner's: a file an app keeps under its
  own `local/syncable/` is lost to its key (`KeysFollow.StatementsLoseTheKey`, `Keys.SqlKeepsThePromise`).
- A binding that stops between the folder and the database leaves the library open to any user; completed for another
  one, it leaves the files with the first and the keys with the second (`KeysFollow.AnotherUsersRunLosesKeys`).
- Installing or removing an app starts engines under any sign-in, bound or not, so an app's files can sync under a
  user who is not the library's owner; and since nothing had started the supervisor, the end of that sign-in does not
  pause them
  (`Session.InstallStartsUnbound`, `Session.ExactlyTheseBreakIt`).
- A session check can finish under another user's stored sign-in (`Session.CheckOutlivesItsSession`), and a supervisor
  stopped "for good" starts again after a sign-out and a sign-in of the owner, without a restart
  (`Session.StoppedStartsAgainExactly`).
- The policy guard does not look at `NotAction` or at the boundary's denials (`Guard.NotActionIsNotLookedAt`,
  `Guard.SoundExactlyWhenDenialsApart`).
- The last bytes of an empty file are served as the range 0 to -1 (`Range.HonouredWithinTheFile`).

## Model

| member | source | states |
|---|---|---|
| WatchInvariant.RunKeepsInv | apps/local-data-server/watcher.ts:340-412 | Over every run, each entry in memory is its table row or the blank of a failed ingest, row ids are those of their content, and no path stays `pending` |
| WatchInvariant.LoadRestoresMemory | apps/local-data-server/watcher.ts:944-960 | After a restart a watch loads back exactly the entries it had in memory, if and only if none of them is the blank of a failed ingest |
| WatchInvariant.ErrorFreeRunsLoadBack | apps/local-data-server/watcher.ts:944-960 | Over every run in which nothing failed no entry is blank, so a restart loads back what was in memory |
| WatchLoss.ExactLoss | apps/local-data-server/watcher.ts:511-557 | A step leaves a covered content held by no synced or possibly-lost path and unproved exactly when a guard on the state before it says so |
| WatchLoss.NoSilentLoss | apps/local-data-server/watcher.ts:442-468 | Over every run of harmless steps a content stays held by a synced path, proved, or reported possibly lost, through any chain of survivors |
| WatchLoss.HarmlessLosesNothing | apps/local-data-server/watcher.ts:598-610 | No failed ingest, overwrite, record deletion or stopped watch for that content: then no step loses it |
| WatchLoss.HarmlessKeepsSafe | apps/local-data-server/watcher.ts:965-981 | The hypotheses of the no-loss claim are kept by every harmless step |
| WatchLoss.FreshIsSafe | apps/local-data-server/watcher.ts:944-960 | A library and a watcher that start empty meet those hypotheses for every content |
| WatchLoss.FailureThenRemovalLoses | apps/local-data-server/watcher.ts:774-784 | From any state where one path alone holds a content: fail its ingest, remove it, and the content is gone and reported `evicted` |
| WatchLoss.OverwriteLoses | apps/local-data-server/watcher.ts:700-751 | New bytes written over the last path of a content leave the old content held nowhere and reported nowhere |
| WatchObjects.OneEntryMoves | apps/local-data-server/watcher.ts:323-338 | Whatever happens but to the store itself, at most one store entry moves: one that did not answer becomes a link to a file that is there, with the content its key names where clocks are honest, or one goes whose content this very step proved in the cloud |
| WatchObjects.AnswersUntilProved | apps/local-data-server/watcher.ts:511-557 | Over every run an entry that answers goes on answering until its file leaves, someone else changes the store, or its content is proved |
| WatchObjects.IngestAnswers | apps/local-data-server/watcher.ts:702-751 | What an error-free ingest leaves synced under a record with a key, the store answers for; what answered before is untouched |
| WatchObjects.DepartureExactly | apps/local-data-server/watcher.ts:521-548 | A departed path is possibly lost exactly without a survivor's key and without proof, and then the store is untouched; its entry goes exactly on a proof; a survivor's entry answers |
| WatchObjects.PicksSupply | apps/local-data-server/watcher.ts:442-469 | A survivor is another synced path of the content, on the disk as a file with its tracked mtime; none is found exactly if there is none |
| WatchObjects.FirstSurvivorOnly | apps/local-data-server/watcher.ts:521-525 | Only one survivor is asked: a keyless one first, and the entry goes though another survivor's record had the key |
| WatchObjects.AddBackAnswers | apps/local-data-server/watcher.ts:1035-1078 | An add-back of unchanged bytes brings path, record and store entry back |
| WatchObjects.AddBackRefused | apps/local-data-server/watcher.ts:1035-1066 | An add-back of a path that is not left out, or whose record is not live and not restored, changes nothing |
| WatchObjects.ScanAnswers | apps/local-data-server/watcher.ts:944-981 | After an error-free startup scan the store answers for every eligible file held synced, if no synced record lacks its key when the reverse comparison starts |
| WatchScope.AcceptsExactly | apps/local-data-server/watcher.ts:196-211 | A name is taken in exactly if it is no hidden default, no exclusion stands for it and an inclusion, if any are given, does; `*.ext` stands for every name ending so |
| WatchScope.RefusedIsLeftAlone | apps/local-data-server/watcher.ts:586-623 | What the patterns, the size or the kind of file refuse, an ingest leaves alone |
| WatchScope.NewFileIsTakenIn | apps/local-data-server/watcher.ts:702-772 | Any other new file becomes the record of its name and content, with the key of its kind and an entry that answers |
| WatchScope.RecordsAreNamed | apps/local-data-server/watcher.ts:291-308 | Two tracked files are one record exactly if they have one name and one content |
| WatchScope.StartLoads | apps/local-data-server/watcher.ts:944-960 | A start reads exactly the watch's rows into memory, once |
| WatchScope.RestartForgetsMemory | apps/local-data-server/watcher.ts:1096-1101 | When the process ends no watch runs and memory is empty, and the stores are as they were |
| WatchScope.StopForgets | apps/local-data-server/watcher.ts:994-1001 | Stopping a watch forgets its rows and entries and takes it from the running ones; nothing else changes |
| WatchScope.StartsAnew | apps/local-data-server/watcher.ts:944-960 | Started again it has nothing to load |
| WatchScan.IngestSettlesExactly | apps/local-data-server/watcher.ts:625-700 | An error-free ingest settles its path exactly when it does not exclude new bytes by the old record's tombstone |
| WatchScan.SecondScanCatchesUp | apps/local-data-server/watcher.ts:625-645 | Such a path is settled by the second ingest |
| WatchScan.ScanSettlesExactly | apps/local-data-server/watcher.ts:965-981 | A startup scan leaves every file it looks at settled and no unlisted path synced exactly if none of those files was a stale exclusion |
| WatchScan.RestartFixpointExactly | apps/local-data-server/watcher.ts:944-981 | A restart and a second scan of an unchanged disk and library change no row exactly if the first scan met no stale exclusion, and then change no record and load the same entries |
| WatchScan.SyncedIsOnDisk | apps/local-data-server/watcher.ts:647-700 | After a scan a synced path's file has its tracked content, where a file's mtime moves when its bytes do |
| WatchLibrary.TombstonesMoveExactly | apps/local-data-server/watcher.ts:1035-1078 | A tombstone is lifted exactly by a restore elsewhere or by an add-back that goes on, and made exactly by a deletion or an arriving deleted record |
| WatchLibrary.NoResurrection | apps/local-data-server/watcher.ts:625-645 | Over every run a deleted record stays deleted unless someone restores it |
| WatchLibrary.WatcherOnlyAdds | apps/local-data-server/watcher.ts:702-751 | The watcher changes no record it finds, but for add-back's restore, and writes only under an id the library does not hold |
| WatchLibrary.LibraryAgreement | apps/local-data-server/watcher.ts:890-939 | Over every run a path in `synced` or `deleted-from-library` is excluded exactly when its record is tombstoned, save paths whose record moved since their last recheck |
| WatchLibrary.RechecksSettle | apps/local-data-server/watcher.ts:890-939 | Rechecking every such path, in any order, leaves none open |
| WatchLibrary.RecheckedAgreeExactly | apps/local-data-server/watcher.ts:890-939 | After rechecks that reach every disagreeing path in memory, with any faults, a path agrees exactly if it agreed before or was in memory under a record |
| WatchLibrary.DeleteThenRestore | apps/local-data-server/watcher.ts:566-584 | A deletion and a restore elsewhere return an untouched file to `synced` with its object |
| WatchManager.FileWatchManager.EnsureLocalObject | apps/local-data-server/watcher.ts:323-338 | The object store has the record's key afterwards, by a link to this path only if it lacked it; false exactly without a live keyed record |
| WatchManager.FileWatchManager.SurvivingPathFor | apps/local-data-server/watcher.ts:442-469 | Some path that still supplies the departed path's bytes from the disk, or none exactly when there is none |
| WatchManager.FileWatchManager.EvictFromDisk | apps/local-data-server/watcher.ts:511-557 | Relink to a survivor, or drop a link and ask for a proof; the new library state is the model's verdict |
| WatchManager.FileWatchManager.RegisterFile | apps/local-data-server/watcher.ts:702-784 | The end of an ingest with each place it may throw is the model's step |
| WatchManager.FileWatchManager.RefreshFile | apps/local-data-server/watcher.ts:647-700 | The unchanged, moved-mtime and new-bytes branches are the model's step |
| WatchManager.FileWatchManager.IngestFile | apps/local-data-server/watcher.ts:586-786 | One ingest changes the stores exactly as the model's step does |
| WatchManager.FileWatchManager.RecheckRecords | apps/local-data-server/watcher.ts:890-939 | A recheck of a list of records, with any faults, rechecks each tracked path of theirs; with every disagreeing path among them, a path agrees afterwards exactly if it agreed before or was in memory under a record |
| WatchManager.FileWatchManager.StartWatch | apps/local-data-server/watcher.ts:944-981 | Load, ingest every listed path, reverse every synced unlisted one, with any faults: a scan of the model |
| WatchManager.FileWatchManager.StopWatching | apps/local-data-server/watcher.ts:994-1001 | The watch's rows and entries go, nothing else |
| WatchManager.FileWatchManager.Shutdown | apps/local-data-server/watcher.ts:1096-1101 | Memory goes, the table stays |
| WatchManager.FileWatchManager.AddBackPath | apps/local-data-server/watcher.ts:1035-1078 | Restore, clear the mark and ingest, with the refusals of the source, is the model's step |
| SyncState.KeyInjective | apps/local-data-server/per-app-sync-state-store.ts:18-23 | `<appId>:<suffix>` names one app and one suffix, whatever colons the app id holds |
| SyncState.WriteSeenByOwnerOnly | apps/local-data-server/per-app-sync-state-store.ts:47-55 | A write to one app's row changes that app's view by that row and no other app's view |
| SyncState.PerAppSyncStateStore.Set | apps/local-data-server/per-app-sync-state-store.ts:53-55 | An upsert changes this store's one row; every other app sees what it saw |
| SyncState.PerAppSyncStateStore.Get | apps/local-data-server/per-app-sync-state-store.ts:47-51 | Reads this app's own row |
| EngineRunner.Serialisable | apps/local-data-server/engine-runner.ts:71-80 | Bodies of multi-step reads and writes, some rejecting, never overlap, and leave the rows that running them one by one in submission order leaves |
| EngineRunner.NeverWedged | apps/local-data-server/engine-runner.ts:71-80 | While a body waits, one runs or the next may start, whatever was rejected |
| EngineRunner.EveryBodySettles | apps/local-data-server/engine-runner.ts:71-80 | Whatever happened, a chain can be worked off to its end, and holds exactly the bodies submitted for its app, in order |
| EngineRunner.ChainHoldsWhatWasAsked | apps/local-data-server/engine-runner.ts:71-80 | Over every run the chain is what was submitted, and a fulfilled body got to its end |
| EngineRunner.OtherStep | apps/local-data-server/per-app-sync-state-store.ts:18-55 | A step of one app's engine leaves every other app's view, bodies and place in its chain as they were |
| SupervisorSafety.SafeInEveryRun | apps/local-data-server/sync-supervisor.ts:607-669 | In every run: a write no sync body has begun to ship under a live signal has a nudge, a rerun or a queued sync body; an unpaused engine has a timer, a drain or a resume to come; one drain has one pass; the backoff is min(interval 2^k, 300000) |
| SupervisorSafety.NextAdvances | apps/local-data-server/sync-supervisor.ts:646-685 | The next step of an owed write towards a sync body is always possible, and starts it or is nearer to it |
| SupervisorSafety.NothingSetsBack | apps/local-data-server/sync-supervisor.ts:828-862 | Nothing but a pause or a stop takes an owed write further from its sync body |
| SupervisorCoalescing.FoldedRequestGetsItsPass | apps/local-data-server/engine-runner.ts:82-97 | A request folded into a drain gets a whole pass that begins after it, in every run that ends the drain without a pause or a stop |
| SupervisorCoalescing.FoldsCostOnePass | apps/local-data-server/engine-runner.ts:82-97 | However many requests fold in before the loop looks at its pass, they put nothing on the chain until then and one pass together then |
| SupervisorCoalescing.PassesBounded | apps/local-data-server/engine-runner.ts:82-97 | Over every run the passes plus the reruns still owed are at most the requests: the owner's loop ends |
| SupervisorCoalescing.PassesReachTheChain | apps/local-data-server/engine-runner.ts:87-92 | Those passes are what the requests and the loop put on the chain |
| SupervisorPause.PauseSilencesExactly | apps/local-data-server/sync-supervisor.ts:828-840 | A pause leaves an engine without tick and nudge exactly if no tick had leaked, and its chain as it was |
| SupervisorPause.PausedIsSilent | apps/local-data-server/sync-supervisor.ts:828-840 | Then in every run without a resume no timer is armed and no pass is asked for or put on the chain |
| SupervisorPause.ResumeQueuesASync | apps/local-data-server/sync-supervisor.ts:842-862 | A resume ends the pause and queues one sync body behind everything asked for before |
| SupervisorPause.SilentExactly | apps/local-data-server/sync-supervisor.ts:828-862 | A paused engine asks for no pass in any such run exactly if it is silent |
| SupervisorPause.PaceOfEveryRun | apps/local-data-server/sync-supervisor.ts:607-642 | In every run the backoff is the interval doubled for each failing drain since a drain or a resume went well or a kick came, up to 300000 |
| SupervisorWrites.WriteIsOwed | apps/local-data-server/sync-supervisor.ts:671-685 | From a local write on, in every run that starts no sync body under a live signal, an engine that may sync has a nudge, a rerun or a sync body queued |
| SupervisorWrites.NewEngineOwes | apps/local-data-server/sync-supervisor.ts:389-425 | The same from a new engine on |
| SupervisorWrites.CutShortIsOwed | apps/local-data-server/sync-supervisor.ts:828-862 | And from a pause that aborts a running sync body on |
| SupervisorWrites.QueueExactly | apps/local-data-server/engine-runner.ts:71-80 | The chain is first in, first out, and each event adds to its end just what it asks for |
| SupervisorWrites.NudgeExactly | apps/local-data-server/sync-supervisor.ts:656-685 | A nudge is armed by a write while sync runs, and gone once it fires and after a pause or a stop |
| SupervisorWrites.StoppedIsLeftAlone | apps/local-data-server/sync-supervisor.ts:520-533 | A stopped engine is past pausing and resuming |
| SupervisorWrites.OneLoopIsNamed | apps/local-data-server/sync-supervisor.ts:550-553 | In every run that never has a second loop no tick leaks, so a pause silences the engine |
| SupervisorTimers.StepLoops | apps/local-data-server/sync-supervisor.ts:550-553 | A step adds a loop, a live tick or what will arm one, exactly if it resumes or starts a drain in the gap between the end of a drain and its owner's return |
| SupervisorTimers.SecondLoopExactly | apps/local-data-server/sync-supervisor.ts:550-553 | From at most one loop, a step makes a second exactly if it is one of those and meets a first |
| SupervisorTimers.GapMeetsALoop | apps/local-data-server/sync-supervisor.ts:644-654 | A drain in the gap always meets a first, and so does a resume of an engine that was not paused |
| SupervisorTimers.OneLoopExactly | apps/local-data-server/sync-supervisor.ts:644-654 | A run never has a second loop exactly if none of its resumes and gap drains meets a first; a resume after a pause that let everything end meets none |
| SupervisorTimers.OneLoop | apps/local-data-server/sync-supervisor.ts:644-654 | Then never two live ticks, none during a drain, and never neither while unpaused |
| SupervisorTimers.LoopsBecomeTicks | apps/local-data-server/sync-supervisor.ts:644-654 | While unpaused, every loop counted can run on to be a live tick of its own |
| SupervisorTimers.GapHappens | apps/local-data-server/sync-supervisor.ts:656-669 | A kick finds the gap after a new engine's first drain |
| SupervisorTimers.ResumeDoubles | apps/local-data-server/sync-supervisor.ts:842-862 | A resume of an engine that was not paused leaves two live ticks |
| SupervisorTimers.QuietWhenStopped | apps/local-data-server/sync-supervisor.ts:520-533 | A stop leaves an engine quiet exactly when no drain, owner or resume was in flight and no timer had leaked |
| SupervisorTimers.QuietExactly | apps/local-data-server/sync-supervisor.ts:520-533 | A stopped engine is quiet exactly if no run of it, however long, ever has a live tick |
| SupervisorTimers.QuietForEver | apps/local-data-server/sync-supervisor.ts:520-533 | Once quiet, in every run quiet |
| SupervisorTimers.LoopsOutliveStop | apps/local-data-server/sync-supervisor.ts:644-654 | From every stopped engine that is not quiet there is a run to a live tick |
| SupervisorObject.EngineEntry.Drain | apps/local-data-server/engine-runner.ts:82-92 | The drain's first stretch on the entry is the model's |
| SupervisorObject.EngineEntry.OnNudge | apps/local-data-server/sync-supervisor.ts:656-669 | The nudge callback clears the tick and drains |
| SupervisorObject.EngineEntry.Settle | apps/local-data-server/sync-supervisor.ts:607-642 | A settled body moves the backoff as the source does |
| SupervisorObject.EngineEntry.Look | apps/local-data-server/engine-runner.ts:89-95 | After a pass the loop reruns or ends, with `cancelled` read then |
| SupervisorObject.SyncSupervisor.PauseSync | apps/local-data-server/sync-supervisor.ts:828-840 | Every listed engine is paused, and nothing else changes |
| SupervisorObject.SyncSupervisor.ResumeSyncing | apps/local-data-server/sync-supervisor.ts:842-862 | Every listed engine gets one more sync on its chain |
| SupervisorObject.SyncSupervisor.KickAll | apps/local-data-server/sync-supervisor.ts:964-975 | Every listed engine is kicked unless sync is paused |
| SupervisorObject.SyncSupervisor.OnLocalChange | apps/local-data-server/sync-supervisor.ts:671-685 | Only the engine that owns the write's channel is nudged |
| SupervisorObject.SyncSupervisor.StopEngineFor | apps/local-data-server/sync-supervisor.ts:520-549 | The app's entry is stopped and unlisted, no other changes |
| SupervisorObject.SyncSupervisor.StartEngineFor | apps/local-data-server/sync-supervisor.ts:389-425 | A listed app keeps its entry, another gets a new one |
| SupervisorObject.SyncSupervisor.Rescan | apps/local-data-server/sync-supervisor.ts:687-726 | The listed engines become the active apps with a channel plus the channels that always stay; entries that stay are untouched, those that go are in the state a stop leaves, and a broken app costs no other its engine |
| Merge.MergeIsIdempotent | apps/local-data-server/library-binding.ts:21-46 | A finished merge is a fixpoint of merging |
| Merge.NothingMovesTwice | apps/local-data-server/library-binding.ts:18-20 | A second full run reports that nothing moved |
| Merge.NoMoveNoChange | apps/local-data-server/library-binding.ts:18-20 | A run that reports no move left the destination as it was |
| Merge.ClashStays | apps/local-data-server/library-binding.ts:27-45 | A refusal ahead is neither cured nor made by merging |
| Merge.DestinationKept | apps/local-data-server/library-binding.ts:16-20 | Nothing that resolves at the destination changes |
| Merge.LeavesArrive | apps/local-data-server/library-binding.ts:32-42 | Every source leaf arrives at its own place, unless something exists there, and then both stay |
| Merge.OnlyCollisionsStay | apps/local-data-server/library-binding.ts:43-45 | What stays at the source is exactly collided leaves, with no empty directory |
| Merge.NothingMadeUp | apps/local-data-server/library-binding.ts:21-46 | Every leaf at the destination was there or came from its own place in the source |
| Merge.ClashExactly | apps/local-data-server/library-binding.ts:27-45 | A merge is bound to be refused exactly where one of its directories meets a dangling link, or has entries and meets a file, or a file meets something |
| Merge.MovesExactly | apps/local-data-server/library-binding.ts:18-20 | The answer is that something moved exactly if the source holds something whose place at the destination is free |
| FileTree.ExistsFollowsLinks | apps/local-data-server/library-binding.ts:22-35 | A link exists exactly if it leads to a file |
| MergeDir.MergedIsFinal | apps/local-data-server/library-binding.ts:21-46 | Stopped anywhere, a merge run again ends in the trees of an uninterrupted run |
| MergeDir.UnderWayTwice | apps/local-data-server/library-binding.ts:21-46 | The same after any number of interrupted runs |
| MergeDir.Disk.MergeDir | apps/local-data-server/library-binding.ts:21-46 | In place and stopped before any step: the two subtrees stay on their way to the merged ones and nothing else changes; it completes, with the right answer, exactly when no directory meets a file |
| MergeDir.Disk.MergeNames | apps/local-data-server/library-binding.ts:28-42 | The loop over the names, in any order |
| MergeDir.Disk.MergeOne | apps/local-data-server/library-binding.ts:29-41 | One name: descend, move or leave |
| Keys.ToLocalLeavesTheOldLayout | apps/local-data-server/scripts/cutover-local-library.ts:49-58 | A rewritten key is never in the old layout, so rewriting again changes nothing |
| Keys.ToLocalIsInjective | apps/local-data-server/scripts/cutover-local-library.ts:49-58 | Two old keys never become one |
| Keys.OldKeysByShape | apps/local-data-server/scripts/cutover-local-library.ts:49-58 | The two shapes of old keys and what they become; no other key moves |
| Keys.LocalKeysByShape | packages/storage-sqlite/src/library-owner.ts:123-140 | The two shapes of an unbound library's keys and what binding promises them; no other key moves |
| Keys.SqlKeepsThePromise | packages/storage-sqlite/src/library-owner.ts:129-189 | The UPDATE statements rewrite only the owner's segment exactly for keys without a second `/local/syncable/` |
| Library.Library.Bind | apps/local-data-server/library-binding.ts:60-77 | Stopped before any step, the library stays on its way to the bound one; completed, folder, keys, owner and the report's two counts are the bound ones; it completes exactly when nothing clashes, and another owner's library is refused untouched |
| Library.OwnerStays | packages/storage-sqlite/src/library-owner.ts:195-203 | Over any runs for any users, a library that has an owner keeps it, and runs for others change nothing |
| Library.SegmentsByCode | packages/protocol-primitives/src/storage/object-keys.ts:48 | A user id is taken exactly if it is one to sixty-four letters, digits, `-` and `_` |
| Library.Library.BindFolder | apps/local-data-server/library-binding.ts:63-73 | The folder half of it |
| Library.Library.BindApps | apps/local-data-server/library-binding.ts:67-73 | Every app's folder is merged, and only those |
| Library.MovedDirsExactly | apps/local-data-server/library-binding.ts:60-77 | The reported directories are those in which something of `local` stands where the user has nothing |
| Binding.BoundTouches | apps/local-data-server/library-binding.ts:63-73 | Binding makes a missing shared folder and touches no folder but it and the apps' |
| Binding.AppsLink | apps/local-data-server/library-binding.ts:67-73 | A link in place of the apps' folder is left alone if it dangles and refused if it leads to a file |
| Cutover.Run | apps/local-data-server/scripts/cutover-local-library.ts:168-209 | Stopped before any step, a new run ends in the same library; keys change only after every folder has moved, and all at once, and the retired folder goes only after that |
| Cutover.MoveFolders | apps/local-data-server/scripts/cutover-local-library.ts:170-184 | The folder moves complete exactly when nothing stands in their way |
| Cutover.MoveOne | apps/local-data-server/scripts/cutover-local-library.ts:172-183 | One move to the same name under `local` |
| Cutover.CutInByName | apps/local-data-server/scripts/cutover-local-library.ts:168-184 | Name by name: what goes under `local` is there and no longer here, what does not stays, dangling links among the app folders included |
| Cutover.CuttableExactly | apps/local-data-server/scripts/cutover-local-library.ts:168-184 | A cutover can complete exactly if no file is in place of either folder and no entry's new place is taken |
| Cutover.CutTouches | apps/local-data-server/scripts/cutover-local-library.ts:168-184 | No folder but the shared one and the apps' is touched |
| Cutover.RetireRemovesOnlyThat | apps/local-data-server/scripts/cutover-local-library.ts:207-208 | The retired records' folder is gone, every path apart from it is as it was |
| KeysFollow.CutoverKeepsBytes | apps/local-data-server/scripts/cutover-local-library.ts:168-209 | After a completed cutover every well-formed key's rewrite finds the bytes the key found |
| KeysFollow.CutoverIsFinal | apps/local-data-server/scripts/cutover-local-library.ts:168-184 | A run on a finished library changes no folder |
| KeysFollow.BoundFinds | apps/local-data-server/library-binding.ts:53-77 | What any owned key finds in a bound library, read off the library before |
| KeysFollow.BindingKeepsBytes | apps/local-data-server/library-binding.ts:53-77 | A completed binding leaves a key's rewrite finding the bytes the key found exactly if nothing existed at the rewrite's place, or the same bytes |
| KeysFollow.CutRunsEnd | apps/local-data-server/scripts/cutover-local-library.ts:168-209 | Any number of stopped cutover runs and one completed end where one completed run would |
| KeysFollow.BindRunsEnd | apps/local-data-server/library-binding.ts:53-77 | So do any number of stopped bindings for one user and one completed |
| KeysFollow.KeysFollowFiles | packages/storage-sqlite/src/library-owner.ts:12-32 | Runs of the cutover, then of the binding, each stopped any number of times before one completes: every row holds its key's rewrite, which finds the same bytes exactly if nothing else stood at its place |
| KeysFollow.AnotherUsersRunLosesKeys | packages/storage-sqlite/src/library-owner.ts:13-22 | A binding stopped for one user after the folder and completed for another: the files stay with the first, the keys find what the second had |
| KeysFollow.StatementsLoseTheKey | packages/storage-sqlite/src/library-owner.ts:129-143 | In any library that can be bound, a key as the statements rewrite it finds its file exactly when `/local/syncable/` does not stand in it again, but for what else stands at the place it points to |
| KeysFollow.NestedKeyIsLost | packages/storage-sqlite/src/library-owner.ts:138-142 | One such key |
| Crc.MakeTable | e2e/src/fixtures.ts:10-20 | Entry n is eight bit steps of n |
| Crc.ComputeCrc32 | e2e/src/fixtures.ts:22-28 | The table-driven loop computes the bit-serial checksum of every byte sequence |
| Bits.PolyIsTheConstant | e2e/src/fixtures.ts:15 | The polynomial's bits are 0xEDB88320 |
| Crc.BurstChangesCrc | e2e/src/fixtures.ts:22-28 | Messages of one length that differ only within four consecutive bytes never share a checksum |
| Crc.OneByteChangesCrc | e2e/src/fixtures.ts:22-28 | In particular messages that differ in one byte |
| Bits.BurstsAreDetected | e2e/src/fixtures.ts:14-16 | The same for any 32 consecutive bits, by linearity and invertibility of the bit step |
| CrcPoly.RegisterIsCongruent | e2e/src/fixtures.ts:22-28 | Register plus discarded quotient times the generator is the dividend |
| CrcPoly.RemainderIsUnique | e2e/src/fixtures.ts:22-28 | No other polynomial of degree below 32 is congruent to it |
| CrcPoly.CrcIsTheRemainder | e2e/src/fixtures.ts:22-28 | The checksum is exactly the remainder section 3.4 of RFC 2083 asks for |
| Png.MakeChunk | e2e/src/fixtures.ts:30-37 | Length, name and data, checksum; nothing for a length over four bytes |
| Png.ReadingInvertsFraming | e2e/src/fixtures.ts:30-37 | A byte string reads as a list of chunks exactly when it is their framing |
| Png.DamageIsSeen | e2e/src/fixtures.ts:30-37 | Up to four damaged bytes in a row of a name and data, or any damage to a checksum, is refused by the reader |
| PngImage.FillRaw | e2e/src/fixtures.ts:47-57 | The nested loops fill exactly the scanlines of the solid image, filter bytes included |
| PngImage.FillRow | e2e/src/fixtures.ts:49-56 | One scanline of them |
| PngImage.SolidPng | e2e/src/fixtures.ts:40-65 | Signature and the three chunks, or nothing where a length does not fit |
| PngImage.SolidDecodes | e2e/src/fixtures.ts:40-65 | A reader of the format gets the square of that colour back, for any lossless compression |
| Session.OneOwner | apps/local-data-server/server.ts:1096-1121 | Over every run and restart a bound library never changes owner |
| Session.BoundSessionsNameTheOwner | apps/local-data-server/server.ts:1169-1195 | From any boot, a bound session names that owner |
| Session.SignInBringsSync | apps/local-data-server/server.ts:1556-1565 | An owner's sign-in, or anyone's on a library without one, binds session, store and library, starts Drive's engine and the apps', and takes back the pause of a lost credential and no other |
| Session.AdmittedExactly | apps/local-data-server/server.ts:1542-1552 | Only a sign-in of another than the owner is refused, and then nothing changes |
| Session.TokenDecides | apps/local-data-server/server.ts:1172-1189 | What a token's arrival does, for every token, owner and stored session: bind, end the check, or refuse and stop a started supervisor |
| Session.ChecksExactlyTheSignedIn | apps/local-data-server/server.ts:1169-1172 | A check begins exactly under a sign-in |
| Session.RefusalEndsElsewhere | apps/local-data-server/server.ts:1190-1194 | A refused check tells the session and starts nothing |
| Session.HandPauseHolds | apps/local-data-server/server.ts:1133-1157 | A pause made by hand holds over every run without a resume, a sign-out or a restart |
| Session.ExactlyTheseBreakIt | apps/local-data-server/server.ts:1133-1157 | A step lets sync run under another sign-in exactly if it is a manual resume without the owner, an app installed or removed under a sign-in not the owner's, the end of a sign-in under which only a rescan had started engines, a sign-in whose owner check went stale while sync ran, or the late end of a refused check |
| Session.OwnersSyncInEveryRun | apps/local-data-server/server.ts:1542-1565 | In every run without those, sync runs only under the owner's sign-in |
| Session.InTurnOwnersSync | apps/local-data-server/server.ts:1542-1565 | With one check or sign-in at a time, no manual resume and no app change before the owner is known, sync only ever runs under the owner's sign-in |
| Session.StartedTakesRescans | apps/local-data-server/server.ts:4478 | Once sync has been started, apps may come and go and the sign-in may end at any time |
| Session.InstallStartsUnbound | apps/local-data-server/server.ts:802-804 | An app installed while the session's user is not known to be the owner starts its engine under that sign-in, and the engine outlives the sign-in |
| Session.ExactlyTheseDisagree | apps/local-data-server/server.ts:1169-1195 | A bound session stops being the stored one exactly when the store is cleared under it or changed while a check finished |
| Session.CheckOutlivesItsSession | apps/local-data-server/server.ts:1171-1192 | A run in which a check of one user finishes under the stored sign-in of another |
| Session.StoppedStartsAgainExactly | apps/local-data-server/server.ts:1112-1147 | A paused supervisor runs again without a restart exactly when a bound check finds it also paused for lack of a credential, or by a manual resume of what is listed |
| Session.SignOutMarksTheStopped | apps/local-data-server/server.ts:1153-1157 | Which any sign-out makes it |
| SessionServer.Server.TokenArrives | apps/local-data-server/server.ts:1172-1189 | The stretch from the token to `bindToUser`'s await is the model's step |
| SessionServer.Server.FinishCheck | apps/local-data-server/server.ts:1190-1194 | So is the rest of the check |
| SessionServer.Server.StartCheck | apps/local-data-server/server.ts:1169-1172 | And its beginning |
| SessionServer.Server.AdmitLogin | apps/local-data-server/server.ts:1542-1552 | Another owner's sign-in is refused with nothing stored |
| SessionServer.Server.StoreLogin | apps/local-data-server/server.ts:1556-1565 | Storing a sign-in, up to its check's first await |
| SessionServer.Server.EndSignIn | apps/local-data-server/server.ts:774-781 | The end of a sign-in pauses sync unless none was started |
| SessionServer.Server.StartOrKickSupervisor | apps/local-data-server/server.ts:1133-1150 | Starts once, resumes after a lost credential, otherwise kicks |
| SessionServer.Server.StartSupervisor | apps/local-data-server/sync-supervisor.ts:780-803 | Drive's engine, then a rescan, with any credential |
| SessionServer.Server.ChangeApps | apps/local-data-server/server.ts:4478 | An installed or removed app makes the supervisor rescan |
| SessionServer.Server.RescanApps | apps/local-data-server/sync-supervisor.ts:687-726 | App engines follow the registry wherever there is a credential, bound or not |
| SessionServer.Server.PauseSyncWithoutCredential | apps/local-data-server/server.ts:1153-1157 | Pauses and remembers why |
| Sse.FramesAppend | apps/admin-web/__tests__/sse.ts:33-36 | Complete frames stay as they are; only the unfinished rest meets what comes later |
| Sse.SseReader.Drain | apps/admin-web/__tests__/sse.ts:33-48 | The buffer's complete frames become events, the rest stays |
| Sse.SseReader.Next | apps/admin-web/__tests__/sse.ts:50-62 | The next of the events the whole stream says, or nothing once it has said them all |
| Sse.SseReader.Rest | apps/admin-web/__tests__/sse.ts:66-73 | All of them |
| Sse.ReadBothWays | apps/admin-web/__tests__/sse.ts:26-75 | For every cut of a stream into pieces the reader yields the events of the stream in one piece |
| Sse.ReadBack | apps/admin-web/src/lib/install-stream.ts:111-113 | Reading what the install routes send gives back every message, in order |
| Sse.SseClient.Feed | apps/local-data-server/__tests__/helpers.ts:228-245 | After any pieces the client has collected what the stream so far says |
| Strings.TrimExactly | apps/local-data-server/__tests__/helpers.ts:235-241 | Trimming finds the one string without white space at its ends that the text is, but for white space around it |
| Sse.ClientHearsTheWrites | apps/local-data-server/server.ts:931-947 | Cut anywhere, the stream of `connected`, pings and kicks is heard as exactly the whole writes so far |
| Guard.MatchIsInclusion | packages/admin-installer/scripts/check-temp-vs-boundary.ts:63-73 | A textual match is an inclusion of languages, wherever the wildcards stand |
| Guard.PermittedIsExact | packages/admin-installer/scripts/check-temp-vs-boundary.ts:75-80 | With wildcards only at the end of the allowed patterns, the test is exact even against all of them together |
| Guard.InnerWildcardIsRefused | packages/admin-installer/scripts/check-temp-vs-boundary.ts:67-71 | A pattern with an inner wildcard covers actions the test refuses |
| Guard.CheckPair | packages/admin-installer/scripts/check-temp-vs-boundary.ts:87-101 | The list holds exactly the allowed actions the boundary does not permit, in order |
| Guard.MissingExactly | packages/admin-installer/scripts/check-temp-vs-boundary.ts:87-101 | An action is listed, under its statement's name, exactly if an Allow statement names it and no pattern permits it |
| Guard.MissingInOrder | packages/admin-installer/scripts/check-temp-vs-boundary.ts:87-101 | The list follows the statements and, within one, its actions |
| Guard.BoundaryAllowedActions | packages/admin-installer/scripts/check-temp-vs-boundary.ts:53-60 | Exactly the actions of Allow statements |
| Guard.ActionPermittedByBoundary | packages/admin-installer/scripts/check-temp-vs-boundary.ts:75-80 | True exactly if some allowed pattern matches |
| Guard.GuardIsSound | packages/admin-installer/scripts/check-temp-vs-boundary.ts:87-101 | An empty list means the boundary removes nothing the policy grants, if the policy names its actions and no denial reaches them |
| Guard.SoundExactlyWhenDenialsApart | packages/admin-installer/scripts/check-temp-vs-boundary.ts:53-60 | For a boundary, that holds of every such policy exactly when its denials miss its allowed actions |
| Guard.NotActionIsNotLookedAt | packages/admin-installer/scripts/check-temp-vs-boundary.ts:92-98 | For every policy the list is that of the policy without its `NotAction`s; under a boundary whose denials stand apart the guard holds exactly if the list is not empty or the boundary grants all the policy grants without naming it |
| Range.ServesWhatIsAsked | apps/local-data-server/range.ts:15-52 | A printed range is served exactly the bytes section 2.1 of RFC 7233 gives it, refused when it has none |
| Range.EveryHeader | apps/local-data-server/range.ts:15-52 | A header without the form, or naming neither end, is served the whole file; any other what the printed request with its numbers is |
| Range.BodyIsWhatIsServed | apps/local-data-server/server.ts:3296-3346 | The body holds the bytes served and no others, in order |
| Range.HonouredWithinTheFile | apps/local-data-server/range.ts:15-52 | Every honoured header's range lies within the file exactly when the file has bytes |
| Range.ChunksReassemble | apps/local-data-server/server.ts:3296-3346 | The bodies of consecutive fixed-size requests concatenate to the file |
| Tokens.DecodesToWhatWasMinted | apps/local-data-server/server.ts:4755-4777 | A minted token decodes to exactly its fields, or to nothing where its key or type holds the separator or it has expired |
| Tokens.AcceptsOnlyTheSigned | apps/local-data-server/server.ts:4755-4777 | Of all strings exactly those decode that carry the signature of what they hold, to exactly what it says, with or without a scope, and not once their expiry has passed |
| Tokens.ParsesExactly | apps/local-data-server/server.ts:4766-4775 | An expiry is read exactly from a text that starts with white space, a sign or none, and digits |
| Tokens.ScopesApart | apps/local-data-server/server.ts:4733-4753 | A read token never uploads, an upload token never reads; each is good for its key and type until it expires |
| Tokens.ScopesAdmit | apps/local-data-server/server.ts:4733-4753 | Each check admits exactly the tokens of its scope |
| Numbers.TextIsCanonical | apps/local-data-server/server.ts:4711-4715 | A printed number has a sign exactly if negative, and starts with a zero exactly if it is zero |
| Tokens.ExpiryWithinTheHour | apps/local-data-server/server.ts:4724-4730 | The expiry is not before now+ttl and less than an hour after it |
| Tokens.ExpiryIsTheHoursEnd | apps/local-data-server/server.ts:4724-4730 | The expiry is the end of the hour that holds the requested one |
| Tokens.SameBucketSameExpiry | apps/local-data-server/server.ts:4694-4703 | Two mints share an expiry exactly if one hour holds both requested expiries |
| Tokens.SameTokenSameExpiry | apps/local-data-server/server.ts:4711-4717 | Tokens that differ at most in the expiry are one string exactly if they expire together |
| Tokens.SameHourSameToken | apps/local-data-server/server.ts:4694-4717 | Two read tokens of one file are the same string exactly if one hour holds both requested expiries |
| Tokens.CacheNeverOutlivesTheToken | apps/local-data-server/server.ts:4720-4722 | A response is cached for the whole seconds its token has left, and not at all after them |
| Pool.EveryItemOnce | apps/local-data-server/server.ts:612-625 | Never more under way than the limit; at rest every item was worked exactly once unless every worker was rejected |
| Pool.HistoryIsWhatCame | apps/local-data-server/server.ts:612-625 | What is finished and what failed is what the works came to |
| Pool.EachTimeAnother | apps/local-data-server/server.ts:612-625 | Each settled work is another item's |

## Left out

- HTTP routing, CORS, JSON bodies, and the record, label, metadata and stand-in routes.
- The sync engine, the uploader, the residency manager, SQLite and the S3 adapter: bodies on the runner's chain are
  lists of reads and writes that may reject, and cloud copies are contents that become proved.
- SHA-256, HMAC, base64url, deflate, Cognito: a content is its hash (no collisions), codecs are functions with an
  inverse, tokens name a user.
- Watcher: ingests of one watch are atomic and run one after another, so the batches of four and the interleaving of
  queues inside one ingest are not modelled; errors are thrown only by the stat, the record write after its link is
  made, and the row write; a file's category is a function of its name; log lines, relative paths and sizes are not
  kept; watched directories are disjoint, since the table's key is the path.
- Supervisor: a drain body does not reject (its own handler catches everything); debounce times and the clock, which
  only say when an armed timer fires; `exchangeAll` and `verifyAll` are bodies that move no timer.
- Supervisor: why an app's engine cannot be built, and the residency step after Drive's drain.
- Binding: the binding's database half is taken by its promise, and the statements are modelled beside it; dropping a
  duplicate primary-key row is not. Links lead to files, never to directories.
- Cutover: the dry run, the snapshots and the checks at the end, which change nothing; rows are a map from row to key.
- Keys are their segments; `.` and `..` segments and SQLite's case-insensitive `like` are not modelled.
- CRC: JavaScript's signed 32-bit values, which the source turns unsigned before use, are the same 32 bits here.
- Session: which apps have engines beyond whether any has (an app whose engine cannot be built counts as not installed,
  and Drive's can always be); e-mail addresses, the polling interval (a check may start at any time), revocation at the
  pool, and a server without a supervisor.
- Event streams: UTF-8 decoding before the pieces, and fields over several lines, which neither side uses.
- Guard: resources, conditions and the case of action names.
- Ranges: numbers beyond 2^53, and the trimming of the header.
- Admin-web and Drive screens, installers, teardown scripts and build configuration.
