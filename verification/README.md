# ChronoShare: a verified model

ChronoShare keeps a shared folder on several devices. Every device logs its own file actions under consecutive
sequence numbers, advertises a digest of what it knows of all devices, exchanges differences with the others, fetches
the actions it lacks and derives its table of files from the log. This project models that machinery and proves what it
is for: the devices never invent actions, every missing action is reported exactly once, and the protocol brings all roots
together. It states exactly when the devices can still reach the same complete log and the same files: after any run
without restarts and stuck fetches they can, and from any state that can occur they can if and only if no device has
lost an action for good. A restart can lose one, and the theorems say which.

`dafny verify dfyconfig.toml` checks everything.

## Structure

| file | models |
|---|---|
| `Names.dfy`, `StateVectors.dfy` | device names; sync states as maps, their join, differences and messages |
| `SyncLog.dfy` | the sync database: the two triggers, the log of states, differences between logged states |
| `SyncCore.dfy` | the handlers of one protocol participant |
| `ActionLog.dfy` | the action log, its insert trigger and the file table |
| `Dispatcher.dfy` | from a reported difference to ranges of actions |
| `FileFetch.dfy` | file fetches and the object databases they share; exactly when segments are lost |
| `FetchTasks.dfy` | which reported ranges are queued, being fetched or in the task table |
| `Replicas.dfy` | all devices over a network that loses, duplicates and reorders; the system invariant |
| `ReplicaSafety.dfy` | what every run keeps |
| `Convergence.dfy`, `Exchanges.dfy` | how roots change; exchanges between two devices and runs that make all roots equal |
| `ActionFetches.dfy`, `RestartLoss.dfy` | which actions are lost to a device, event by event and over runs; a run that loses one |
| `FileConvergence.dfy` | exactly when logs and files can become equal |
| `Fetcher.dfy`, `FetchManager.dfy` | the segment window of one fetch; running a limited number of fetches |
| `FetchRetry.dfy` | when and in which order the manager starts its fetchers: back-off and priority |
| `ActionDelivery.dfy` | what the runs of fetchers and managers mean for the log of a device |
| `Scheduler.dfy`, `Executor.dfy` | tagged tasks and timers; the worker pool |
| `DigestStream.dfy` | the byte stream behind the root digest |
| `RequestParser.dfy` | the HTTP request machine of the built-in server |
| `JsonString.dfy`, `JsonBuilder.dfy` | JSON escapes; rebuilding a value from parser callbacks |

Objects whose methods change fields are classes. Each method is proved against a function of the old state, and the
lemmas about runs speak of those same functions, so a run lemma is a statement about what the methods do.

## Modelling decisions

- A digest is represented by the state that was digested (`SyncLogs.Hash`), that is, taken to be free of collisions.
  `DigestStream.SameStreamIffSameState` is the reason why that is enough: with prefix-free names different states
  give different byte streams. The digest of no rows equals `Hash::Origin`, the single zero byte.
- Every handler and every executor job is one atomic step. The network keeps every packet ever sent, and any packet may
  reach any device any number of times or never; this includes every behaviour of interest and data matching.
- Replies to sync and recovery interests are modelled as sent: `src/sync-core.cc:207-210` and `242-245` build the data
  packet but, unlike `142`, do not put it.
- `operator<<` for a hash prints nothing (its body is commented out in `src/hash-helper.cc`), so all recovery
  tasks share one tag and a device has at most one of them scheduled (`Core.pending`). Two other places are modelled as
  intended, because as written they cannot work: with an empty text the look-up at `src/dispatcher.cc:360` throws
  in `ObjectDb::DoesExist`, so `FileFetches` takes the text, and the last part of a file's base name, to name the hash; and `src/sync-core.cc:412-419` never sizes
  the buffer it encodes the hash into, so `SyncCores` takes the recovery interest to carry the hash.
- A restart (`Replicas.Restart`) is a restart of the process, which builds everything anew from the databases
  (`src/dispatcher.cc:76-89`): the root is advertised again, the queue and all fetchers are gone, and each row of the
  task table is enqueued (`src/fetch-manager.cc:67-70`). `Replicas.FirstStart` and `Replicas.StartAgain` run the
  constructors and arrive at these states. A process that is killed inside a handler is not covered: every handler is
  done or has not begun.
- The task table has one row for each device, because its key is (deviceName, baseName) and the base name of actions
  depends on the device only (`src/dispatcher.cc:327-328`). `src/fetch-task-db.cc:105` binds the device name with the
  length of the base name. Because a base name extends its device name, that is never the name of a row with that base
  name (`FetchTasks.NoRowMatches`), so completions delete nothing and a device's row is there for ever.
- `Replicas.Abandon` is a fetch that never gets on, be it stuck (`Fetchers.GetsStuckIff`) or never started because the
  count of running fetches is wrong (`FetchManagers.CountCanGoWrong`). It may happen to any fetch at any time.
  All the other fetch events of a node are what its fetchers do: `ActionDeliveries.ManagerFeedsLog`.
- A run of a fetcher is one that the one-thread executor can produce without a job that waits for 30 seconds when no
  number is given up while a fill is queued (`Fetchers.Patient`). What is proved of all runs does not need that, and the
  runs that show a failure are patient.
- A file fetch completes only when all of its segments have been handed to the dispatcher, as
  `FileFetches.CompletionMeansAllDelivered` proves of fetchers, and the segments are handled before the completion, because
  the dispatcher's executor has one thread and one queue.
- `src/action-log.cc:315-324` deletes from a `FileState` table that `action-log.db` does not have, so it has no
  effect; the row is removed through the trigger. The model follows the code.
- A device reports differences only when it receives state data, so changes it makes itself are not among the
  ranges it requests; the tiling statements are about the other devices.
- `GetLatestActionForFile` orders by version only. Where several actions share the version, the model allows any of them.
- A timed-out interest that is expressed again keeps its own number in the runs of `Fetchers`. The code gives its
  callbacks the number plus one (`src/fetcher.cc:281-282`); `Fetchers.ShiftedCallbackIff` says exactly when the record of
  what was received is then right, and `Fetchers.ShiftedCallbackCountsIff` when the count of interests in flight is.
- Timers may fire at any time once set, and time is a number that a caller passes in.
- Characters of the HTTP parser above 127 are neither `is_char` nor control characters, as for the signed `char` of the
  source. JSON strings are bytes, a negative `char` being its value plus 256.

## Results about the code that a reader may not expect

- A restart can lose an action for good. The task table keeps only the first range of each device, for ever, while the
  root already counts the actions of the later ones, so they are never requested again
  (`FileConvergence.RestartLosesAllButTheFirstRange`). `RestartLosses.RestartCanLoseAnAction` is such a run, and
  `FileConvergence.RestartLosesForGoodIff` says which actions a restart loses. Files can become equal without restarts exactly when no device has lost an action
  (`FileConvergence.CanConvergeIff`), with restarts exactly when none is also missing from the table
  (`FileConvergence.CanConvergeWithRestartsIff`).
- A fetcher started again after a failure can report completion twice (`Fetchers.RestartCanCompleteTwice`). A completed
  fetcher reports again in some run exactly when it has a number in flight, or a fill queued and its send position before
  the end (`Fetchers.ReportsAgainIff`).
- A fetcher that receives data after giving a segment up can stay active for ever with nothing in flight
  (`Fetchers.DataAfterGiveUpCanGetStuck`); it gets stuck exactly by running the last queued fill with nothing in flight
  and every number past the send position received (`Fetchers.GetsStuckIff`).
- The manager's count of running fetches is kept right by an event exactly when the event is not a report of a fetcher
  that is not active (`FetchManagers.CountStaysRightIff`), and the double completion does break it
  (`FetchManagers.CountCanGoWrong`). A decrement at zero wraps around to 2^32 - 1, above any limit.
- Removal tasks of completed fetchers share their base name as tag, so a fetcher that completes while another of the
  same base name waits for removal is left without one (`FetchManagers.RemovalIsScheduledIff`,
  `FetchManagers.FetchersCanStrand`). It is never removed, whatever happens, exactly when it will never report again
  (`FetchManagers.StrandedForEverIff`).
- `rescheduleTaskAt` with an invoked, unmapped task that is not running leaves a tag that nothing will ever run
  (`Schedulers.RescheduleAtIsSafeIff`, `Schedulers.InvokedTaskDies`).
- Fetches of the same contents share one object database handle, and the end of one closes it for the others. A device
  can lose segments of some contents exactly when two of the actions it fetches name them from two devices, or from one
  with different numbers of segments (`FileFetches.ActionsCanLoseIff`). Two fetches of the same copy lose nothing,
  because the first to end has saved all. `FileFetches.CanLoseIff` says the same of the fetches under way.
- A segment that was lost is lost for good exactly when another segment of its copy was committed and no running fetch
  will bring it, because the copy then counts as stored and is not fetched again (`FileFetches.CanBeSavedIff`,
  `FileFetches.ActionsCanLoseForGoodIff`).
- A fetcher that was started twice can be removed, and deleted, while an interest of it is in flight
  (`FetchManagers.RestartedCanBeRemovedInFlight`); one that was started once cannot (`FetchManagers.RemovedIsIdle`).
- A local deletion is logged exactly for the files that are shown, whatever row the query for the highest version
  returns, if and only if no update and deletion of the file tie for it (`ActionLogs.DeletionIsLoggedIff`).
- JSON strings written in raw mode keep control characters that have no two-character escape
  (`JsonStrings.ControlIsWrittenIff`).
- A delta is as good as the full state exactly for receivers that hold the entries on which the two states agree
  (`StateVectors.DeltaIsAsGoodAsFullIff`).
- Two actions with the same file, version and device would leave the file table dependent on arrival order
  (`ActionLogs.OrderMattersIff`); `ReplicaSafety.StampsNameOneAction` shows that no run produces such a pair.

## Model

| member | source | states |
|---|---|---|
| StateVectors.DiffPatchesOldToNew | src/sync-log.cc:385-493 | Applying the reported difference of any two states to the old one, updates setting and deletes removing, gives exactly the new one |
| StateVectors.DiffEmptyIffEqual | src/sync-log.cc:385-493 | A difference has no record exactly when the two states are equal |
| StateVectors.MergeIsJoin | src/sync-log.cc:51-63 | Merging a message record by record through the max trigger is the join with what its updates say, whatever their order |
| StateVectors.JoinIsLeast | src/sync-log.cc:51-63 | The merged state is the least one above both, so merging cannot overshoot |
| StateVectors.MergeBounded | src/sync-log.cc:51-63 | Merging a message whose updates stay below a bound stays below that bound and never lowers a number |
| StateVectors.UpdatesOfDiff | src/sync-log.cc:385-493 | The updates in a difference are exactly the new values of the changed devices |
| StateVectors.DeltaIsAsGoodAsFullIff | src/sync-core.cc:234-245 | Merging the delta from s to t equals merging all of t exactly for receivers holding what s and t agree on; in particular for all receivers at or above s |
| StateVectors.FullReplyIsJoin | src/sync-core.cc:197-210 | Merging a recovery reply is the join with the whole sent state |
| SyncLogs.GuardReplacesOnlyTheNewest | src/sync-log.cc:87-96 | The guard trigger deletes at most one row, and only the newest, when the current state is logged again |
| SyncLogs.RememberedKeepsChain | src/sync-log.cc:151-230 | Logging keeps the snapshots strictly increasing, bounded by SyncNodes and filed under their own hash, and puts the current state last |
| SyncLogs.RememberedLosesNoHash | src/sync-log.cc:151-230 | After logging, the known hashes are those known before and the current one, and old hashes find the same snapshots |
| SyncLogs.SnapshotIsPreimage | src/sync-log.cc:151-230 | A query by a logged hash finds exactly the state that was digested |
| SyncLogs.DiffToRootHasNoDelete | src/sync-log.cc:385-493 | A difference from a logged state to the newest one has only updates, and none lowers a number |
| SyncLogs.SyncLog.constructor | src/sync-log.cc:100-126 | Opening a stored database keeps its rows and enters the local device with 0 unless it is there |
| SyncLogs.SyncLog.UpdateDeviceSeqNo | src/sync-log.cc:270-290 | Inserting a number leaves the maximum, adds an unknown device and keeps the log valid |
| SyncLogs.SyncLog.GetNextLocalSeqNo | src/sync-log.cc:128-149 | Returns one more than the local number and stores it |
| SyncLogs.SyncLog.RememberStateInStateLog | src/sync-log.cc:151-230 | The new rows are the guarded insertion of the current state; the hash returned is the newest row's and no known hash is lost |
| SyncLogs.SyncLog.LookupSyncLog | src/sync-log.cc:238-266 | The id is positive exactly for logged hashes and belongs to the row of that hash and snapshot |
| SyncLogs.SyncLog.StateOf | src/sync-log.cc:385-493 | The rows that a join by hash selects, none for a hash that is not logged |
| SyncLogs.SyncLog.FindStateDifferences | src/sync-log.cc:385-493 | Lists each changed device once with the right record and nothing else, for logged and unknown hashes alike |
| SyncLogs.SyncLog.SelectOldRows | src/sync-log.cc:393-440 | The first select reports exactly the changed devices of the old state |
| SyncLogs.SyncLog.SelectNewRows | src/sync-log.cc:393-440 | The second select completes the report with the devices only the new state has |
| SyncCores.RootFacts | src/sync-core.cc:326-380 | The advertised root is logged, is at or below SyncNodes, and is at or above every logged state |
| SyncCores.AdvertiseKeepsCoreOk | src/sync-core.cc:124-155 | Logging and advertising the current state keeps the participant's invariant and adds one known hash |
| SyncCores.AbsorbKeepsCoreOk | src/sync-core.cc:326-380 | Merging any received message keeps the invariant and never lowers the root |
| SyncCores.SyncCore.constructor | src/sync-core.cc:50-72 | Starting on a database logs its state and advertises it, with no recovery scheduled |
| SyncCores.SyncCore.LocalStateChanged | src/sync-core.cc:124-155 | Advertises the new root and publishes, under the previous root, the difference; it contains only the device's own update |
| SyncCores.SyncCore.HandleSyncInterest | src/sync-core.cc:221-261 | Nothing for the same root, a delta to the root for a known hash, one scheduled recovery for an unknown hash |
| SyncCores.SyncCore.Recover | src/sync-core.cc:406-432 | Asks for recovery exactly when the hash is still unknown |
| SyncCores.SyncCore.HandleRecoverInterest | src/sync-core.cc:191-219 | Replies exactly when the hash is known, with the difference from the empty state |
| SyncCores.SyncCore.HandleStateData | src/sync-core.cc:326-380 | Merges every update, logs the result and reports the exact difference from the previous root; undecodable data changes nothing |
| SyncCores.SyncCore.ApplyEntries | src/sync-core.cc:339-368 | The loop over the records of a message is the merge of the message |
| SyncCores.SyncCore.RememberAndCompare | src/sync-core.cc:370-379 | Reports exactly when the root changed, with the difference between the two roots |
| ActionLogs.RankIsTotal | src/action-log.cc:66-77 | Of two actions on a file with different (version, device) exactly one outranks the other |
| Names.BeforeIffFirstDiffer | src/action-log.cc:66-77 | One device name is before another exactly when it has the smaller byte where they first differ, or ends there |
| Names.ByteDecides | src/action-log.cc:66-77 | Whatever two names begin with, the smaller next byte comes first, and a proper prefix comes before the longer name |
| ActionLogs.GreatestIsShown | src/action-log.cc:66-83 | Of the actions on a file the one with the highest version and, among those, the greatest device is what the table shows, field by field; if it is a deletion there is no row |
| ActionLogs.FilesShowTheGreatest | src/action-log.cc:66-83 | A file is in the table exactly when its greatest action is an update, and the row names that action; every file with actions has a greatest one |
| ActionLogs.InsertKeepsView | src/action-log.cc:66-83 | After every insertion the file table shows, for each file, what its highest-ranked action says |
| ActionLogs.SameActionsSameFiles | src/action-log.cc:66-83 | Stores with the same actions have the same file table, so the table is a function of the set of actions |
| ActionLogs.ArrivalOrderIsIrrelevant | src/action-log.cc:536-606 | Any two sequences of the same consistent actions, in any order and with repeats, end in the same log and file table |
| ActionLogs.OrderMattersIff | src/action-log.cc:66-83 | For two actions the order of arrival is irrelevant exactly when their stamps differ or both are deletions |
| ActionLogs.LocalActionWins | src/action-log.cc:157-285 | A local action outranks everything known locally for the file and shows at once |
| ActionLogs.LocalUpdateSays | src/action-log.cc:174-227 | A local update is of the local device, file and contents it was called with, one version above the latest action found, and linked to it exactly when that is an update |
| ActionLogs.LocalDeleteSays | src/action-log.cc:295-370 | A local deletion is of the file it was called with, one version above the latest action found and linked to it |
| ActionLogs.ShownFileIsLinked | src/action-log.cc:192-227 | An update of a file that is shown, and not also deleted in its highest version, has a parent: an update of the file of the highest version known |
| ActionLogs.DeletionIsLoggedIff | src/action-log.cc:295-331 | Whatever row the query for the highest version returns, a local deletion finds an update exactly for the files that are shown, if and only if no update and deletion tie |
| ActionLogs.FileState.UpdateFile | src/file-state.cc:66-138 | The file's row becomes the given one, updated or inserted, and no other row changes |
| ActionLogs.FileState.DeleteFile | src/file-state.cc:141-155 | The file's row is gone and no other row changes |
| ActionLogs.ActionLog.ApplyAction | src/action-log.cc:874-916 | An update sets the row, a deletion removes it and reports the removal |
| ActionLogs.ActionLog.InsertRow | src/action-log.cc:66-83 | The row is added unless its key is taken, and no other row changes; the file table changes, and the removal callback is called, exactly when no action on the file has a higher version, or the same version and a greater device |
| ActionLogs.ActionLog.GetLatestActionForFile | src/action-log.cc:121-154 | Finds an action of the highest version of the file, or none when there is no action |
| ActionLogs.ActionLog.AddLocalActionUpdate | src/action-log.cc:157-285 | Logs an update of the file with the contents of the call under the next local number, one version above the latest action found; there is no parent exactly when nothing or a deletion was found, and otherwise the parent is that action |
| ActionLogs.ActionLog.AddLocalActionDelete | src/action-log.cc:295-360 | Logs a deletion of the file, linked to the latest action found, exactly when that is an update, and the file is gone; otherwise nothing changes |
| ActionLogs.ActionLog.AddRemoteAction | src/action-log.cc:536-606 | A decodable action is inserted with the trigger's effect; the log stays valid when its stamp is new |
| Dispatchers.Dispatcher.DidSyncLogStateChange | src/dispatcher.cc:311-334 | Enqueues, record by record, the range from the old number plus one to the new one, skipping records without an old number and empty ranges |
| Dispatchers.TilesCoverOnce | src/dispatcher.cc:311-334 | Ranges that continue one another cover each number up to their end by exactly one range and no other number |
| Dispatchers.ReportExtendsTiling | src/dispatcher.cc:311-334 | Handling the difference between two states extends a device's tiling exactly from the old number to the new one |
| Dispatchers.RangesAreReported | src/fetch-manager.cc:96-100 | Every enqueued range is non-empty, starts at 1 or later and ends at a number the report contains |
| FetchTasks.FetchTaskDb.AddTask | src/fetch-task-db.cc:75-93 | Inserts the range unless the device has a row |
| FetchTasks.FetchTaskDb.DeleteTask | src/fetch-task-db.cc:97-111 | Whatever follows the device name in memory, the statement finds no row and the table stays as it is |
| FetchTasks.FetchTaskDb.ForeachTask | src/fetch-task-db.cc:115-134 | Visits each row of the table once |
| FetchTasks.FirstRangeGetsTheRow | src/fetch-manager.cc:106-110 | Of the queued ranges of a device the first one gets the row of the device, unless there is a row already |
| FetchTasks.EveryRangeIsFetched | src/dispatcher.cc:311-334 | Every queued range gets a fetcher and none else does |
| FetchTasks.NoRowMatches | src/fetch-task-db.cc:97-111 | A row whose device name is what the statement binds never has the base name of the completed fetch |
| FetchTasks.NewRangesHold | src/dispatcher.cc:311-334 | The ranges added to a tiling by a report hold exactly the numbers from its old end to its new one |
| FileFetches.CompletionMeansAllDelivered | src/fetcher.cc:203-221 | A fetcher of n segments reports completion only if n is positive and all of them have been delivered |
| FileFetches.ActionStartsFetch | src/dispatcher.cc:349-379 | An update starts a fetch of as many segments as it names, for its device and contents, with the database open, exactly unless a row of the copy is committed; then the completion is announced |
| FileFetches.CanLoseIff | src/dispatcher.cc:429-480 | Fetches that have lost nothing so far can lose a segment, without new actions, exactly when one of them needs an unsaved segment whose database is closed or will be closed by a running fetch that does not bring the segment or by the notice of a stored copy |
| FileFetches.ActionsCanLoseIff | src/dispatcher.cc:337-480 | A device that fetches only given actions can lose a segment of some contents exactly when two of the actions name these contents from two devices, or from one with different numbers of segments |
| FileFetches.CanBeSavedIff | src/object-db.cc:77-115 | Some run saves a segment in the end exactly unless it is unsaved, its copy counts as stored and no running fetch will bring it |
| FileFetches.ActionsCanLoseForGoodIff | src/dispatcher.cc:360-379 | A segment can be lost for good exactly when two of the actions clash and the copy that suffers has two segments or both name the same device |
| FileFetches.SharedContentsLoseSegments | src/dispatcher.cc:462-480 | For any two clashing actions there is a run in which the one fetch delivers and saves all it needs and completes, and then a segment of the other arrives and is dropped |
| FileFetches.Dispatcher.DoesExist | src/object-db.cc:77-115 | A copy counts as stored exactly when some row of it has been committed |
| FileFetches.Dispatcher.DidActionFetch | src/dispatcher.cc:337-379 | An update whose copy is not stored opens the database and starts a fetch of its segments; for a stored copy a completion is announced; the rest changes nothing |
| FileFetches.Dispatcher.DidFileSegmentFetch | src/dispatcher.cc:429-454 | A segment of a running fetch becomes a row exactly when the database for its hash is open |
| FileFetches.Dispatcher.DidFileFetchComplete | src/dispatcher.cc:462-480 | Completion ends the fetch, closes the database of its hash if it is open and so commits its rows |
| FileFetches.Dispatcher.DidFindStored | src/dispatcher.cc:360-365 | The announced completion of a stored copy closes the database of its hash in the same way |
| Replicas.LocalStepFits | src/action-log.cc:157-285 | A local action takes the next number, keeps all ledger facts and shows at once on its own device |
| Replicas.AbsorbFits | src/sync-core.cc:326-380 | Merging a message that claims nothing beyond the counters keeps a device's own number exact and the others within their counters |
| Replicas.ReportFits | src/sync-core.cc:370-379 | The ranges requested for a change of root can be served and continue the tiling of every other device |
| Replicas.StampsAreUnique | src/action-log.cc:174-216 | Actions of the system's ledger never share (file, version, device) |
| Replicas.LedgerGrows | src/action-log.cc:157-285 | Logging the next action keeps versions of a file increasing per device and parent links one version apart |
| Replicas.StepKeepsSystemOk | src/sync-core.cc:124-432 | Every event at any device, restarts and abandoned fetches included, keeps the invariant of the whole system |
| Replicas.RunKeepsSystemOk | src/sync-core.cc:124-432 | The invariant holds after every run, whatever is lost, duplicated or reordered |
| Replicas.FirstStart | src/dispatcher.cc:43-89 | The constructors, run on empty databases, give the state in which every device of a run begins |
| Replicas.StartAgain | src/dispatcher.cc:43-89 | The constructors, run on the databases left behind, give the state after a restart, and the ranges to enqueue are those of the task table |
| ReplicaSafety.NobodyIsOverclaimed | src/sync-log.cc:51-63 | In every run no device records for another a number above that device's own counter |
| ReplicaSafety.OwnLogIsComplete | src/action-log.cc:157-285 | A device's own log holds its actions for exactly 1 up to its counter |
| ReplicaSafety.RequestsCanBeServed | src/dispatcher.cc:311-334 | Every action in every requested range exists in the log of the device it is asked from |
| ReplicaSafety.RequestsTile | src/sync-core.cc:370-379 | Over a whole run, restarts included, the numbers of another device up to the advertised root are each reported in exactly one range and no others are; every pending range is one of those, and no two pending ranges overlap |
| ReplicaSafety.StampsNameOneAction | src/action-log.cc:66-77 | Across all replicas equal keys or equal (file, version, device) mean the same action |
| ReplicaSafety.ParentIsOneVersionEarlier | src/action-log.cc:174-216 | Each parent link leads to an update of the same file with a version exactly one lower |
| ReplicaSafety.LocalChangesAreLinked | src/action-log.cc:157-360 | In every run a local deletion, and a local update of a file that is shown and not also deleted in its highest version, is linked to an update of the file of the highest version known |
| ReplicaSafety.HistoryIsComplete | src/action-log.cc:192-227 | Walking parent links leads back to version 0 or to the update that followed a deletion of the file |
| ReplicaSafety.UndeletedFileKeepsItsHistory | src/action-log.cc:192-227 | In every run the history of an action on a file that nobody deleted holds every version from its own down to 0 |
| ReplicaSafety.HistoryDescends | src/action-log.cc:174-216 | Walking parent links ends; the i-th ancestor is of the same file and i versions earlier |
| ReplicaSafety.SameLogSameFiles | src/action-log.cc:66-83 | In every run replicas with equal logs have equal files |
| ReplicaSafety.SettledReplicasAreEqual | src/sync-core.cc:326-380 | When roots agree, everything is advertised and requests are fetched, all replicas hold exactly all actions and equal files |
| ReplicaSafety.HashesAreKept | src/sync-log.cc:87-96 | No event makes a device forget a hash |
| ReplicaSafety.AdvertisedHashesStayResolvable | src/sync-core.cc:382-404 | Every hash ever advertised can be resolved by some device in every later state, restarts included |
| ActionFetches.LostIff | src/fetch-manager.cc:91-139 | The exact effect of every event on what is lost to a device: only an abandoned fetch or a restart loses an action, and only a restart finds one again |
| ActionFetches.UndisturbedLosesNothing | src/fetch-manager.cc:91-139 | In a run without restarts and abandoned fetches of a device exactly those actions are lost at the end that were lost at the start |
| ActionFetches.NothingIsLostFromTheStart | src/dispatcher.cc:311-334 | A device that is never restarted and whose fetches all get on awaits every action that it lacks, up to its root |
| ActionFetches.LostUntilRestart | src/fetch-manager.cc:91-139 | A lost action stays lost in every run without a restart of the device |
| ActionFetches.RowsAreKept | src/fetch-task-db.cc:75-111 | In every run a row of the task table stays what it is, so it is the first range of its device that was enqueued |
| ActionFetches.GoneForGood | src/fetch-manager.cc:67-70 | An action that is lost and not in the task table never arrives, whatever follows, restarts included |
| RestartLosses.RestartCanLoseAnAction | src/fetch-manager.cc:247-250 | For any two devices there is a run after which one of them can never get the second action of the other, although its root counts it |
| Convergence.QuietEventMissesLess | src/sync-core.cc:326-380 | Without local changes no event raises the number of missing sequence numbers, and one that changes a root lowers it |
| Convergence.RootChangesAreBounded | src/sync-core.cc:326-380 | In every run without local changes the number of root changes plus what is missing at the end is at most what was missing at the start |
| Convergence.AgreementIsStable | src/sync-core.cc:326-380 | A root that equals the counters is changed by no packet, however old or repeated |
| Convergence.ToldIsKnown | src/sync-core.cc:191-261 | In every run without local changes a device that is answered by another, with a delta or in full, ends at or above the root the other had then |
| Convergence.PassedIsKnown | src/sync-core.cc:191-261 | In every run without local changes, what is passed on by a chain of answers over any devices is known to the last one in the end |
| Convergence.GossipConverges | src/sync-core.cc:191-432 | Every run without local changes, whatever it loses, repeats or mixes, in which what everybody published is passed on to everybody, over whatever devices, ends with all roots at the exact counters |
| Convergence.ToldRunsConverge | src/sync-core.cc:191-432 | In particular every such run in which everybody is told directly by everybody |
| Exchanges.DeltaExchange | src/sync-core.cc:221-245 | In every run that is an interest, the delta in answer and its receipt, the sender of the interest rises to at least the hearer's root |
| Exchanges.RecoverExchange | src/sync-core.cc:246-261 | In every run that is an interest, a recovery of the unknown hash, the full answer and its receipt, the hearer rises to at least the other's root |
| Exchanges.ExchangeRaises | src/sync-core.cc:191-261 | An exchange lifts the sender of the interest to the hearer's root if the hearer knows the root it heard, otherwise the hearer to the sender's, and lowers no root |
| Exchanges.OneOfTwoExchangesRaises | src/sync-core.cc:191-261 | Take two devices with different roots and any exchange started by the one and any started by the other: at least one of the two strictly raises a root of theirs and lowers the measure |
| Exchanges.PublishRaises | src/sync-core.cc:124-155 | A device with unadvertised actions can publish them, which lowers the measure |
| Exchanges.RootsConverge | src/sync-core.cc:191-432 | From every state that can occur a run of exchanges and publications brings all roots to the exact counters |
| Exchanges.NothingMissingIff | src/sync-core.cc:326-380 | The measure is zero exactly when every root is the exact counters |
| FileConvergence.ActionCanBeFetchedIff | src/dispatcher.cc:311-334 | An existing action can be fetched by a device exactly when a fetcher of the device is at work on a range that holds it |
| FileConvergence.CanArriveIff | src/fetch-manager.cc:91-139 | An action that a device lacks arrives in some run exactly when it is queued, being fetched or in the task table |
| FileConvergence.RestartLosesForGoodIff | src/fetch-manager.cc:67-70 | After a restart an action that the device lacks arrives in no run exactly when the task table did not hold it |
| FileConvergence.RestartLosesAllButTheFirstRange | src/fetch-manager.cc:67-70 | Once the table holds a range of a device, a restart at any later time loses every action of that device that is lacking and not in the range, and no other of them, for good |
| FileConvergence.CanConvergeIff | src/dispatcher.cc:337-346 | From every state that can occur some run without local changes and restarts makes all roots, complete logs and files equal exactly when nothing is lost to any device |
| FileConvergence.CanConvergeWithRestartsIff | src/dispatcher.cc:337-346 | With restarts allowed as well, exactly when no action is both lost to a device and missing from its table |
| FileConvergence.ReplicasConverge | src/dispatcher.cc:337-346 | After every run without restarts and abandoned fetches, protocol messages and fetches alone can make all logs complete and all files equal |
| Fetchers.FillKeepsCounts | src/fetcher.cc:91-119 | Filling keeps the window's invariant, stops only at the end or with six in flight, and asks for exactly the unreceived numbers it passes |
| Fetchers.DataKeepsCounts | src/fetcher.cc:173-198 | Recording a segment adds exactly that number to what is recorded and keeps the in-order prefix maximal |
| Fetchers.RunKeepsFetchOk | src/fetcher.cc:74-227 | Over every run with give-ups and restarts what was delivered is exactly the in-order prefix and the out-of-order set, and completion means that all of the range arrived |
| Fetchers.SingleStartDeliversOnce | src/fetcher.cc:127-227 | On a run with a single start each segment is delivered at most once, completion is reported at most once, and afterwards only idle fills can happen |
| Fetchers.FillLeavesNothingIff | src/fetcher.cc:91-119 | After filling nothing is in flight exactly when nothing was and all remaining numbers have been received |
| Fetchers.UnfinishedHasSomethingInFlight | src/fetcher.cc:91-119 | While nothing was given up since the last start, an unfinished fetcher that has filled is active with something in flight |
| Fetchers.DataAfterGiveUpCanGetStuck | src/fetcher.cc:236-268 | A run, possible in the same sense, after which a fetcher is active and unfinished with no event left that could wake it |
| Fetchers.GetsStuckIff | src/fetcher.cc:91-119 | An event leaves an active unfinished fetcher with nothing that could wake it exactly when it is the last queued fill, nothing is in flight and all numbers past the send position have been received |
| Fetchers.RestartGoesOn | src/fetcher.cc:74-119 | A fetcher that is started again asks for the first six segments that have not been handed over, or all if fewer, and for no other |
| FetchManagers.EveryRestartGoesOn | src/fetcher.cc:74-119 | The same for every restart, whatever was received and given up before, in every run in which nothing is given up with a fill queued |
| Fetchers.AsksAgainIff | src/fetcher.cc:91-119 | A fill of a completed fetcher leaves something in flight exactly when something was already or the send position is before the end |
| Fetchers.ReportsAgainIff | src/fetcher.cc:204-222 | A completed fetcher reports completion again in some run exactly when it has a number in flight, or a fill queued and its send position before the end |
| Fetchers.AsksAfterCompletionIff | src/fetcher.cc:204-222 | A completed fetcher can come to have something in flight in exactly the cases in which it can report again |
| Fetchers.CompletesAgain | src/fetcher.cc:204-222 | In that case a queued fill and its data make the fetcher report completion once more |
| Fetchers.RestartCanCompleteTwice | src/fetcher.cc:74-84 | A run with one failure and one restart, possible with a one-thread executor and the 30-second test, in which completion is reported twice |
| Fetchers.ShiftedCallbackIff | src/fetcher.cc:276-282 | Recording a segment under another number is right exactly when the numbers are equal or both were recorded before |
| Fetchers.ShiftedCallbackCountsIff | src/fetcher.cc:276-282 | With a callback under another number the count of interests in flight stays right exactly when that number is in flight; the number that was sent stays in flight exactly when the two differ |
| Fetchers.AdvanceIsUnique | src/fetcher.cc:176-196 | The in-order prefix after receipt is determined by being contiguous and maximal |
| Fetchers.Fetcher.RestartPipeline | src/fetcher.cc:74-83 | Sets the fetcher active, moves the send position to the end of what was received in order and queues a fill |
| Fetchers.Fetcher.FillPipeline | src/fetcher.cc:91-119 | The loop has the effect of the recursive window filling |
| Fetchers.Fetcher.AdvanceInOrder | src/fetcher.cc:178-196 | The walk over the ordered set ends at the maximal contiguous prefix and keeps exactly the larger numbers |
| Fetchers.Fetcher.OnDataExecute | src/fetcher.cc:127-227 | One segment is delivered and recorded; completion is reported exactly when the prefix reaches the end, otherwise a fill is queued |
| Fetchers.Fetcher.OnTimeoutExecute | src/fetcher.cc:236-283 | Without activity the number is given up, and failure is reported exactly when nothing is left in flight; otherwise the same segment is asked for again with callbacks under the next number |
| FetchManagers.CountStaysRightIff | src/fetch-manager.cc:142-258 | Each event keeps the count equal to fetchers running or with a completion queued, within the limit, exactly when it is no report of an inactive fetcher |
| FetchManagers.RunKeepsCountRight | src/fetch-manager.cc:142-258 | In every run in which all reports are owed the count is right and within the limit |
| FetchManagers.CountCanGoWrong | src/fetch-manager.cc:241-258 | For every limit there is a run after which the count is wrong, by a double completion and without giving a number up while a fill is queued |
| FetchManagers.RunKeepsManagerOk | src/fetch-manager.cc:84-266 | In every run fetchers keep their invariant, ids stay distinct, removal tasks belong to completed fetchers and the pause is the closed form of the number of failures |
| FetchManagers.ScanUsesSlots | src/fetch-manager.cc:142-182 | After a scan all slots are used, or no startable fetcher is idle and the next check is no later than any delayed retry |
| FetchManagers.OwingScheduled | src/fetch-manager.cc:150-179 | A scan starts as many fetchers as there are free slots and startable fetchers, taken from the front |
| FetchManagers.PauseDoubles | src/fetch-manager.cc:222-233 | The retry pause after n failures is min(2^(n-1), 300) seconds |
| FetchManagers.HintsRotate | src/fetch-manager.cc:197-220 | Of any three consecutive attempts one uses the broadcast hint and one no hint, whatever the mapping answers |
| FetchRetries.EachWaitsRight | src/fetch-manager.cc:185-238 | In every run a fetcher may be tried again 1, 2, 4, up to 256 and then 300 seconds after its last failure, for its first, second, third failure and so on, and at once if it never failed |
| FetchRetries.BackOffIsKept | src/fetch-manager.cc:142-238 | In every run no scan before that time starts the fetcher, every scan from then on that leaves a slot free does, and an earlier one sets the next check no later than that time |
| FetchRetries.FailureFreesTheSlot | src/fetch-manager.cc:185-238 | A failure leaves the fetcher idle, frees its slot and has the list checked at once |
| FetchRetries.ListIsChecked | src/fetch-manager.cc:137-258 | A completion frees a slot, or wraps a count of zero around, and a completion or a new range has the list checked at once |
| FetchRetries.ScanStartsFromTheFront | src/fetch-manager.cc:150-179 | A scan passes over no fetcher that could start to start a later one |
| FetchRetries.EnqueueOrder | src/fetch-manager.cc:120-133 | A range of high priority goes to the front and any other to the end, as an idle fetcher of that range that may start at once; the others keep their order |
| FetchRetries.HighPriorityStartsFirst | src/fetch-manager.cc:120-179 | With a slot free the next scan starts a range of high priority, whoever else is waiting |
| FetchRetries.RemovalRemoves | src/fetch-manager.cc:260-266 | When its removal task runs the fetcher is out of the list, the others keep their order, and its tag is free |
| FetchManagers.RemovalIsScheduledIff | src/fetch-manager.cc:253-256 | A completed fetcher gets a removal task exactly when no other fetcher of its base name still has one |
| FetchManagers.StrandedForGood | src/fetch-manager.cc:260-266 | A completed fetcher without a removal task stays so by an event exactly when the event is not a completion report of its own |
| FetchManagers.StrandedForEverIff | src/fetch-manager.cc:241-266 | Such a fetcher stays so in every run exactly when it will never report again |
| FetchManagers.FetchersCanStrand | src/fetch-manager.cc:253-256 | For every limit there is a run from a new manager, with two ranges of one base name, after which a completed fetcher is left without a removal task |
| FetchManagers.EachFetcherRuns | src/fetch-manager.cc:84-266 | In every run of the manager each of its fetchers has gone through a run of its own, so all that is proved of fetchers holds of them |
| FetchManagers.ReportsOwedUntilDone | src/fetcher.cc:204-268 | While nothing is given up with a fill queued, only a fetcher that has completed can make a report that is not owed |
| FetchManagers.RemovedIsIdle | src/fetch-manager.cc:260-266 | A fetcher that was started once has nothing in flight when it is removed and can ask for nothing more |
| FetchManagers.RestartedCanBeRemovedInFlight | src/fetch-manager.cc:260-266 | For every limit there is a run after which a fetcher that was started twice is about to be removed with an interest in flight |
| ActionDeliveries.FetcherFeedsLog | src/dispatcher.cc:337-346 | Whatever the fetcher of a live range goes through, the actions it hands over can be fetched one after the other, and the log of the device gets exactly these |
| ActionDeliveries.CompletionIsFetchDone | src/fetcher.cc:203-221 | When the fetcher reports completion the device has the whole range, as the completion event of the system requires |
| ActionDeliveries.ManagerFeedsLog | src/fetch-manager.cc:84-266 | The same for every fetcher in every run of a manager |
| FetchManagers.FetchManager.Enqueue | src/fetch-manager.cc:91-139 | A non-empty range adds one idle fetcher at the front or the back and sets the check to now; an empty range changes nothing |
| FetchManagers.FetchManager.ScheduleFetches | src/fetch-manager.cc:142-182 | Starts exactly the startable fetchers the scan reaches, and sets the next check to the earliest delayed retry seen, at most 300 seconds away |
| FetchManagers.FetchManager.DidNoDataTimeout | src/fetch-manager.cc:185-238 | Frees the slot, rotates the hint, doubles the pause and delays the retry by it; `FetchRetries.BackOffIsKept` says what that comes to |
| FetchManagers.FetchManager.DidFetchComplete | src/fetch-manager.cc:241-258 | Frees the slot and adds a removal task unless one with the same tag is scheduled |
| FetchManagers.FetchManager.TimedWait | src/fetch-manager.cc:260-266 | Removes exactly the fetcher and keeps the order of the others |
| Schedulers.NoTagDies | scheduler/scheduler.cc:178-340 | After any interleaving of calls, timers and runs no mapped task is dead and no unmapped timer is set, given careful use of rescheduleTaskAt |
| Schedulers.RescheduleAtIsSafeIff | scheduler/scheduler.cc:269-292 | rescheduleTaskAt leaves no dead tag exactly when the task is mapped, un-invoked or running |
| Schedulers.InvokedTaskDies | scheduler/scheduler.cc:269-292 | An invoked task added through rescheduleTaskAt is dead once its timer has fired |
| Schedulers.DeletionDeletes | scheduler/scheduler.cc:306-340 | After deleting a tag, alone or by a matcher, the tag is free and no task of the tag has a timer |
| Schedulers.DeletionSparesOthers | scheduler/scheduler.cc:306-340 | Deleting changes no other tag, no task of another tag, no queued or running run, and of the tasks of the tag only their timers |
| Schedulers.AddingArmsIff | scheduler/scheduler.cc:178-200 | Adding a task maps it and sets its timer, ready to run, exactly when its tag is free, and otherwise changes nothing |
| Schedulers.DeletedTagCanBeAdded | src/sync-core.cc:295-324 | A task can be scheduled anew under a tag that has just been deleted |
| Schedulers.DeletedTaskRunsOut | scheduler/scheduler.cc:306-317 | In every run in which a deleted tag is neither added nor rescheduled, callbacks of its tasks start at most as often as runs of them were queued already |
| Schedulers.ReschedulingArms | scheduler/scheduler.cc:229-266 | Rescheduling a tag sets the timer of the task mapped, ready to run, and changes no other task |
| Schedulers.ReschedulingTaskArms | scheduler/scheduler.cc:208-292 | Rescheduling a task leaves its tag mapped, to the task that was mapped or to itself, with the timer set; only rescheduleTaskAt of an unmapped task does not reset it |
| Schedulers.StartOfRun | scheduler/one-time-task.cc:31-41 | The callback of the oldest queued run starts exactly when its task is not marked as invoked |
| Schedulers.EndOfRun | scheduler/periodic-task.cc:35-57 | After its run a one-time task has freed its tag, and a periodic one that was not reset is scheduled again |
| Schedulers.RunsInOrderOfFiring | scheduler/task.cc:72-83 | In every run the queued runs are taken up in the order in which the timers fired, each once |
| Schedulers.TimersStayMapped | scheduler/scheduler.cc:178-340 | Every set timer belongs to the task mapped under its tag |
| Schedulers.CallsStayPaid | scheduler/periodic-task.cc:35-57 | Every call of a callback is paid for by a reset or by the first run |
| Schedulers.DeletedAllOneMore | scheduler/scheduler.cc:319-340 | Deleting one more matching tag is deleting the larger set of tags |
| Schedulers.Scheduler.AddTask | scheduler/scheduler.cc:178-200 | Adds and arms the task exactly when its tag is free |
| Schedulers.Scheduler.RescheduleTag | scheduler/scheduler.cc:229-266 | Resets and arms whichever task is mapped under the tag, if any |
| Schedulers.Scheduler.RescheduleTask | scheduler/scheduler.cc:208-292 | Reschedules the mapped task of that tag, or adds the given one, reset or not |
| Schedulers.Scheduler.DeleteTask | scheduler/scheduler.cc:306-317 | Disarms and unmaps the task of the tag, if any: afterwards the tag is free and no task of it has a timer |
| Schedulers.Scheduler.DeleteMatching | scheduler/scheduler.cc:319-340 | The walk over the map disarms and unmaps exactly the matching tasks: afterwards each matching tag is free and no task of it has a timer |
| Schedulers.Scheduler.Fire | scheduler/task.cc:72-83 | A fired timer queues one run and is no longer set |
| Schedulers.Scheduler.RunBegin | scheduler/one-time-task.cc:31-41 | The callback starts exactly when the task is not marked as invoked |
| Schedulers.Scheduler.RunEnd | scheduler/periodic-task.cc:35-50 | After the callback a one-time task leaves the map and a periodic one is scheduled again unless it was reset meanwhile |
| Executors.NoJobIsForgotten | executor/executor.cc:70-138 | For any number of workers and any interleaving a non-empty queue has a worker that will look at it, and jobs start once in the order of submission |
| Executors.QueueCanDrain | executor/executor.cc:99-138 | From every reachable state the workers alone can start every queued job |
| Executors.Executor.Execute | executor/executor.cc:70-84 | Appends the job and notifies exactly on the change from empty to non-empty |
| Executors.Executor.TakeJob | executor/executor.cc:116-138 | Takes the oldest job, or nothing exactly when the queue is empty |
| DigestStream.LittleEndianRoundTrip | src/db-helper.cc:122-127 | The eight number bytes determine the number |
| DigestStream.LowByteComesFirst | src/db-helper.cc:122-127 | The lowest byte of a number comes first, and the bytes of the rest follow |
| DigestStream.StreamDeterminesRows | src/db-helper.cc:122-127 | With prefix-free names a byte stream comes from only one sequence of rows |
| DigestStream.SameStreamIffSameState | src/sync-log.cc:158-165 | Two states are digested from the same stream exactly when they are equal |
| DigestStream.TableIsInByteOrder | src/sync-log.cc:158-165 | Of two rows that are digested the one with the smaller byte where the names differ comes first |
| DigestStream.PrefixFreedomIsNeeded | src/db-helper.cc:122-127 | Any two rows share their stream with one row of a longer name, so prefix-freedom cannot be dropped |
| DigestStream.HashAggregate.Step | src/db-helper.cc:91-128 | One step appends the name and then the eight number bytes, opening the digest on the first |
| DigestStream.HashAggregate.HashNodes | src/sync-log.cc:158-165 | Stepping through a state in name order feeds the stream of its table; no rows leave the context unopened |
| RequestParsers.ParseJoin | server/request_parser.hpp:36-48 | Parsing two pieces in turn is parsing their concatenation, up to where the first stops |
| RequestParsers.ChunksChangeNothing | server/request_parser.hpp:36-48 | However the input is cut into chunks, verdict, request and number of characters consumed are those of the whole input |
| RequestParsers.TextIsAccepted | server/request_parser.cpp:27-283 | Every text of the request grammar is accepted as what it means, whatever follows, and exactly the text is consumed |
| RequestParsers.AcceptedIffInGrammar | server/request_parser.cpp:27-283 | A request is accepted exactly when the input starts with a text of the grammar, folded headers included, with the text's meaning |
| RequestParsers.GrammarIsUnambiguous | server/request_parser.cpp:27-283 | No text of the grammar is a proper prefix of another, and equal texts mean the same request |
| RequestParsers.CharacterClasses | server/request_parser.cpp:285-312 | Tokens are made of digits, letters and exactly the punctuation that HTTP allows in them; the other classes are the control characters, blank and tab, and the decimal digits with their values |
| RequestParsers.ExampleIsParsed | server/request_parser.cpp:27-283 | A request with two headers, one of them folded twice, is parsed as it reads, to the last character |
| RequestParsers.PrintThenParse | server/request_parser.cpp:27-283 | Printing any well-formed request and parsing it gives the same method, uri, version and headers and consumes it all |
| RequestParsers.ParsableIffWellFormed | server/request_parser.cpp:27-283 | A request can come out of the parser exactly when it is well-formed |
| RequestParsers.RequestParser.ConsumeInLine | server/request_parser.cpp:27-185 | One character in the request line moves the machine and the request as specified |
| RequestParsers.RequestParser.ConsumeInHeaders | server/request_parser.cpp:186-283 | One character in the headers moves the machine and the request as specified |
| RequestParsers.RequestParser.Consume | server/request_parser.cpp:27-283 | One character in any state moves the machine and the request as specified |
| RequestParsers.RequestParser.ParseChunk | server/request_parser.hpp:36-48 | The loop over a chunk stops at the first verdict and reports how much was consumed |
| JsonStrings.UnescapeUndoesEscape | contrib/json_spirit/json_spirit_reader_template.h:126-160 | Reading undoes writing for every string, in raw and \u modes, whatever characters count as printable |
| JsonStrings.UnescapeOne | contrib/json_spirit/json_spirit_reader_template.h:88-124 | Reading takes exactly what was written for one character, whatever follows |
| JsonStrings.EscapedIsPrintable | contrib/json_spirit/json_spirit_writer_template.h:68-104 | In \u mode every written character is printable, provided that quotes, backslashes, digits and the letters of escapes are |
| JsonStrings.EndsAtItsQuote | contrib/json_spirit/json_spirit_writer_template.h:68-104 | A written string contains no quote that would end it early |
| JsonStrings.AddEscChar | contrib/json_spirit/json_spirit_writer_template.h:51-66 | Appends a two-character escape exactly for the characters that have one |
| JsonStrings.AddEscChars | contrib/json_spirit/json_spirit_writer_template.h:68-104 | The loop writes the escaped form of the whole string |
| JsonStrings.EscapeTable | contrib/json_spirit/json_spirit_writer_template.h:24-104 | Which characters have a two-character escape and which one, and the upper-case \u00 form of the others |
| JsonStrings.ControlIsWrittenIff | contrib/json_spirit/json_spirit_writer_template.h:68-104 | A control character is written as it is exactly when it occurs, has no two-character escape, and raw mode is on or it is taken for printable |
| JsonStrings.AppendEscCharAndIncrIter | contrib/json_spirit/json_spirit_reader_template.h:88-124 | Appends what the escape stands for and moves over exactly its characters; incomplete and unknown escapes append nothing |
| JsonStrings.UnescapeTable | contrib/json_spirit/json_spirit_reader_template.h:88-124 | What each escape of one letter stands for; incomplete and unknown ones stand for nothing |
| JsonStrings.HexEscapeIsRead | contrib/json_spirit/json_spirit_reader_template.h:54-86 | Two digits after x, or the last two of four after u, in either case, give the character |
| JsonStrings.SubstituteEscChars | contrib/json_spirit/json_spirit_reader_template.h:126-160 | The loop undoes all escapes of any string; a final lone backslash stays |
| JsonBuilders.CallbacksAdd | contrib/json_spirit/json_spirit_reader_template.h:306-348 | The callbacks of a nested value add exactly that value to the current object or array and return the pointer to where it was |
| JsonBuilders.DocumentIsRebuilt | contrib/json_spirit/json_spirit_reader_template.h:199-348 | The callbacks of any written value, in document order, rebuild exactly that value |
| JsonBuilders.CallbacksDetermineValue | contrib/json_spirit/json_spirit_reader_template.h:199-348 | Values with the same callbacks are equal |
| JsonBuilders.SemanticActions.AddValue | contrib/json_spirit/json_spirit_reader_template.h:333-348 | Adds to the current array or object, or becomes the whole value, and returns the pointer to what was added |
| JsonBuilders.SemanticActions.Begin | contrib/json_spirit/json_spirit_reader_template.h:306-321 | Adds an empty compound and moves the pointer into it, remembering the old one |
| JsonBuilders.SemanticActions.End | contrib/json_spirit/json_spirit_reader_template.h:323-331 | Steps back to the remembered pointer, except at the outermost value |
| JsonBuilders.SemanticActions.On | contrib/json_spirit/json_spirit_reader_template.h:216-290 | Each callback has the specified effect |

## Left out

- SQLite, protobuf, gzip, OpenSSL and the NDN library: tables are maps, messages are datatypes, faces and wire formats are not modelled.
- Device-name encodings: names are byte strings under one order; the mixed uses of `value()` and `wire()` for one name are not modelled.
- Locators: they are overwritten in order of arrival and no rule merges them.
- `is_complete`, file assembly and `src/object-manager.cc`: file-system I/O. Of `src/object-db.cc` the rows and their commits are modelled, not the files, and not two connections that write to one database at the same time.
- Restarts in `FileFetches`: its runs are within one process. Nor does it model a fetcher's second report of completion, which `Fetchers.RestartCanCompleteTwice` shows to be possible.
- `src/fetch-task-db.cc`: the table for actions is modelled, with names read back as they were stored, although lines 121-125 pass a length where a text is expected; the one for files is not.
- The width of sequence numbers: counters are unbounded, except that `DigestStream` takes them below 2^63.
- Fetchers.RunKeepsFetchOk: the count of interests in flight is an integer without 32-bit wrap-around; the invariant shows that it stays between 0 and 6.
- RequestParsers.PrintThenParse: version numbers are unbounded, while the source's `int` would overflow on very long digit strings.
- SyncCores.SyncCore.Recover: takes the recovery interest to carry the hash; the buffer for it is never sized at `src/sync-core.cc:412-419`.
- FileFetches.Dispatcher.DidActionFetch: takes the text of a hash to name it, as intended; as written the look-up at `src/dispatcher.cc:360` throws on the empty text.
- FileFetches.SharedContentsLoseSegments: is about file fetches with the text of a hash as intended, for the same reason.
- Why a fetch comes to nothing: `Replicas.Abandon` may happen to any fetch, is not derived from the runs of `Fetchers` and `FetchManagers`; their deliveries and completions are (`ActionDeliveries`).
- Threads inside a handler: each handler is one step, so interleavings within one are not modelled.
- Time: timers may fire once set; the 30 seconds without activity of a fetcher are a parameter of its timeout handler.
- Exchanges.RootsConverge: states that a converging run exists, and Convergence.GossipConverges that every run with enough answers converges; that the network delivers these answers in the end is not modelled.
- Segment and finish callbacks of users of the fetch manager: calls are recorded, their effects are those of `FileFetches`.
- The map variant of JSON objects: objects are lists of members, as in the `Config_vector` types the program uses.
- The Boost.Spirit grammar of JSON and the layout of the writer: only the callbacks and the string escapes are modelled.
- JSON wide strings: characters are bytes, and a four-digit escape is cut off to one.
- `server/` sockets and replies, `src/content-server.cc`, `src/state-server.cc`, `fs-watcher/`, `gui/`, `osx/`, `adhoc/`, `cmd/`: network, user interface and file watching.
- `ccnx/` and `disabled/`: not built.
