# Workforce, modelled and proved in Dafny

`workforce` is a job scheduler. A manager keeps a persistent store and an in-memory priority
queue, proposes jobs to connected workers of limited capacity, retries failures, and runs a parent
job again once its children are done. This project models the parts of it that carry real
guarantees and proves those guarantees for every input, every run or every interleaving.

`dafny verify dfyconfig.toml` checks everything (Dafny 4.11).

| files | what they model |
|---|---|
| `JournalCodec`, `StoreModel`, `StoreMachine`, `StoreRecovery`, `FsStore`, `StoreLimits`, `StoreOverlap` | the write-behind store: memory, journal channel, background writer, compaction, crash, reopening, and what it does not promise |
| `HeapSpec`, `PriorityHeap` | the indexed binary heap, as functions and as item objects swapped in place |
| `WorkerPool`, `WorkerHub`, `DispatchSpec`, `DispatchGuarantees`, `QueuePass`, `Dispatching` | the worker index and its registration, one dispatch pass, what it guarantees, and the dispatcher object with aging, marks and caches |
| `Accounting`, `DispatchRuns`, `WorkerNode` | capacity accounting on the manager's side, over whole runs of the manager, and on the worker's side |
| `Consolidation`, `Retry` | the consolidation of parent jobs, retry delays and retry counts |
| `TokenBucket`, `LimiterCollection` | the rate limiter and the per-client collection |
| `LruCache`, `SingleFlight`, `ArtifactRegistry` | three structures that refine a simple specification |

Code that updates state in place is modelled by classes and methods with loops, each proved
against a function on values; the guarantees are lemmas about those functions. Code that runs
concurrently is modelled as a step system whose steps are the critical sections and store calls of
the source, in every order. Clocks, random choice, the registry seen by a pass, the order in which
Go iterates a map and the library sort are parameters.

## Where the code does not meet the obvious property

Each of these has lemmas that show the failing runs or inputs and the exact condition under which the
property holds.

- Two overlapping saves of one key can reach the journal in the opposite order, and reopening then
  brings back the older value (`OverlapDiverges`). `ReopenIff` says exactly when reopening is exact.
  The other store theorems let a key change only after its previous entry was sent.
- A webhook identifier used again after its acknowledgement can come back from a crash as a mixture
  of two deliveries, a value it never had (`ReusedHookIdMixes`). `CrashExactly` says exactly when a key
  comes back with one of the two versions on disk. With fresh identifiers it always does.
- A job that costs nothing is proposed to a full worker and put back in the queue
  (`SentButRequeuedIff`).
- The cancellation mark of a job that is not in the queue outlives all passes until a job with its
  identifier is queued, which is then thrown away (`MarkStaysIff`, `CancelledIsDiscarded`).
- A stale connection that is unregistered takes its successor out of the map but leaves it in the
  platform list (`RemoveIff`, `StaleRemovalHidesHeir`).
- A child failed by the dispatcher, as after its task was deleted, or cancelled by itself leaves its
  parent waiting for ever (`LossHangs`): the sibling handlers leave it to a failure handler that
  never comes. `LostWaveHangsIff` and `WaitEndsIff` say exactly when a parent is left waiting.
- While a handler holds a passed sibling listing, the next wave of children is not safe
  (`WaveSafeIff`, reached by a run in `UnsafeWaveIsReached`), and neither is a late status write, a late
  failure or a second emission (`UnfinishedIff`). Without one, a late status write loses the wave
  (`LateWriteLosesWave`), and a success written over a failure can still schedule the parent
  (`ContradictingIff`). A job that emits an empty list of children waits for ever
  (`QuietWaveHangs`) unless a handler of an earlier success is still on its way (`EmptyWaveIff`).
- The retry delay wraps around in 64 bits (`BackoffIff`, `DelayGoesNegative`), and overlapping error
  reports of one job can each schedule a retry (`BoundIff`, `OverlappingErrorsRetryEach`).
- A worker told to drain goes online again if a heartbeat was between its check and its store, or if
  its connection breaks before it is shutting down (`DrainIff`, `ReconnectReopens`, `ShutdownIff`). A
  worker that closes drops the jobs it accepted and was not yet told to run (`CloseDropsIff`,
  `DrainDropsAccepted`). A repeated proposal or restore unbalances the books (`ReserveFitsIff`,
  `BeginFitsIff`, `AssignBalancesIff`, `CompleteBalancesIff`).
- Evicting a rate limiter between a client's lookup and its attempt is observable
  (`EvictingHeldIff`); evicting a limiter that is not full is too (`ReplaceIff`, `IdleIff`).
- Putting a cached key again does not renew its expiry (`PutThenGetIff`).
- Publishing further platforms for a version overwrites its metadata file, so that a restart
  forgets the earlier ones (`ReloadIff`); until then they resolve but are not listed, so that their
  workers are not eligible (`RepublishHides`, `VersionListedIff`, `ListedIff`). A slash in an operating
  system name can make platforms collide (`SameKeyIff`).

The documentation of the retry policy (`contract/task.go:11`) gives the delay as the base times two to
the power of the attempt; the code multiplies by one power less, so that the first retry waits the base delay.
The model follows the code. The comment on `eligibleWorkers` speaks of a stable order; without a
platform constraint the order is that of a Go map, and the model takes any.

## Model

| member | source | states |
|---|---|---|
| `JournalCodec.ParseEncodeAll` | manager/store/fsstore_journal.go:46-73 | reading back a journal of whole lines yields exactly the entries written, in order |
| `JournalCodec.ParseTorn` | manager/store/fsstore_journal.go:46-73 | a last line cut at any byte is dropped, or kept whole if only its newline is missing, and costs none of the lines before it |
| `StoreModel.ReplayAt` | manager/store/fsstore_journal.go:77-120 | replaying a journal over the four maps acts on each key by its own entries alone |
| `StoreModel.ReplayTwice` | manager/store/fsstore_journal.go:77-120 | replaying any entries a second time changes nothing |
| `StoreModel.StaleReplay` | manager/store/fsstore_snapshot.go:74-134 | replaying entries that a snapshot already contains leaves the snapshot's value |
| `StoreModel.SnapshotAhead` | manager/store/fsstore_snapshot.go:74-134 | replaying the surviving lines over a snapshot that is ahead of some of them gives the version the journal ends at, or the snapshot's own if that is later |
| `StoreMachine.OpenEstablishesInv` | manager/store/fsstore.go:99-139 | opening any files, however left, establishes the machine's invariant |
| `StoreMachine.StepKeepsInv` | manager/store/fsstore_journal.go:125-201 | every step of a writer, of the background writer, of a compaction and every crash keeps it: memory is the replay of the history, each key's channel, buffer and file hold its changes in order, each snapshot contains all that was truncated |
| `StoreRecovery.RunKeepsInv` | manager/store/fsstore_journal.go:125-201 | the same over whole runs |
| `StoreRecovery.KeyRecovery` | manager/store/fsstore_snapshot.go:30-62 | what recovery computes for one key: the changes after those the journal dropped, up to the last one it shows, folded over the version the snapshot holds, with nothing dropped that the snapshot lacks |
| `StoreRecovery.FreshMeansOnce` | manager/store/fsstore.go:596-603 | fresh webhook identifiers are enqueued only while absent |
| `StoreRecovery.CrashRecoversHeldValue` | manager/store/fsstore_journal.go:125-201 | wherever a crash strikes, every key comes back with a value it really held, no older than its last synced line |
| `StoreModel.NoMixtureIff` | manager/store/fsstore_journal.go:77-120 | replaying a stretch of a key's entries over any snapshot gives the stretch's last version or a later snapshot version if and only if it does not delay one webhook delivery on top of another |
| `StoreRecovery.BootPrefix` | manager/store/fsstore.go:99-139 | a crash during the compaction of opening itself gives back exactly what was opened |
| `StoreRecovery.CrashExactly` | manager/store/fsstore_journal.go:46-201 | after any later crash, and without any condition on identifiers, a key comes back with the last version whose line survived or the snapshot's later one if and only if the surviving lines do not mix two deliveries; which versions these are is fixed by the dropped lines, the journal and the snapshot |
| `StoreRecovery.EveryCrashIsRecent` | manager/store/fsstore.go:99-139 | the same for every reachable state from any initial files |
| `StoreRecovery.CrashAnywhere` | manager/store/fsstore_journal.go:125-201 | the crashes covered: after any file operation since the last sync, and after any number of bytes of the line that comes next |
| `StoreRecovery.WriterMay` | manager/store/fsstore_journal.go:125-201 | the freedom of the writer: the buffer spills any number of lines, a compaction is given up at either place |
| `StoreRecovery.MutatorKeepsSynced` | manager/store/fsstore.go:159-191 | mutators leave the files alone, so that all written lines stay durable |
| `StoreRecovery.NothingWrittenIsLost` | manager/store/fsstore_journal.go:170-179 | with a sync after every entry, once the writer is through with a key's entries a crash at any moment brings the key back exactly as memory has it |
| `StoreRecovery.CleanReopenIsExact` | manager/store/fsstore.go:143-155 | after Close, reopening gives exactly the final maps, whatever compactions ran or were abandoned |
| `StoreRecovery.EveryRunReopensExactly` | manager/store/fsstore.go:99-155 | the same for every run, through any number of crashes and reopenings |
| `StoreOverlap.MoveKeepsInv` | manager/store/fsstore.go:159-191 | with mutators of one key overlapping and sending in any order, files and memory still agree on which changes were made and which lines stand for them |
| `StoreOverlap.MovesKeepInv` | manager/store/fsstore.go:159-191 | the same over every run |
| `StoreOverlap.ReopenIff` | manager/store/fsstore_snapshot.go:74-134 | after a clean close reopening is exact at a key that is never delayed if and only if no line of it was written since the last truncation, or the last one has the effect of its last change; otherwise that line's effect comes back |
| `StoreOverlap.OverlapDiverges` | manager/store/fsstore.go:159-191 | a run from any files: two overlapping saves of a job, a clean close, and reopening brings back the first value although memory held the second |
| `StoreLimits.ReusedHookIdMixes` | manager/store/fsstore.go:596-639 | a run from any files in which a webhook identifier is enqueued, delayed, acknowledged and enqueued again, and a crash after a rename brings back a value the webhook never had |
| `FsStore.FSStore.ApplyJournalEntry` | manager/store/fsstore_journal.go:77-120 | the in-place update of the four maps is the entry's effect, including the webhook that is no longer there |
| `FsStore.FSStore.ReplayJournal` | manager/store/fsstore_journal.go:46-73 | the scanning loop applies exactly the parsed entries, stopping at the first undecodable line |
| `FsStore.FSStore.LoadSnapshot` | manager/store/fsstore_snapshot.go:30-62 | the index-building loops give the maps the file stands for |
| `FsStore.FSStore.Snapshot` | manager/store/fsstore_snapshot.go:74-134 | the list-building loops produce a file that loads back to the maps in memory |
| `FsStore.FSStore.Boot` | manager/store/fsstore.go:99-139 | opening is the machine's Open: load, replay, compact |
| `FsStore.FSStore.SaveJob` | manager/store/fsstore.go:159-166 | memory first, then exactly one journal entry: the machine's two steps |
| `FsStore.FSStore.UpdateJob` | manager/store/fsstore.go:179-191 | the mutated record is stored under the identifier asked for and journalled under its own; a missing job changes nothing; with the identifier kept these are the machine's two steps |
| `FsStore.FSStore.SaveTask` | manager/store/fsstore.go:292-299 | as SaveJob, for task definitions |
| `FsStore.FSStore.DeleteTask` | manager/store/fsstore.go:340-350 | removal and its entry; a missing task changes nothing |
| `FsStore.FSStore.CreateRun` | manager/store/fsstore.go:541-548 | as SaveJob, for runs |
| `FsStore.FSStore.EnqueueWebhook` | manager/store/fsstore.go:596-603 | as SaveJob, for webhooks |
| `FsStore.FSStore.AckWebhook` | manager/store/fsstore.go:619-625 | removal and its entry, also for an unknown webhook |
| `FsStore.FSStore.NackWebhook` | manager/store/fsstore.go:627-639 | attempts and next time change and are journalled; an unknown webhook changes nothing |
| `FsStore.FSStore.FlushAndSync` | manager/store/fsstore_journal.go:125-201 | the writer's flush and sync is the machine's step: the whole buffer is in the file and everything in it is durable |
| `FsStore.FSStore.DoCompact` | manager/store/fsstore_snapshot.go:74-134 | a compaction is flush, snapshot, rename, truncate, in that order, or is given up before the rename or at the truncation, leaving the journal and the counter alone |
| `FsStore.Compaction` | manager/store/fsstore_snapshot.go:74-134 | a compaction, whole or given up at either place, keeps the machine's invariant, so the recovery theorems hold after it |
| `FsStore.FSStore.WriteEntry` | manager/store/fsstore_journal.go:170-179 | one received entry is taken, synced exactly if every entry is to be, and compacted exactly when the count reaches CompactAfter; with syncing on, all lines written so far are durable, and unless a compaction failed the journal holds fewer than CompactAfter lines |
| `FsStore.FSStore.Close` | manager/store/fsstore.go:143-155 | drains the channel, whatever compactions fail on the way, and leaves the store closed in the sense of the reopening theorem, memory untouched |
| `FsStore.Reopen` | manager/store/fsstore.go:99-155 | a whole session: opening the files a closed store leaves gives its maps back |
| `HeapSpec.PushKeepsHeap` | manager/priority_heap.go:67-74 | pushing keeps the heap order and adds the one value |
| `HeapSpec.PopTakesHighest` | manager/priority_heap.go:78-89 | popping takes an element none is higher than and leaves a heap of the others |
| `HeapSpec.FixRepairs` | manager/priority_heap.go:93-105 | a heap wrong at one place is repaired by sifting down or up |
| `HeapSpec.InitBuilds` | manager/priority_heap.go:109-113 | rebuilding makes a heap of any sequence with the same contents |
| `HeapSpec.PopAllSorts` | manager/priority_heap.go:78-89 | popping until empty yields the contents in priority order |
| `HeapSpec.OperationKeepsHeap` | manager/priority_heap.go:67-113 | every public operation keeps the heap order and has its intended effect on the contents |
| `HeapSpec.EverySequence` | manager/priority_heap.go:67-113 | any sequence of operations behaves as on a multiset from which every pop takes a maximal value, and leaves a heap of exactly that multiset |
| `PriorityHeap.PriorityQueue.PushItem` | manager/priority_heap.go:42-74 | the slice of items, each knowing its index, after the in-place sift is the pushed heap |
| `PriorityHeap.PriorityQueue.PopItem` | manager/priority_heap.go:42-89 | returns the root, marks the item as gone, leaves the popped heap; nothing on an empty queue |
| `PriorityHeap.PriorityQueue.Update` | manager/priority_heap.go:93-105 | re-sorts a live item to its new value; an item no longer in the queue is left alone |
| `PriorityHeap.PriorityQueue.Reheapify` | manager/priority_heap.go:109-113 | the bottom-up loop is the rebuilt heap of the current values |
| `WorkerPool.EligibleExactly` | manager/worker_pool.go:122-174 | a worker is found if and only if the cost is not negative, it is online, has not refused the job, its occupied cost plus the job's is within capacity (or the job costs nothing) and its os/arch is one of the keys |
| `WorkerPool.AssignExactly` | manager/worker_conn.go:164-182 | a reservation succeeds if and only if the worker is not full and the cost fits, and changes the load only |
| `WorkerPool.EligibleWorkers` | manager/worker_pool.go:122-174 | the appending loops compute that list |
| `WorkerPool.OnlinePlatformKeys` | manager/worker_pool.go:256-271 | the nested loops collect exactly the platforms with a worker online |
| `WorkerPool.OfflineMeansIneligible` | manager/worker_pool.go:256-271 | without an online worker on any of its platforms a job has no eligible worker |
| `WorkerHub.RegisterKeeps` | manager/worker_pool.go:60-82 | registering and replacing keep the platform index exact: each registered connection once, under its own key, and nothing else |
| `WorkerHub.RemoveIff` | manager/worker_pool.go:97-108 | removing a connection keeps it exact if and only if it is the registered one or nobody took its identifier over |
| `WorkerHub.StaleRemovalHidesHeir` | manager/worker_pool.go:97-108 | otherwise its successor is gone from the map, and so for jobs without a platform, but still listed for its platform |
| `WorkerHub.ExactIsIndexed` | manager/worker_pool.go:122-174 | an exact index of connections is the index the dispatch guarantees ask for |
| `WorkerHub.Hub.RegisterWorker` | manager/worker_pool.go:60-82 | the maps of connections edited in place stay exact, and the jobs of a replaced connection are handed back |
| `WorkerHub.Hub.RemoveConn` | manager/worker_pool.go:97-108 | the loop compares connections and cuts out exactly the one given; the index stays exact under the condition of RemoveIff |
| `WorkerHub.Hub.UnregisterWorker` | manager/worker_pool.go:85-94 | the same, with the connection's own jobs handed back |
| `WorkerPool.LeastLoaded` | manager/worker_selector.go:32-48 | the first worker that no other beats on free capacity, then on idle time |
| `DispatchSpec.FastPassIsPlain` | manager/dispatcher.go:58-106 | the pass with its online pre-filter and both caches gives the same dispatches, failures, deferrals, messages, worker choices and shortage flag as looking everything up afresh |
| `DispatchSpec.PassBusier` | manager/dispatcher.go:261-387 | a pass only ever makes workers busier |
| `DispatchSpec.StepEnds` | manager/dispatcher.go:68-106 | each popped job fails, is deferred, or goes to one worker that reserves its cost |
| `DispatchSpec.StepFailsIff` | manager/dispatcher.go:145-152 | a job fails if and only if its task is unknown |
| `DispatchSpec.PassFailsUnknown` | manager/dispatcher.go:68-76 | a pass fails exactly the tried jobs of unknown tasks, in order |
| `DispatchSpec.ProposalFailsIff` | manager/dispatcher.go:261-268 | so does the proposal by itself |
| `DispatchSpec.DecideRemembers` | manager/dispatcher.go:145-172 | a known task and listed platforms are looked up once in a pass |
| `DispatchSpec.PassConserves` | manager/dispatcher.go:68-111 | every popped job ends in exactly one of dispatched, failed and deferred |
| `DispatchGuarantees.InFlightExactly` | manager/dispatcher.go:369-375 | after a pass a dispatched job is in flight on exactly the worker it went to, any other job on none |
| `DispatchGuarantees.NoEligibleJobLeft` | manager/dispatcher.go:46-126 | no job put back has a worker that could run it when the pass ends |
| `DispatchGuarantees.NoPriorityInversion` | manager/dispatcher.go:46-126 | when a later job goes to a worker, that worker could not have taken an earlier one that stays queued |
| `DispatchGuarantees.SentButRequeuedIff` | manager/dispatcher.go:319-375 | a worker is told of a job that goes back to the queue if and only if the store does not know the job, or it costs nothing and the worker is full |
| `DispatchGuarantees.DispatchedIff` | manager/dispatcher.go:261-375 | a job goes to a worker if and only if its task is known and has platforms, the worker is the one the selector names among the eligible ones, the artifact resolves there, the message gets through, the store knows the job and the worker is not full |
| `DispatchGuarantees.GoesToLeastLoaded` | manager/worker_selector.go:32-48 | with the default selector that worker has the most free capacity of all that could take the job, the longest idle among equals |
| `DispatchGuarantees.PassShortageIff` | manager/dispatcher.go:78-101 | a pass reports a shortage if and only if some dispatchable job of a known task had no worker able to take it when its turn came |
| `QueuePass.AgingOrder` | manager/dispatcher.go:190-214 | after aging every job created more than the timeout ago comes out first, oldest first; the others keep their priorities and come by priority, then age |
| `QueuePass.AgedExactly` | manager/dispatcher.go:190-214 | aging changes priorities only, to one above the highest there was for exactly the jobs that waited for longer than the timeout |
| `QueuePass.AgedKeepsHeap` | manager/dispatcher.go:190-214 | aging leaves a heap of the same jobs with boosted priorities |
| `QueuePass.MarksAreExact` | manager/dispatcher.go:237-254 | with unique identifiers a cancellation mark removes the one job it names and is used up by it, and by nothing else |
| `QueuePass.PoppedIsKeptOrDiscarded` | manager/dispatcher.go:237-254 | popping splits the queue into jobs handed out and jobs discarded |
| `QueuePass.ProcessConserves` | manager/dispatcher.go:46-126 | queue before a pass, with aged priorities, equals dispatched plus failed plus discarded plus queue after, which is a heap |
| `QueuePass.HigherPriorityFirst` | manager/manager.go:92-100 | in terms of the comparator: a job is never passed over for one of lower priority on a worker that could run it |
| `QueuePass.NothingRunnableLeft` | manager/dispatcher.go:46-126 | after a pass no job in the queue has a worker that could run it |
| `QueuePass.FailsUnknownExactly` | manager/dispatcher.go:68-76 | the failed jobs of a pass are exactly the tried ones of unknown tasks |
| `QueuePass.ShortageExactly` | manager/dispatcher.go:78-101 | its shortage flag says exactly whether a tried job lacked a worker |
| `QueuePass.LongestStarvedIsServed` | manager/dispatcher.go:190-214 | if any job waited too long, the one that waited longest is tried first and dispatched if any worker can take it |
| `Dispatching.Dispatcher.EnqueueJob` | manager/dispatcher.go:217-220 | adds the job and keeps the queue a heap |
| `Dispatching.Dispatcher.ApplyStarvationAging` | manager/dispatcher.go:190-214 | the two loops over the items and the rebuild give the aged queue |
| `Dispatching.Dispatcher.PopNextJob` | manager/dispatcher.go:237-254 | the first unmarked job, every skipped job's mark used up, the rest as popping would go on |
| `Dispatching.Dispatcher.TryProposeJob` | manager/dispatcher.go:261-387 | each exit of the proposal is the pass step with that outcome, message and reservation |
| `Dispatching.JobPlatformKeys` | manager/dispatcher.go:145-186 | the cached lookups and the scan of the keys decide as specified |
| `Dispatching.Dispatcher.ProcessQueue` | manager/dispatcher.go:46-126 | the whole loop with caches, marks and push-back does exactly what the plain pass over the aged, unmarked jobs does, and terminates |
| `Accounting.AssignBalancesIff` | manager/worker_conn.go:164-182 | reserving keeps occupied cost equal to the cost held if and only if the job was not already held at a cost |
| `Accounting.CompleteBalancesIff` | manager/worker_conn.go:185-195 | giving back keeps it if and only if the cost is the one reserved, or the clamp hides the difference |
| `Accounting.WorkerConn.AssignTask` | manager/worker_conn.go:164-182 | refuses and changes nothing, or reserves; the books stay balanced |
| `Accounting.WorkerConn.CompleteTask` | manager/worker_conn.go:185-195 | releases; with the job's own cost the clamp does not fire and the books stay balanced |
| `Accounting.StepBalances` | manager/dispatcher.go:369-375 | dispatching a job nobody holds keeps every worker's books |
| `Accounting.RestoreBalances` | manager/worker_pool.go:190-199 | giving back a held job at its own cost keeps them, and the clamp does not fire |
| `DispatchRuns.NextKeepsInv` | manager/dispatcher.go:46-126 | every enqueue, cancellation, pass and restore keeps: the queue a heap of distinct jobs nobody holds, no job with two workers, all books balanced |
| `DispatchRuns.DispatchRunKeepsInv` | manager/dispatcher.go:46-126 | in particular a whole pass, whose jobs need no condition of their own |
| `DispatchRuns.GiveBackKeepsInv` | manager/worker_pool.go:190-199 | a job given back is with no worker any more |
| `DispatchRuns.NoJobInTwoPlaces` | manager/worker_pool.go:177-199 | over every run a job is queued at most once, never both queued and in flight, never in flight on two workers, and each worker's occupied cost is the cost of its jobs in flight, between zero and capacity |
| `DispatchRuns.NoJobIsLost` | manager/dispatcher.go:46-126 | over every run each enqueued job is queued, in flight, failed, discarded by a mark or given back: none is lost and none invented |
| `DispatchRuns.CancelledIsDiscarded` | manager/dispatcher.go:237-254 | a job cancelled while it is queued is thrown away by the next pass, neither dispatched nor failed nor put back |
| `DispatchRuns.MarkStaysIff` | manager/manager.go:458-460 | the mark outlives that pass if and only if the job was not queued |
| `WorkerNode.ReserveFitsIff` | worker/handle_message.go:64-76 | accepting keeps used capacity equal to pending plus running cost if and only if it is refused or the job was not pending at a cost |
| `WorkerNode.BeginFitsIff` | worker/handle_message.go:80-98 | starting keeps it if and only if the job is unknown or was not already running at a cost |
| `WorkerNode.ReleaseFits` | worker/handle_message.go:286-301 | releasing always keeps it and never goes below zero |
| `WorkerNode.Worker.HandlePropose` | worker/handle_message.go:45-78 | accepted if and only if online, within limits, with all dependencies and enough capacity, and then reserved |
| `WorkerNode.Worker.HandleDispatch` | worker/handle_message.go:80-98 | moves a pending job to running; an unknown job changes nothing |
| `WorkerNode.Worker.ReleaseTask` | worker/handle_message.go:286-301 | gives the cost back once and closes a draining worker when nothing runs |
| `WorkerNode.VerdictIs` | worker/handle_message.go:45-78 | over every step a proposal gets one verdict and keeps it: let through if and only if the worker is online and has nothing against it, accepted if and only if its cost fits, and then reserved |
| `WorkerNode.LoadIs` | worker/handle_message.go:80-98 | a dispatch starts exactly an accepted job at the cost reserved for it, and its end gives that cost back |
| `WorkerNode.StateIs` | worker/worker.go:276-409 | who may store which state: a heartbeat only if it found the worker open, a reconnect through Offline to Online and not when shutting down |
| `WorkerNode.NeverOvercommits` | worker/handle_message.go:45-120 | over every interleaving, reconnects included, the used capacity of a connection's books is the cost held and never exceeds the limit |
| `WorkerNode.AcceptedIsHeldOrFinished` | worker/handle_message.go:45-120 | over every interleaving on a connection, each acceptance of a job is matched by its end or the job is still there |
| `WorkerNode.CloseDropsIff` | worker/handle_message.go:286-301 | a worker with nothing running has finished every job it accepted if and only if none waits for its dispatch |
| `WorkerNode.DrainDropsAccepted` | worker/handle_message.go:100-120 | a run in which a worker accepts a job, is told to drain and closes without having run it |
| `WorkerNode.DrainIff` | worker/worker.go:386-409 | no proposal first looked at after the drain command is ever accepted, in any interleaving, if and only if no heartbeat was between its check and its store and the worker does not connect again |
| `WorkerNode.ReconnectReopens` | worker/worker.go:276-355 | a worker that has lost its connection, or is not shutting down, can connect again and then accepts |
| `WorkerNode.ShutdownIff` | worker/worker.go:276-355 | once shutting down is stored, no proposal is accepted in any interleaving without another drain command if and only if no heartbeat was in between and no new connection was under way |
| `Consolidation.AtMostOncePerWave` | manager/worker_conn_handler.go:627-652 | in every interleaving whatever, second emissions included, there is at most one win for every time the parent began to wait, every win is enqueued by its winner, and a scheduled parent is Pending, to consolidate, until somebody writes it |
| `Consolidation.WinIs` | manager/worker_conn_handler.go:627-642 | the parent is scheduled by exactly the guarded updates that find it waiting, which make it Pending, to consolidate, and touch no child |
| `Consolidation.HistoryIs` | manager/worker_conn_handler.go:538-795 | what the bookkeeping of a wave records, event by event |
| `Consolidation.StepKeepsInv` | manager/worker_conn_handler.go:555-653 | every orderly step, failures written by the dispatcher included, keeps: held listings are true, a scheduled wave is completed, a completed wave has a handler still to look, a failure that a handler reported has a handler failing the parent |
| `Consolidation.NeverPremature` | manager/worker_conn_handler.go:602-642 | the parent is scheduled only with every child completed |
| `Consolidation.WaveOutcome` | manager/worker_conn_handler.go:555-653 | when nothing is in flight a completed wave was scheduled and enqueued exactly once, its parent Pending and to consolidate until somebody writes it, a wave with a failed or cancelled child never, and after a failure reported by a worker the parent is Failed unless somebody wrote it later |
| `Consolidation.LostWaveHangsIff` | manager/worker_conn_handler.go:602-617 | after every orderly run, with nothing in flight and every child over, the parent is left waiting for ever if and only if a child failed or was cancelled and nothing moved the parent |
| `Consolidation.WaitEndsIff` | manager/worker_conn_handler.go:555-653 | a parent waiting for children that are all over stops waiting by its handlers' work in some continuation if and only if a handler holds a listing, will find every child completed, or is about to fail the parent |
| `Consolidation.LossHangs` | manager/manager.go:403-417 | a run from the start: a child that the dispatcher fails or a user cancels leaves its parent waiting for ever |
| `Consolidation.NoSchedulingAfterFailure` | manager/worker_conn_handler.go:736-795 | after a child failed, whoever wrote it, nothing schedules the parent |
| `Consolidation.NoSchedulingAfterLoss` | manager/worker_conn_handler.go:602-617 | while no handler holds a passed listing, a failed or cancelled child keeps the parent from being scheduled in every orderly run |
| `Consolidation.WaveSafeIff` | manager/worker_conn_handler.go:538-553 | a parent begins to wait safely in every continuation if and only if no handler holds a passed listing |
| `Consolidation.UnsafeWaveIsReached` | manager/worker_conn_handler.go:602-642 | an orderly run from the start reaches a state in which it is not safe |
| `Consolidation.UnfinishedIff` | manager/worker_conn_handler.go:414-553 | while the parent waits, a late status write, a failure written over a success or a child of a second emission is harmless in every continuation if and only if no handler holds a passed listing |
| `Consolidation.QuietWaveHangs` | manager/worker_conn_handler.go:414-553 | with nothing in flight and every child over, or none at all, a waiting parent waits for ever unless somebody writes the parent or emits again |
| `Consolidation.EmptyWaveIff` | manager/worker_conn_handler.go:538-653 | a waiting parent without unfinished children is scheduled in some continuation without another child if and only if a handler of an earlier success is still on its way |
| `Consolidation.LateWriteLosesWave` | manager/worker_conn_handler.go:337-352 | a completed wave about to be scheduled: after a late status write on a child no continuation schedules the parent without a new result for that child, if and only if no handler held a passed listing |
| `Consolidation.NobodySchedules` | manager/worker_conn_handler.go:602-617 | without a held listing and with an unfinished child no run, orderly or not, schedules the parent before that child has a result |
| `Consolidation.ContradictingIff` | manager/worker_conn_handler.go:555-579 | after a success written over a failure or cancellation the parent can still be scheduled if and only if no other child failed or was cancelled |
| `Retry.RetryDelay` | manager/worker_conn_handler.go:827-839 | the doubling loop in 64-bit arithmetic, capped |
| `Retry.EffectivePolicy` | manager/worker_conn_handler.go:813-825 | the task's own settings win wherever it has any, the defaults fill the rest |
| `Retry.BackoffDoubles` | manager/worker_conn_handler.go:827-839 | the intended delay is the base for the first retry, doubles with every further one and stays at the ceiling |
| `Retry.BackoffIff` | manager/worker_conn_handler.go:827-839 | the delay is the intended backoff if and only if the doubled delay fits, or its wrapped value still reaches the ceiling |
| `Retry.DelaysGrow` | manager/worker_conn_handler.go:827-839 | while the last delay fits, all are intended, positive and never shrink |
| `Retry.DelayGoesNegative` | manager/worker_conn_handler.go:827-839 | one second without a ceiling is negative at the 35th attempt |
| `Retry.RetryBound` | manager/worker_conn_handler.go:655-734 | a job survives its errors if and only if there were fewer than the maximum and none was permanent |
| `Retry.FailsByMaxAttempts` | manager/worker_conn_handler.go:655-825 | a job fails at the first permanent exit code or at the maximum, its task's own if it has one, and not before |
| `Retry.RunAccounts` | manager/worker_conn_handler.go:655-734 | over every interleaving of the reads, attempt writes and verdicts of overlapping reports, retries made and due grow by exactly the reports admitted with a count and exit code worth one |
| `Retry.BoundIff` | manager/worker_conn_handler.go:655-734 | from any state and whatever reports come, every interleaving stays below the maximum if and only if the retries made and due do, and the job has failed or no count that can still be read allows another retry |
| `Retry.InTurnIsBounded` | manager/worker_conn_handler.go:655-734 | reports handled one after the other are such a run, retry less often than the stored count leaves attempts, and fail the job as RetryBound says |
| `Retry.OverlappingErrorsRetryEach` | manager/worker_conn_handler.go:673-681 | any number of reports read before one is recorded schedule a retry each, from any state that allows one |
| `TokenBucket.TokensInRange` | manager/ratelimiter.go:34-57 | tokens stay between zero and capacity |
| `TokenBucket.AdmitsIff` | manager/ratelimiter.go:34-57 | a call is admitted if and only if every window ending in it stays within capacity plus rate times its length |
| `TokenBucket.WindowBound` | manager/ratelimiter.go:34-57 | in any window of any trace no more than that are admitted |
| `TokenBucket.Limiter.Allow` | manager/ratelimiter.go:34-57 | the in-place update is one call of the bucket |
| `TokenBucket.Limiter.Attempt` | manager/ratelimiter.go:75-102 | so is this, with the remaining tokens and time until full of the new state |
| `TokenBucket.RemainingIsExact` | manager/ratelimiter.go:75-102 | the remaining tokens reported are the number of further calls that would be admitted at that instant |
| `TokenBucket.ResetIsExact` | manager/ratelimiter.go:75-102 | the reported time is exactly the time until the bucket is full again |
| `LimiterCollection.HTTPLimiterCollection.Get` | manager/ratelimiter.go:159-184 | the limiter already there, or a new full one, and no other change |
| `LimiterCollection.HTTPLimiterCollection.Cleanup` | manager/ratelimiter.go:189-204 | the loop removes exactly the limiters idle for too long |
| `LimiterCollection.ReplaceIff` | manager/ratelimiter.go:189-204 | replacing a bucket by a new one goes unnoticed if and only if it was full |
| `LimiterCollection.IdleIff` | manager/ratelimiter.go:189-204 | an idle time fills every bucket if and only if rate times it covers the capacity |
| `LimiterCollection.CleanupIsUnobservable` | manager/ratelimiter.go:159-204 | cleanups inserted anywhere in any run change no reply, while no held limiter is evicted |
| `LimiterCollection.CleanupIsUnobservableFromStart` | manager/ratelimiter.go:150-204 | the same from an empty collection |
| `LimiterCollection.AttemptIs` | manager/ratelimiter.go:216-220 | an attempt charges the limiter its client looked up, evicted or not, and no other |
| `LimiterCollection.EvictingHeldIff` | manager/ratelimiter.go:216-220 | evicting a limiter between lookup and attempt changes the reply to the next client of the key if and only if the bucket can admit anything |
| `LruCache.Cache.Put` | manager/locksmith/cache.go:94-111 | the map and list edited in place hold the updated or the new entry in front, the least recently used one gone if there was no room |
| `LruCache.Cache.Get` | manager/locksmith/cache.go:114-136 | a live entry moves to the front and is returned; a missing one changes nothing; an expired one stays in place and is quarantined once per stay |
| `LruCache.Cache.QuarantineItem` | manager/locksmith/cache.go:148-155 | flags the entry and notes its key, with no effect on what the cache holds |
| `LruCache.Cache.EvictOne` | manager/locksmith/cache.go:139-145 | the last entry leaves map and list |
| `LruCache.RunRefines` | manager/locksmith/cache.go:94-145 | every run keeps the cache a view of the unbounded history of uses |
| `LruCache.CacheIsRecentHistory` | manager/locksmith/cache.go:94-145 | the keys are the most recently used ones in recency order, and a Get answers the value last put if the key is among them and its stay is not over |
| `LruCache.PutThenGetIff` | manager/locksmith/cache.go:94-136 | a Put is found by the next Get if and only if the stay, begun when the key last came in, is not over |
| `SingleFlight.StepKeepsInv` | worker/sf/sf.go:85-208 | every step keeps the invariant of map, calls, counts and callers |
| `SingleFlight.OverlapBound` | worker/sf/sf.go:85-208 | a call in the map is never finished, and n forgets of a key in the run allow at most n + 1 overlapping executions |
| `SingleFlight.ResultsAgree` | worker/sf/sf.go:85-199 | every caller gets the result of the call it joined, marked as shared if and only if others joined; a channel gets one if and only if the function returned |
| `SingleFlight.FinishRemovesOnlyItself` | worker/sf/sf.go:144-156 | finishing removes exactly that call; a newer one for its key stays |
| `SingleFlight.ForgetStartsAfresh` | worker/sf/sf.go:204-208 | the next caller after a forget starts a new execution |
| `SingleFlight.WaiterIsServed` | worker/sf/sf.go:85-199 | whoever waits for a running call gets what the function ends with, however it ends |
| `SingleFlight.ChannelIsServed` | worker/sf/sf.go:108-199 | a channel has the result as soon as the call is finished |
| `SingleFlight.CrashIff` | worker/sf/sf.go:144-172 | finishing a call takes the process down if and only if the function panicked and a channel waits |
| `ArtifactRegistry.SplitKeyIff` | manager/artifact/fsregistry.go:318-324 | a key splits into two non-empty parts joined by its first underscore, and nothing else does |
| `ArtifactRegistry.SplitKeyInjective` | manager/artifact/fsregistry.go:318-324 | different platform keys name different platforms |
| `ArtifactRegistry.ConflictIff` | manager/artifact/fsregistry.go:51-64 | a publish is accepted if and only if every key is well formed and no build exists |
| `ArtifactRegistry.ConflictIs` | manager/artifact/fsregistry.go:51-64 | a refused publish reports the error of its first binary that cannot be published |
| `ArtifactRegistry.FindIff` | manager/artifact/fsregistry.go:240-252 | a lookup by version finds exactly the one build there is, whatever the order of the entries |
| `ArtifactRegistry.PublishIsImmutable` | manager/artifact/fsregistry.go:51-124 | a publish keeps platforms unique and versions newest first, makes its own builds resolvable and changes no build resolvable before |
| `ArtifactRegistry.NeverChanges` | manager/artifact/fsregistry.go:51-154 | over every sequence of publishes a resolved build never changes |
| `ArtifactRegistry.ListedResolves` | manager/artifact/fsregistry.go:178-198 | every listed platform resolves to the listed build |
| `ArtifactRegistry.ListedIff` | manager/artifact/fsregistry.go:127-198 | every resolvable platform is listed if and only if all entries asked for stay within the platforms of the first one |
| `ArtifactRegistry.VersionListedIff` | manager/artifact/fsregistry.go:178-198 | for a version: if and only if only its newest entry has builds |
| `ArtifactRegistry.RepublishHides` | manager/artifact/fsregistry.go:51-124 | a later publish of the same version leaves the earlier platforms resolvable and unlisted |
| `ArtifactRegistry.LatestIsNewest` | manager/artifact/fsregistry.go:127-142 | if a release has a build, resolving finds one of a release at least as new |
| `ArtifactRegistry.LatestIff` | manager/artifact/fsregistry.go:127-142 | resolving finds a build if and only if some release has one for the platform |
| `ArtifactRegistry.LoadedFind` | manager/artifact/fsregistry.go:267-304 | after a restart a version resolves to what its metadata file lists |
| `ArtifactRegistry.PublishKeepsMeta` | manager/artifact/fsregistry.go:254-264 | each metadata file is one of its version's entries |
| `ArtifactRegistry.ReloadIff` | manager/artifact/fsregistry.go:254-304 | a restart changes no lookup if and only if every entry its metadata file no longer shows is empty |
| `ArtifactRegistry.FsRegistry.Publish` | manager/artifact/fsregistry.go:51-124 | the conflict loop, the building loop and the sorted index, and nothing on a conflict |
| `ArtifactRegistry.FsRegistry.FindPlatform` | manager/artifact/fsregistry.go:240-252 | the nested scan is the lookup by version |
| `ArtifactRegistry.FsRegistry.Resolve` | manager/artifact/fsregistry.go:127-142 | the scan is the lookup of the latest release |
| `ArtifactRegistry.FsRegistry.ListPlatforms` | manager/artifact/fsregistry.go:178-198 | the scan lists the version, or the latest release |
| `ArtifactRegistry.PlatformKeyInjective` | manager/worker_pool.go:447-449 | without a slash in the operating system names, equal keys mean equal platforms |
| `ArtifactRegistry.SameKeyIff` | manager/worker_pool.go:447-449 | two platforms share a key if and only if they are the same or one operating system name continues the other after a slash and the architectures make up for it |
| `ArtifactRegistry.ListedWorkerResolves` | manager/dispatcher.go:284-300 | a worker eligible by its platform key always resolves to an artifact |
| `ArtifactRegistry.RegistryCausesNoErrors` | manager/dispatcher.go:284-300 | so a pass with this registry meets the conditions of the dispatch guarantees |

## Left out

- UpdateTask, UpdateRun and the read-only queries of the store: they would repeat UpdateJob or only read.
- Run log files and log subscribers, webhook delivery, cron triggers, the HTTP and wire protocols, signing of download URLs, sandboxing of tasks.
- I/O errors of the store other than a compaction that is given up: a failed journal write or sync is not modelled.
- ReopenIff: about keys without delays (jobs, tasks, runs, and webhooks never nacked) and a clean close; crashes with overlapping writers are not covered.
- CrashRecoversHeldValue: assumes fresh webhook identifiers, which the source generates as ULIDs, and that writers of one key do not overlap; CrashExactly drops the first assumption.
- JSON encoding: the journal codec is any encoding without newlines that decodes its own lines and none of their proper prefixes.
- ProcessQueue: no job is pushed and no mark is set by another goroutine while a pass runs; the pool is a value, so a worker that registers, leaves or completes a job during the pass is not seen. The scale-up hook after a pass is left out.
- ApplyStarvationAging: priorities are unbounded integers; a priority at the largest 64-bit value would overflow.
- InFlightExactly: needs unique job identifiers that nobody holds before the pass; NoJobInTwoPlaces shows that runs keep this.
- NoJobInTwoPlaces and NoJobIsLost: workers do not register or leave during the run, and a job is enqueued only while it is nowhere.
- Capacity overrides sent by a worker, replacement of a connection while it holds jobs, and cancellation of jobs in flight: the source does not keep the books there.
- WorkerConn.CompleteTask: that each job is given back once is a condition of the runs, not derived from the message handlers.
- NeverOvercommits: about the books; on reconnecting the worker starts with empty ones while processes of the old connection may still run.
- DrainIff: that the manager stops proposing is not modelled; a connection ends by an error, after which the routine starts over as often as it likes: an orderly end of the stream, which takes the routine down, and the limit on reconnects are left out.
- Consolidation.StepKeepsInv: database and capacity errors inside the handlers, which make them stop early, are left out; a handler is never lost in a crash of the manager.
- RetryBound: the timers that put a job back are not modelled; each error counts once it is handled.
- BoundIff: only error reports of the job are steps; a timer that writes Pending over a failure written after its check is left out.
- TokenBucket: floating point is modelled by real numbers, the clock is non-decreasing in the trace lemmas.
- LruCache.Cache: the linked list is a sequence of element objects; QuarantineEvict, QuarantineExpiredItems, IncreaseTTL and the unused WithLRU option are left out.
- SingleFlight: call objects are positions in a sequence; the panic that takes the process down ends the run.
- FsRegistry.Publish: binaries are given by their hashes; file errors, the exclusive creation of binary files and DeleteArtifact are left out; one iteration order of the binaries serves both loops.
- RoundRobinSelector is covered only as one of the selectors a pass may use.
