# Verification of the FUSE kernel module

A Dafny model of the concurrent core of the kernel module in `fuse_module/fuse_module`, with proofs of what it keeps.
`dafny verify dfyconfig.toml` checks all of it.

What runs concurrently is modelled as a state machine: every section under a spinlock, and every atomic operation
outside of one, is one step of one thread; memory is sequentially consistent and waits are guards. The main theorems are
about every state of every run. What is local (list, tree and copy loops) is modelled as methods on classes and
sequences, proved against the functions that the state machines use or against what the code promises.

| part | modules |
|---|---|
| requests of a connection (`dev.c`) | `RequestLifecycle` (the machine), `LifecycleInvariant`, `LifecycleSteps`, `LifecycleKeeps`, `LifecycleWide`, `LifecycleAbort` (every step keeps it), `LifecycleSafety` (theorems), `LifecycleWitness` (a run), `BackgroundQueue` |
| copying replies and splicing (`dev.c`) | `CopyEngine`, `ReplyArgs`, `PipeSplice` |
| forgets (`dev.c`) | `ForgetQueue` |
| writeback (`file.c`, `dir.c`) | `WritebackTree`, `Writeback` (the sections), `WritebackInvariant`, `WritebackKeeps`, `WritebackRuns` (the machine), `WritebackSafety`, `WritebackExtents` (theorems), `WritebackWitness` (runs), `WritebackInode` (the code on its fields) |
| asynchronous direct I/O, lock owners (`file.c`) | `AsyncIo`, `LockOwner` |
| DAX window (`dax.c`) | `DaxWindow` (the machine), `DaxInvariant`, `DaxSteps`, `DaxMoves`, `DaxSafety`, `DaxWritable` (theorems), `DaxWitness` (runs), `DaxLists` (the list and tree loops) |
| directory cache (`readdir.c`) | `DirentFormat`, `ReaddirLayout`, `ReaddirCache`, `ReaddirStream`, `ReaddirCalls` (series of calls) |
| syncfs (`inode.c`) | `SyncBuckets` |
| virtqueue accounting (`virtio_fs.c`) | `VirtQueue` (the machine), `VirtQueueWork` (the work functions) |
| shared | `Basics` (bytes, pages, error numbers), `Counting` |

History that no step tests (who set a flag, how often a callback ran, a page's snapshots) is part of the states so that
the theorems can speak of it.

Places where the code falls short of the plain statement, each with a concrete input or run and the exact condition
under which it holds:

- `process_init_limits` changes `max_background` without recomputing `blocked`: it becomes wrong exactly when the limit
  moves to the other side of `num_background` (`LifecycleSafety.GoesStale`, `BackgroundQueue.Background.InitLimits`). The
  control file is there before the INIT request is sent (`inode.c:1596`, `inode.c:1644`), so a limit of 0 can be in force
  when the INIT reply sets another one; the connection then stays blocked without any request
  (`BackgroundQueue.StaleBlocked`, `BackgroundQueue.StaysBlocked`).
- `fuse_split_payload` takes header and footer from the reply unchecked: the split is right exactly under the condition of
  `ReplyArgs.SplitExact`; a reply on one page, a short read with a footer and a long header miss it
  (`ReplyArgs.OnePageReply`, `ReplyArgs.ShortReply`, `ReplyArgs.LongHeader`). It does not check its allocation either.
- `fuse_dev_splice_write` releases the buffers it has already taken when the last one cannot be shared
  (`PipeSplice.NothingLost`, `PipeSplice.LosesBytes`).
- `fuse_writepage_end` crops an auxiliary request to the size of the request it was chained to, also when the file has
  grown since (`WritebackExtents.WholeExactly`, `WritebackWitness.GrownFile`).
- `fuse_setup_new_dax_mapping` uses a mapping that another thread has set up in the meantime for a write even if it is
  read-only (`DaxWritable.OnlyHits`, `DaxWritable.WritesWritable`, `DaxWitness.WriteOnReadOnly`).
- `fuse_add_dirent_to_cache` leaves a page behind that it has created and not filled when the cache has changed in the
  meantime (`ReaddirCache.CommitRaces`, `ReaddirCache.StrayPage`).
- A finished drain of a virtqueue does not cover a submitter that was turned away by a full queue
  (`VirtQueue.EmptyForGood`, `VirtQueue.OnlyLateRetry`, `VirtQueue.LateRetry`).

## Model

| member | source | states |
|---|---|---|
| LifecycleSafety.StepKeeps | fuse_module/fuse_module/dev.c:280-331 | Every step of every thread (submitting, waiting, reading, replying, interrupting, completing, dropping references, aborting, releasing a device) preserves the invariant that ties flags, lists, reference counts, counters and program counters together |
| LifecycleSafety.RunKeeps | fuse_module/fuse_module/inode.c:821-854 | The invariant holds in every state of every interleaving that starts from a fresh connection |
| LifecycleSafety.RefsExact | fuse_module/fuse_module/dev.c:159-181 | A request's reference count is at all times the number of threads that still hold it plus one if a queue or a private to_end list owns it |
| LifecycleSafety.NoUseAfterFree | fuse_module/fuse_module/dev.c:159-181 | No thread ever works on a request that has been freed |
| LifecycleSafety.FreedClean | fuse_module/fuse_module/dev.c:159-181 | A request about to be freed is on no queue, not on the interrupts list, counted nowhere and known to no other thread; if it was asynchronous and finished, its end callback has run; a background request was completed if it ever left bg_queue |
| LifecycleSafety.CompletedOnce | fuse_module/fuse_module/dev.c:280-331 | FR_FINISHED goes from clear to set at most once; the end callback runs at most once, never before that, and while it is outstanding the completing thread is still on its way to it |
| LifecycleSafety.EndsUnqueued | fuse_module/fuse_module/dev.c:299-300 | Neither warning fires: a request in completion never has FR_PENDING or FR_SENT set |
| LifecycleSafety.SomeoneCompletes | fuse_module/fuse_module/dev.c:2150-2160 | An unfinished request that has left the input queue is waiting for a reply, on the private list of a thread that will end it, or carried by such a thread |
| LifecycleSafety.LockedNotEnded | fuse_module/fuse_module/dev.c:610-640 | While a device thread has FR_LOCKED set, the request is on that device's io list, unfinished and not taken private by abort, so its argument pages stay valid |
| LifecycleSafety.CopyOnlyLive | fuse_module/fuse_module/dev.c:849-854 | On a completed request neither locking nor stealing a page succeeds: the attempt ends the copy and changes nothing |
| LifecycleSafety.InterruptsSafe | fuse_module/fuse_module/dev.c:334-362 | No interrupt is lost (SENT and INTERRUPTED: one has been queued, or the submitter or the reader has yet to check) and none dangles (a queued interrupt belongs to a live request whose completion has not passed its removal point) |
| LifecycleSafety.ReplyIdsMatchOnce | fuse_module/fuse_module/dev.c:1871-1881 | A reply id is non-zero and names at most one request on processing lists, and an ordinary reply id never equals the interrupt id of another request |
| LifecycleSafety.BackgroundCounts | fuse_module/fuse_module/dev.c:301-321 | num_background is active_background plus the length of bg_queue, active_background is the number of active background requests, and blocked holds exactly when num_background >= max_background, except exactly while the limit of an INIT reply has left it stale |
| LifecycleSafety.GoesStale | fuse_module/fuse_module/inode.c:1091-1105 | blocked becomes stale in a step if and only if that step is process_init_limits and moves the limit to the other side of num_background |
| LifecycleSafety.NumWaitingExact | fuse_module/fuse_module/dev.c:90-181 | num_waiting is the number of requests with FR_WAITING plus the threads inside fuse_get_req, so zero means that there are none of either |
| LifecycleSafety.StepAddsNone | fuse_module/fuse_module/dev.c:2195-2256 | After the last queue section of abort no step puts a request on bg_queue, pending, io or processing |
| LifecycleSafety.AbortedForGood | fuse_module/fuse_module/dev.c:2195-2256 | The same over the rest of any run: what is on a queue was on that queue at every moment since the abort |
| LifecycleSafety.AbortEmpties | fuse_module/fuse_module/dev.c:2195-2256 | What is then still queued is on an io list and being copied by its device thread |
| LifecycleSafety.AbortDrains | fuse_module/fuse_module/dev.c:2260-2265 | Once abort is done and all threads have finished their work, no request exists, num_waiting is zero and no background request is counted |
| LifecycleSafety.ReleaseFindsIoEmpty | fuse_module/fuse_module/dev.c:2277-2278 | fuse_dev_release finds the io list of its device empty |
| LifecycleWitness.WholeLife | fuse_module/fuse_module/dev.c:525-550 | A run in which a background request is queued, sent, read, answered, completed and freed, and a second one, still pending, is ended by abort; then nothing is left |
| LifecycleKeeps.LocalKeeps | fuse_module/fuse_module/dev.c:1912-2015 | A step on one request keeps the invariant of all requests, threads and counters, given only what the step does to that request |
| LifecycleKeeps.TwoOnOne | fuse_module/fuse_module/dev.c:159-181 | Two threads on the same request are neither submitting it for the first time nor freeing it |
| LifecycleWide.ConnKeeps | fuse_module/fuse_module/dev.c:106-151 | Entering and leaving fuse_get_req, the end of flush_bg_queue, the start of abort, changing the limits and dropping a device keep the invariant |
| LifecycleWide.AllocKeeps | fuse_module/fuse_module/dev.c:131-145 | Allocating a request keeps the invariant |
| LifecycleWide.FreeKeeps | fuse_module/fuse_module/dev.c:175-181 | Freeing a request whose last reference is gone keeps the invariant |
| LifecycleWide.TakeKeeps | fuse_module/fuse_module/dev.c:1317-1334 | Taking the first pending request keeps the invariant |
| LifecycleWide.FlushedEmpty | fuse_module/fuse_module/dev.c:2233-2237 | With the limit raised to UINT_MAX, abort's flush leaves bg_queue empty |
| LifecycleAbort.AbortDevKeeps | fuse_module/fuse_module/dev.c:2211-2232 | Abort's section on one device keeps the invariant |
| LifecycleAbort.AbortQueueKeeps | fuse_module/fuse_module/dev.c:2239-2246 | Abort's section on the input queue keeps the invariant |
| LifecycleAbort.ReleaseKeeps | fuse_module/fuse_module/dev.c:2277-2281 | Moving a released device's processing lists to a private list keeps the invariant |
| LifecycleKeeps.StageSound | fuse_module/fuse_module/dev.c:364-430 | Every step of a thread on its request (submitting, waiting, queueing an interrupt, dropping a reference, copying, sending, completing) keeps what is promised of that request: its list, flags, one completion, interrupts, a thread responsible for it, its id |
| LifecycleKeeps.StageFair | fuse_module/fuse_module/dev.c:1340-1397 | ... and moves references and counters exactly with it |
| LifecycleKeeps.StageOthers | fuse_module/fuse_module/dev.c:280-331 | ... and breaks nothing that another thread on the same request relies on |
| BackgroundQueue.Background.FlushBgQueue | fuse_module/fuse_module/dev.c:255-270 | Exactly the oldest requests, as many as the limit leaves room for, are sent in order with ids stepped by 2; it stops only when the queue is empty or the limit is reached, and never raises the active count above the larger of its old value and the limit |
| BackgroundQueue.Background.QueueBackground | fuse_module/fuse_module/dev.c:534-543 | On a connected connection the request is queued behind all earlier ones, the oldest are sent as far as the limit allows, and the counters change as in the state machine; on a disconnected one nothing changes; blocked stays right if it was |
| BackgroundQueue.Background.EndBackground | fuse_module/fuse_module/dev.c:301-321 | Completing a background request lets the next ones go in order, changes the counters as in the state machine, and keeps blocked right if it was |
| BackgroundQueue.Background.AbortBackground | fuse_module/fuse_module/dev.c:2233-2237 | Abort lets every queued request go, in order, and unblocks, also where blocked was stale |
| BackgroundQueue.Background.SetMaxBackground | fuse_module/fuse_module/control.c:131-136 | Writing the limit recomputes blocked, so that it is right for any value, also where it was stale |
| BackgroundQueue.Background.InitLimits | fuse_module/fuse_module/inode.c:1091-1107 | The limit of the INIT reply keeps blocked right if and only if num_background is on the same side of the old and the new limit |
| BackgroundQueue.StaleBlocked | fuse_module/fuse_module/inode.c:1127 | A reachable state in which it does not: the limit 0 is written before the INIT reply, which raises it to 20, and the connection stays blocked without any background request |
| BackgroundQueue.StaysBlocked | fuse_module/fuse_module/dev.c:304-319 | From there nothing but the limit being set or reached unblocks it: whatever arrives and completes, while the count stays below the limit it stays blocked |
| BackgroundQueue.FlushRefines | fuse_module/fuse_module/dev.c:255-270 | The loop of flush_bg_queue is that many turns of the state machine: the same counters and, request by request, the same ids |
| WritebackInode.Inode.FindWriteback | fuse_module/fuse_module/file.c:403-425 | The search returns a hit exactly if a request being filled, queued or in flight, or an auxiliary request, covers a page of the range |
| WritebackInode.Inode.InsertWriteback | fuse_module/fuse_module/file.c:1752-1782 | Links a request of any number of pages exactly if no other request covers any of them, and otherwise returns one that overlaps and changes nothing |
| WritebackInode.Inode.SendWritepage | fuse_module/fuse_module/file.c:1675-1728 | Crops to the file size and sends, or drops a request truncated off completely or meeting a broken connection |
| WritebackInode.Inode.FlushWritepages | fuse_module/fuse_module/file.c:1736-1750 | Sends the queued requests in order until writes are blocked or none is queued, and keeps the invariant |
| WritebackInode.Inode.WritepageEnd | fuse_module/fuse_module/file.c:1789-1848 | The ended request leaves the tree, and each auxiliary request becomes a request of its own, cropped like the one it was chained to |
| WritebackInode.Inode.ChainPage | fuse_module/fuse_module/file.c:2097-2112 | A page already in the chain gets its copy swapped, another one a new element at the head |
| WritebackInode.Inode.WritepageAdd | fuse_module/fuse_module/file.c:2079-2126 | A new request is inserted exactly if the page is not under writeback; otherwise its newest snapshot goes to the chain of the request that covers it |
| WritebackInode.Inode.SetNowrite | fuse_module/fuse_module/dir.c:1556-1565 | Finds writectr not negative and adds the bias |
| WritebackInode.Inode.ReleaseNowrite | fuse_module/fuse_module/dir.c:1575-1591 | Removes the bias and sends everything queued |
| WritebackTree.LinkKeeps | fuse_module/fuse_module/file.c:1784-1787 | Linking keeps a search tree and adds exactly the new element |
| WritebackTree.EraseKeeps | fuse_module/fuse_module/file.c:1808 | Erasing keeps a search tree and removes exactly the element |
| WritebackTree.RebalanceKeeps | fuse_module/fuse_module/file.c:1780 | Rotations to either side, however many and wherever in the tree, keep elements and order; in the runs the tree is rebalanced between any two steps |
| WritebackKeeps.SendParts | fuse_module/fuse_module/file.c:1675-1728 | Sending keeps the tree of disjoint ranges and the snapshot order of every page |
| WritebackKeeps.SendLists | fuse_module/fuse_module/file.c:1675-1728 | ... and the list and writectr exact |
| WritebackKeeps.FlushKeeps | fuse_module/fuse_module/file.c:1736-1750 | So does flushing, after which writes are blocked or nothing is queued |
| WritebackKeeps.EndKeeps | fuse_module/fuse_module/file.c:1789-1848 | So does ending a write with any number of auxiliary requests |
| WritebackKeeps.NextFree | fuse_module/fuse_module/file.c:1784-1787 | tree_insert never meets a conflict: an auxiliary request's page is uncovered once its request is erased |
| WritebackKeeps.GrowKeeps | fuse_module/fuse_module/file.c:2236-2243 | Growing a range in place by one page keeps it |
| WritebackKeeps.AddNewKeeps | fuse_module/fuse_module/file.c:2079-2093 | Inserting a new request keeps it |
| WritebackKeeps.AddAuxKeeps | fuse_module/fuse_module/file.c:2095-2113 | Chaining or replacing an auxiliary copy keeps it |
| WritebackKeeps.EnqueueKeeps | fuse_module/fuse_module/file.c:2063-2065 | Putting a request on queued_writes keeps it |
| WritebackRuns.StepKeeps | fuse_module/fuse_module/file.c:2162-2253 | Every section of every thread that locks, collects, sends, ends or blocks writes, and every rebalancing of the tree, preserves the invariant |
| WritebackRuns.RunKeeps | fuse_module/fuse_module/file.c:2162-2253 | The invariant, with ranges that stay disjoint, requests no larger than max_pages and max_write, and pages found clear staying clear, holds in every state of every run |
| WritebackRuns.WritesInOrder | fuse_module/fuse_module/file.c:1675-1728 | For each page, snapshots are sent in increasing order and one at a time; once no request is left for the page its newest snapshot was the last one sent or was dropped |
| WritebackSafety.SendDrops | fuse_module/fuse_module/file.c:1675-1728 | Sending drops the newest snapshot of a page exactly if the connection is broken, or the page (or, where its newest copy is chained, the whole request) begins beyond the end of the file |
| WritebackSafety.DroppedExactly | fuse_module/fuse_module/file.c:1675-1728 | The newest snapshot of a page counts as dropped if and only if one of the steps since it was taken dropped it |
| WritebackSafety.KeptNotDropped | fuse_module/fuse_module/file.c:1675-1728 | While the connection works and the file reaches into a page, only the end of a write can drop its snapshot |
| WritebackSafety.NewestWritten | fuse_module/fuse_module/file.c:1789-1848 | Once no request is left for a page: the last write that included some of the page took it from its newest snapshot, and has ended, if and only if no step since that snapshot was taken dropped it |
| WritebackExtents.WholeExactly | fuse_module/fuse_module/file.c:1842 | Over any stretch of a run, every write of a page sent in it includes the page up to the end of the file as it was then, if and only if no request ended in it whose auxiliary request for the page is cropped short: the file had grown past the end of the request |
| WritebackExtents.NewestWhole | fuse_module/fuse_module/file.c:1789-1848 | If that has not happened since the newest snapshot was taken: once no request is left for the page, the snapshot has been written up to the end of the file if and only if no step since then dropped it |
| WritebackWitness.GrownFile | fuse_module/fuse_module/file.c:1842 | A run in which it has happened: with 100 bytes on their way the file grows to 4096, and of the page written again only 100 bytes are ever sent |
| WritebackWitness.CutFile | fuse_module/fuse_module/file.c:1685-1694 | A run in which the newest snapshot is dropped although its page lies within the file: the page was cut off while a request for it was on its way, the file grew again, and the page written again goes with the request that no longer reaches it; it needs a page to become dirty again without the waits of file.c:2314 and file.c:2428 |
| WritebackSafety.SendLosesNone | fuse_module/fuse_module/file.c:1685-1694 | Sending drops the copy of a page only if the connection is broken or the page begins beyond the crop size |
| WritebackSafety.WritectrExact | fuse_module/fuse_module/file.c:1686-1728 | writectr is the number of writes in flight plus the bias |
| WritebackSafety.BugOnsUnreachable | fuse_module/fuse_module/dir.c:1556-1582 | Neither BUG_ON fires, given that one thread at a time blocks writes |
| WritebackSafety.NothingInFlight | fuse_module/fuse_module/dir.c:1556-1567 | From the return of fuse_set_nowrite until the release no write, primary or auxiliary, is in flight |
| WritebackSafety.NothingSent | fuse_module/fuse_module/dir.c:1556-1582 | ... and none gets sent |
| WritebackSafety.ReleaseSendsAll | fuse_module/fuse_module/dir.c:1575-1591 | After the release nothing is left queued |
| DaxSafety.StepKeeps | fuse_module/fuse_module/dax.c:431-633 | Every section of mapping, upgrading, both reclaim paths and eviction preserves the invariant |
| DaxSafety.RunKeeps | fuse_module/fuse_module/dax.c:1230-1275 | The invariant holds in every state of every run over a window of n ranges |
| DaxSafety.ExactlyOnePlace | fuse_module/fuse_module/dax.c:129-180 | Each range is always in exactly one place: the free list, one index of one inode's tree, or the hands of one thread |
| DaxSafety.CountersExact | fuse_module/fuse_module/dax.c:148-180 | nr_free_ranges, nr_busy_ranges and each inode's nr equal the list lengths and the tree size |
| DaxSafety.ActiveStays | fuse_module/fuse_module/dax.c:395-429 | While an iomap is active its range stays at its index of its inode, cannot be reclaimed, and the iomap stays within the range |
| DaxSafety.NoAlias | fuse_module/fuse_module/dax.c:395-429 | No window address backs two places: active iomaps that give the same address are for the same byte of the same inode |
| DaxSafety.VanishedUnreachable | fuse_module/fuse_module/dax.c:987-991 | The branch that would hand out a stale range, and the failed lookup of an upgrade, are unreachable |
| DaxSafety.BusyInodeAlive | fuse_module/fuse_module/dax.c:1150-1181 | A range on busy_ranges points to an inode that has not been freed, and no reference count drops below one |
| DaxSafety.EvictUnused | fuse_module/fuse_module/dax.c:321-332 | Eviction finds only ranges without an active iomap, all of them on busy_ranges |
| DaxWritable.OnlyHits | fuse_module/fuse_module/dax.c:472-484 | A step gives a thread an iomap for a write on a range that is mapped read-only if and only if the thread finds, once it has dax->sem, that the index has been mapped read-only in the meantime, and the iomap is not empty |
| DaxWritable.WritesWritable | fuse_module/fuse_module/dax.c:472-484 | Over any run, every iomap for a write is on a writable range at every moment if and only if no step is such a hit |
| DaxWitness.WriteOnReadOnly | fuse_module/fuse_module/dax.c:472-484 | A run with such a hit: a reader and a writer both find no mapping, and the reader maps the index first |
| DaxWitness.WholeLife | fuse_module/fuse_module/dax.c:431-633 | A run over a window of one range in which an inode is created, the range mapped, reclaimed inline and by the worker, mapped again and freed when the inode is evicted |
| DaxMoves.PickStays | fuse_module/fuse_module/dax.c:958-1003 | Between picking a range and taking it the inline reclaim keeps invalidate_lock, and the range stays where it was |
| DaxMoves.InlineTakeKeeps | fuse_module/fuse_module/dax.c:984-1006 | Taking a range by inline reclaim keeps the invariant |
| DaxMoves.InlineUnbusyKeeps | fuse_module/fuse_module/dax.c:1008-1020 | Taking it off busy_ranges leaves it to the thread alone |
| DaxMoves.WorkTakeKeeps | fuse_module/fuse_module/dax.c:1071-1094 | So does the worker's reclaim |
| DaxMoves.WorkFreeKeeps | fuse_module/fuse_module/dax.c:1096-1100 | ... which returns the range to the free list |
| DaxMoves.SetUpHitKeeps | fuse_module/fuse_module/dax.c:472-484 | When another thread has set up the mapping in the meantime, that one is used and the own range is kept to be returned |
| DaxMoves.SetUpMissKeeps | fuse_module/fuse_module/dax.c:486-493 | A new mapping enters the tree, or a refused range is kept to be returned |
| DaxMoves.ReturnKeeps | fuse_module/fuse_module/dax.c:172-180 | Returning a range keeps the invariant |
| DaxMoves.PublishKeeps | fuse_module/fuse_module/dax.c:223-229 | Putting a mapped range on busy_ranges keeps it |
| DaxSteps.TakeFreeKeeps | fuse_module/fuse_module/dax.c:129-145 | Taking the first free range keeps it |
| DaxSteps.UpgradeFinds | fuse_module/fuse_module/dax.c:513-526 | The range an upgrade finds is the one it holds the extra reference to |
| DaxSteps.UpgradeKeeps | fuse_module/fuse_module/dax.c:513-555 | Upgrading keeps the invariant |
| DaxSteps.BeginKeeps | fuse_module/fuse_module/dax.c:588-632 | fuse_iomap_begin on a mapped or unmapped index keeps it |
| DaxSteps.EndKeeps | fuse_module/fuse_module/dax.c:635-654 | fuse_iomap_end keeps it |
| DaxSteps.FillFits | fuse_module/fuse_module/dax.c:395-429 | The length of an iomap never leaves its range, also when a fault rounds it up to whole pages |
| DaxLists.RemovemappingList | fuse_module/fuse_module/dax.c:251-285 | Every range to remove is named exactly once, in order, in requests of at most a page of entries, up to the first that is refused |
| DaxLists.ConnDax.AllocMapping | fuse_module/fuse_module/dax.c:129-145 | Takes the first free range, or reports that none is free |
| DaxLists.ConnDax.ReinitAddToFreePool | fuse_module/fuse_module/dax.c:291-301 | Moves a range from busy_ranges to the end of free_ranges, with both counters |
| DaxLists.ConnDax.FreeAll | fuse_module/fuse_module/dax.c:345-350 | All ranges of a private list become free, in order |
| DaxLists.InodeDax.IterFirst | fuse_module/fuse_module/dax.c:321-325 | The leftmost node in range |
| DaxLists.InodeDax.TakeRange | fuse_module/fuse_module/dax.c:321-339 | Exactly the nodes in range leave the tree, onto a private list in reverse order |
| DaxLists.InodeDax.ReclaimRange | fuse_module/fuse_module/dax.c:309-351 | ... and their ranges become free; the counters follow |
| ReaddirCache.DirCache.constructor | fuse_module/fuse_module/fuse_i.h:116-140 | An empty cache satisfies the invariant: a contiguous chain of records from position 0, laid out page by page |
| ReaddirCache.DirCache.PrepareAdd | fuse_module/fuse_module/readdir.c:43-62 | A record is to be added exactly if the cache is not complete and ends at the record's position |
| ReaddirCache.DirCache.CommitAdd | fuse_module/fuse_module/readdir.c:64-89 | If nothing happened since and the page is there, the chain grows by exactly this record; otherwise it is as it was, and the pages stay right unless a stray page is left behind |
| ReaddirCache.CommitAdds | fuse_module/fuse_module/readdir.c:75-85 | The addition then is of the record that comes next, and the warning about the position is not reached |
| ReaddirCache.CommitRaces | fuse_module/fuse_module/readdir.c:64-77 | An addition that comes too late leaves the cache right if and only if it does not create a page within the cache, or one that happens to hold what belongs there |
| ReaddirCache.StrayPage | fuse_module/fuse_module/readdir.c:64-77 | A history in which it does: the record was added by another thread and its page reclaimed; the page is created anew, not filled, and the complete cache holds whatever it held |
| ReaddirCache.DirCache.CacheEnd | fuse_module/fuse_module/readdir.c:92-106 | The cache is marked complete exactly if it holds the whole listing |
| ReaddirCache.DirCache.DropPages | fuse_module/fuse_module/readdir.c:108-109 | Losing pages keeps the invariant |
| ReaddirCache.DirCache.Reset | fuse_module/fuse_module/readdir.c:424-432 | A reset empties the chain under a new version |
| ReaddirLayout.RecordAt | fuse_module/fuse_module/readdir.c:55-87 | Once added, a record is found at its place whatever is added later |
| ReaddirLayout.PageEnds | fuse_module/fuse_module/readdir.c:57-61 | A page ends where its last record ends; the padding before the next page holds no record |
| ReaddirLayout.PlaceIs | fuse_module/fuse_module/readdir.c:54-61 | A record that does not fit the rest of a page begins the next page |
| ReaddirLayout.EndInjective | fuse_module/fuse_module/readdir.c:74-76 | The size of the cache determines how many records it holds, so the warning about its position is not reached |
| DirentFormat.DecodeRecord | fuse_module/fuse_module/readdir.c:127-131 | Encoding a record (8-aligned, name and padding included) and decoding it at any offset gives it back |
| DirentFormat.LeRound | fuse_module/fuse_module/readdir.c:127-131 | Reading back a little-endian number of k bytes gives the number |
| ReaddirStream.PeekFinds | fuse_module/fuse_module/readdir.c:383-404 | At every position of the stream the parser sees the next record of the listing or, behind a page's last one, nothing |
| ReaddirStream.ParseCache | fuse_module/fuse_module/readdir.c:380-422 | A page yields exactly the records from the caller's position on, as many as have room, and leaves the stream behind the last one |
| ReaddirStream.ReaddirCached | fuse_module/fuse_module/readdir.c:434-566 | From any valid cookie, cut at any full buffer, exactly the following records of the listing are emitted, whatever other threads add, complete, reset, refill or reclaim wherever the locks are free (short of a stray page); from a complete cache from which nothing is taken away, all that have room |
| ReaddirStream.ParseDirfile | fuse_module/fuse_module/readdir.c:124-146 | The whole records at the front of a reply are emitted in order up to the caller's room, whatever other threads do to the cache in between; it is an error if and only if all are and what follows is malformed; undisturbed, a cache that ended where the reply begins then holds every record emitted |
| ReaddirStream.EmitAndCache | fuse_module/fuse_module/readdir.c:112-122 | A record at the caller's position goes to the caller if it has room, and to the cache only at its end, whatever other threads add, reset or reclaim before each of its two sections |
| ReaddirCalls.ReaddirUncached | fuse_module/fuse_module/readdir.c:320-366 | What a call emits from a reply of the server is what follows in the listing; without an error a caller with room gets on unless it is at the end; at the end of the listing the cache is marked complete |
| ReaddirCalls.Readdir | fuse_module/fuse_module/readdir.c:568-589 | So does a call that is served by the cache, by the server, or by one after the other |
| ReaddirCalls.ReadDirectory | fuse_module/fuse_module/readdir.c:568-589 | A directory read from its beginning by any series of calls, with any buffers, served by the cache or the server while other threads use the cache: the entries emitted, joined, are the listing from its beginning, each once and in order; when calls with room succeed, as many calls as it has entries emit all of it |
| CopyEngine.CopyState.NextSegment | fuse_module/fuse_module/dev.c:707-713 | Taking a segment leaves the remaining byte stream unchanged |
| CopyEngine.CopyState.SegmentsLeft | fuse_module/fuse_module/dev.c:707 | BUG_ON on missing segments is unreachable while bytes are left |
| CopyEngine.CopyState.Do | fuse_module/fuse_module/dev.c:747-765 | Copies the front of the stream, up to the wanted size and the end of the segment |
| CopyEngine.CopyState.CopyOne | fuse_module/fuse_module/dev.c:1067-1078 | An argument receives exactly the next bytes of the stream, for any segmentation, and the loop ends |
| CopyEngine.CopyState.TryMovePage | fuse_module/fuse_module/dev.c:782-884 | A stolen page holds exactly the next page of the stream; otherwise the stream is unchanged and a segment has been taken |
| CopyEngine.CopyState.CopyPage | fuse_module/fuse_module/dev.c:920-966 | Copied or moved, the page holds the next bytes of the stream at its offset; with zeroing the rest of a partly filled page is zero |
| CopyEngine.CopyState.SkipPage | fuse_module/fuse_module/dev.c:960-961 | Without a page the bytes are passed over |
| CopyEngine.ReceivedBytes | fuse_module/fuse_module/dev.c:926-927 | Each byte of a page after receiving: the payload's byte, zero, or what was there |
| ReplyArgs.CopyPages | fuse_module/fuse_module/dev.c:1039-1058 | Pages receive consecutive slices of the payload, also when it ends early |
| ReplyArgs.SplitPayload | fuse_module/fuse_module/dev.c:968-1037 | For every header and footer: nothing, the header bytes of the first page and the footer bytes ending at the last page's count, zeros with a single page, an access out of range, or, if the unchecked allocation fails, no buffer |
| ReplyArgs.SplitExact | fuse_module/fuse_module/dev.c:968-1037 | For every payload of n bytes on every pages the split is its first and its last bytes, if and only if nothing is asked for, or there are at least two pages, the header lies within what goes to the first, the footer within what goes to the last, and with a footer nothing is left over |
| ReplyArgs.OnePageReply | fuse_module/fuse_module/dev.c:988 | A reply on one page: the header comes out as zeros |
| ReplyArgs.ShortReply | fuse_module/fuse_module/dev.c:1006-1007 | 100 bytes for two pages, as at the end of a file: the footer is read from in front of the second page |
| ReplyArgs.LongHeader | fuse_module/fuse_module/dev.c:986-997 | A header longer than the payload is not what was sent, one longer than a page is read beyond it, and without pages there is nothing to read from |
| ReplyArgs.CopyPagesAndSplit | fuse_module/fuse_module/dev.c:1039-1064 | Pages receive consecutive slices, for any header and footer, and the split is taken from the pages after that, given memory for it |
| ReplyArgs.AdjustedTotal | fuse_module/fuse_module/dev.c:1886-1899 | An accepted reply is exactly as long as its header and its shortened arguments |
| ReplyArgs.CheckLength | fuse_module/fuse_module/dev.c:1886-1899 | A reply is accepted exactly if its length fits, or is short by no more than a variable last argument |
| ReplyArgs.CopyValues | fuse_module/fuse_module/dev.c:1081-1094 | Arguments receive consecutive slices of the payload |
| ReplyArgs.CopyArgs | fuse_module/fuse_module/dev.c:1081-1094 | ... and the pages the last one |
| ReplyArgs.CopyOutArgs | fuse_module/fuse_module/dev.c:1883-1903 | A reply is rejected with -EINVAL exactly if its length does not fit; otherwise arguments and pages are consecutive slices of it, to its end, and the split is the ends of what the pages were sent wherever that can be |
| PipeSplice.MaskIsLow | fuse_module/fuse_module/dev.c:2050-2053 | Masking an index with the ring size less one leaves its lowest bits |
| PipeSplice.SlotsDistinct | fuse_module/fuse_module/dev.c:2050-2070 | Entries less than a ring apart lie in different buffers, also across the wrap of a 32-bit counter |
| PipeSplice.Pipe.Available | fuse_module/fuse_module/dev.c:2063-2070 | The first loop finds out whether the pipe holds len bytes |
| PipeSplice.Pipe.SomethingLeft | fuse_module/fuse_module/dev.c:2077-2078 | The warning in the second loop is unreachable |
| PipeSplice.Pipe.SpliceOut | fuse_module/fuse_module/dev.c:2063-2101 | What is taken and what stays, for every pipe and also when the last buffer cannot be shared; when it succeeds, exactly len bytes in at most head - tail buffers, followed by what is left, are what was in the pipe |
| PipeSplice.SpliceConserves | fuse_module/fuse_module/dev.c:2075-2101 | It succeeds exactly if the pipe is long enough and no buffer must be cut or the cut one can be shared, and then conserves the bytes |
| PipeSplice.NothingLost | fuse_module/fuse_module/dev.c:2088-2122 | No byte is lost if and only if the last buffer can be shared, the pipe is too short, no buffer must be cut, or no byte comes before the buffer to be cut |
| PipeSplice.LosesBytes | fuse_module/fuse_module/dev.c:2088-2122 | A pipe of two three-byte buffers of which four bytes are wanted: an error, and three bytes are gone |
| ForgetQueue.ForgetList.Append | fuse_module/fuse_module/dev.c:245-248 | A forget goes behind all others |
| ForgetQueue.ForgetList.Dequeue | fuse_module/fuse_module/dev.c:1144-1164 | Exactly the oldest forgets, up to the wanted number, leave as a terminated list of their own; the rest stays linked and the tail pointer is right |
| ForgetQueue.ChooseRead | fuse_module/fuse_module/dev.c:1323-1331 | What is read next and how forget_batch changes |
| ForgetQueue.BatchInRange | fuse_module/fuse_module/dev.c:1323-1329 | forget_batch stays from -7 to 16 between reads |
| ForgetQueue.NoStarvation | fuse_module/fuse_module/dev.c:1323-1331 | While both kinds are pending there are at most 16 forgets and at most 8 ordinary requests in a row, whatever was read before |
| SyncBuckets.StepKeeps | fuse_module/fuse_module/inode.c:560-596 | Every step of any number of syncfs calls and writers preserves the exact count of every bucket |
| SyncBuckets.SyncWaitsForAll | fuse_module/fuse_module/inode.c:560-596 | When a syncfs call returns, every write that was registered when it was made, in any bucket, has been released |
| SyncBuckets.NoneOutstanding | fuse_module/fuse_module/inode.c:566-576 | If only the current bucket's own count is left, no write is registered anywhere, so the early return is right |
| SyncBuckets.DeadStaysDead | fuse_module/fuse_module/file.c:1914-1926 | A writer with a stale bucket pointer cannot revive a bucket whose count is zero |
| SyncBuckets.CountsPositive | fuse_module/fuse_module/inode.c:569 | The warning is unreachable: the current bucket's count is at least one, and none is negative |
| SyncBuckets.SyncReturns | fuse_module/fuse_module/inode.c:560-596 | A run in which a syncfs call meets a registered write, waits, and returns after its release |
| VirtQueue.StepKeeps | fuse_module/fuse_module/virtio_fs.c:150-162 | Every section of submission, retry, completion and forgets keeps in_flight exact |
| VirtQueue.InFlightExact | fuse_module/fuse_module/virtio_fs.c:150-162 | in_flight is the number of requests on the virtqueue, on the retry list and with a worker; it is never negative, and the warning is unreachable |
| VirtQueue.ZeroMeansNone | fuse_module/fuse_module/virtio_fs.c:187-206 | At zero no request is on the virtqueue, on the retry list or with a worker |
| VirtQueue.DrainedMeansNone | fuse_module/fuse_module/virtio_fs.c:187-206 | Once a drain that began on a stopped queue without submitters has finished, none is left and none comes back |
| VirtQueue.OnlyLateRetry | fuse_module/fuse_module/virtio_fs.c:1247-1260 | On a stopped queue with nothing in flight a step makes in_flight positive if and only if it is a submitter, turned away by a full queue, putting its request on the retry list |
| VirtQueue.EmptyForGood | fuse_module/fuse_module/virtio_fs.c:187-206 | A stopped queue with nothing in flight stays so over all steps short of a start or a new request if and only if no submitter is on its way back |
| VirtQueue.LateRetry | fuse_module/fuse_module/virtio_fs.c:1247-1260 | Why no submitters: a request that found the queue full before it was stopped is put on the retry list after the drain has finished |
| VirtQueueWork.DispatchConserves | fuse_module/fuse_module/virtio_fs.c:374-405 | A run of the dispatch worker neither loses nor duplicates a request |
| VirtQueueWork.Fsvq.RequestDispatchWork | fuse_module/fuse_module/virtio_fs.c:352-405 | Ends the failed requests, then sends the queued ones in order until the virtqueue is full, and counts out exactly those that fail for good |
| VirtQueueWork.Fsvq.RequestsDoneWork | fuse_module/fuse_module/virtio_fs.c:609-650 | Everything on the virtqueue is ended and counted out |
| AsyncIo.IoPriv.Send | fuse_module/fuse_module/file.c:753-776 | Sending a piece adds its length, its share of the count and its reference |
| AsyncIo.IoPriv.AioCompleteReq | fuse_module/fuse_module/file.c:728-751 | Completing a piece in any order, with any size reported, gives up its share, keeps the smallest end of a short piece and the first error, and leaves the reference with the completer |
| AsyncIo.IoPriv.AioComplete | fuse_module/fuse_module/file.c:673-682 | The section under io->lock: the first error wins, the smallest position is kept, a blocking request is signalled when the last share goes, and of a non-blocking one the result is left to report |
| AsyncIo.IoPriv.SubmitDone | fuse_module/fuse_module/file.c:2930 | The submitter gives up its share once, with its error if it has one, and keeps its reference until it puts it |
| AsyncIo.IoPriv.GetRes | fuse_module/fuse_module/file.c:642-651 | An error if there was one; a write is all or nothing; a read, if no piece reports more than it asked for, returns the longest prefix transferred without a gap; whoever asks still has a reference |
| AsyncIo.IoPriv.Report | fuse_module/fuse_module/file.c:684-699 | The last completer of a non-blocking request reports that result, once, and still has its reference |
| AsyncIo.IoPriv.Put | fuse_module/fuse_module/file.c:701 | A reference is put in a step of its own; the structure is freed exactly if submitter, pieces, the other completers and the waiter are gone |
| AsyncIo.IoPriv.WaitDone | fuse_module/fuse_module/file.c:2936-2940 | A blocking submitter gets that result; after it has put its reference there are as many left as completers that have yet to put theirs |
| AsyncIo.WaiterFirst | fuse_module/fuse_module/file.c:680-701 | A request whose waiter is done while the completer that woke it still has its reference |
| AsyncIo.IoPriv.OnceAtEnd | fuse_module/fuse_module/file.c:673-701 | The result is announced exactly once, after the last piece; the count is zero if and only if submitter, pieces, completers and waiter are gone, which is never before that |
| AsyncIo.SmallestIsPrefix | fuse_module/fuse_module/file.c:642-666 | Once every piece has completed, the smallest end of a short piece is the end of the transferred prefix |
| LockOwner.LockOwnerId | fuse_module/fuse_module/file.c:376-392 | The loop computes 32 rounds on the two halves |
| LockOwner.Bijection | fuse_module/fuse_module/file.c:376-392 | For every key an explicit inverse undoes the scrambling, and the other way round |
| LockOwner.DistinctOwners | fuse_module/fuse_module/file.c:376-392 | Distinct owners never share an id |

## Left out

- LifecycleSafety.RunKeeps: a connection has fewer than UINT_MAX requests at a time and the 64-bit id counter does not wrap; devices are attached before the run.
- LifecycleSafety.RefsExact: only the flags, lists and references of a request are modelled in the state machine, not the lifetime of its argument block in the splice-read path (`fuse_ref_page`).
- WritebackRuns.StepKeeps: the windows in fuse_send_writepage in which fi->lock is dropped are taken not to admit another writeback thread, and an inode has at most INT_MAX requests; the copy of a page is taken in the same step in which it is added, under the page lock. When a page becomes dirty is left open: that fuse_write_begin and fuse_page_mkwrite wait for its writeback first (`file.c:2314`, `file.c:2428`) is not modelled, which admits more runs.
- WritebackTree.RebalanceKeeps: the colours of the red-black tree and the choice of rotations are not part of this model; any rotations may happen between two steps.
- DaxSafety.StepKeeps: fuse_dax_break_layouts finds no busy page, so invalidate_lock is not dropped while it runs; faults hold invalidate_lock shared, which is not modelled and only leaves fewer interleavings; an inode is evicted only when no thread uses it.
- DaxLists.InodeDax.ReclaimRange: runs without interleaving, as eviction does.
- ReaddirStream.ReaddirCached: an addition of another thread that would leave a stray page (ReaddirCache.CommitRaces) is not made; finding the page and checking the version again are one step, since a locked page does not change in between. The directory's listing does not change while it is cached.
- ReaddirStream.ParseDirfile: as for ReaddirStream.ReaddirCached, an addition that would leave a stray page is not made, neither its own nor that of another thread. Readdirplus replies and their lookups are not part of this model.
- ReaddirCalls.ReadDirectory: the server answers from one listing, with whole records behind the position that is asked for; all calls go through one open file.
- CopyEngine.CopyState.CopyPage: the direction from a request to the user, which references pages instead of copying them, is not part of this model. Pages and argument buffers are values that the methods return, so aliasing between them is not captured.
- ReplyArgs.CopyOutArgs: every request page is present; copying the split buffer to the user is left out.
- `fuse_page_descs_length_init`: fills in lengths and nothing more.
- BackgroundQueue.Background.InitLimits: congestion_threshold has no effect on requests and is left out.
- VirtQueue.DrainedMeansNone: scatter-gather lists and argument buffers are not modelled; what virtqueue_add_sgs returns is arbitrary.
- SyncBuckets.SyncWaitsForAll: RCU freeing is left out; a bucket stays readable.
- The forget list in the state machine of requests: forgets touch no request (module ForgetQueue).
- Wait queues, wakeups, scheduling, memory barriers and liveness beyond the stated bounds.
- VFS objects, dcache, permission checks, attributes, extended attributes, ioctl, CUSE and mount options: no shared state with a hard invariant.
- `fuse_fs`, `libfuse` examples and scripts: plumbing around the module.
