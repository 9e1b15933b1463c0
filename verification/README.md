# Verified model of svipc

svipc gives interpreters (Yorick, Python) shared memory, semaphores and message queues built on
XSI IPC. This project models its protocols in Dafny and proves what they promise.

* **The pool** (`Pool*.dfy`). Any number of processes, each at a code point of `shm_write`,
  `shm_read`, `shm_free`, `shm_cleanup` or `shm_info`, share a master table, a semaphore set of
  2n+1 and the slot segments. A step is one kernel call or one store; copies move one cell a
  step. Both routes of `acquire_slot` are there: the plain one, which takes the slot lock under
  the master lock, and the subscribing one, which keeps a snapshot, drops the master lock, waits
  on the handshake and then locks with a snapshot that may be stale. `PoolInvariant` states what
  every reachable state satisfies, `PoolSteps` and `PoolProof` prove that each step keeps it,
  `PoolFlow` has the control flow of the calls, and `PoolTheorems`, `PoolSafety`, `PoolRuns`,
  `PoolCalls`, `PoolHandshake`, `PoolFreshness`, `PoolRoutes`, `PoolOutcomes` and `PoolProgress`
  draw the results.
* **The imperative parts of the same code**: `Master` (init loops, table scans, table updates),
  `SegmentMemory` over `Bytes` (header and payload byte for byte), `AttachList` (the linked list
  behind `shm_var`).
* **Semaphores**: `TimedWait` (the polling `semtimedop`, `sem_init`) and `Semaphores` (any
  interleaving of gives and takes).
* **Messages**: `Message` (wire form and dimension lists) and `Queue`.
* **The parallel matrix product** (`Matrix`, `ForkJoin*`, `BigMatProd`): the processes of
  `bigmatprod` run on the pool above, unchanged, with one counting semaphore beside it.

History variables (`owner`, `posted`, `consumed`, and in a segment `id`, `hist`; in a process
`ver`) record what happened; no guard of a step reads them. Lemmas of `PoolRuns` and
`PoolHandshake` tie them to the steps of the run. A failed call returns -1; the model keeps the
reason beside it.

Assumptions: the kernel behaves as IEEE Std 1003.1-2008, System Interfaces, section 2.7 and the
`semop` page say (a removed segment cannot be attached again); `semop` fails only once the set is
removed; segment ids are positive and never reused; the keys `key+1` .. `key+n` belong to the
pool; `shm_init` has returned before anybody attaches; slot names are 1 to 79 characters long
(`Table.ValidId`; `Master.CreatedIsFoundIff` shows that the upper bound is exact). The platform is
LP64.

Where the code does less than one might expect, the model follows it: a rewrite keeps the
dimensions of the first write whenever the element count agrees (`SegmentMemory.RewriteLaw`); a
node at the tail of the attachment list is blanked, not unlinked; a publisher counts only the
subscribers asleep at that moment. One thing a caller might expect is false: a write that returns
-1 need not have been refused. A publishing write is accepted before it publishes, and returns -1
if the semaphores are removed in between (`PoolUnpublished.AcceptedAndFailed` is such a run,
`PoolCalls.PublishFailsIff` the exact condition); for every other failure of a write
`PoolCalls.RunIsLinearizable` shows that nothing was accepted.

## Model

| member | source | states |
|---|---|---|
| PoolProof.InitialInv | common/svipc_shm.c:853-963 | the pool that init leaves satisfies the invariant for any number of slots and processes |
| PoolProof.StepKeeps | common/svipc_shm.c:466-672 | every step of every process, whatever the others are doing, keeps the pool invariant (locks, segments, table, handshakes, what each process knows at its code point) |
| PoolProof.RunKeeps | common/svipc_shm.c:466-672 | the invariant holds in every state of every run |
| PoolFlow.StepFollows | common/svipc_shm.c:494-672 | every step follows the control flow of the calls, and a call begins as it was chosen |
| PoolTheorems.MutualExclusion | common/svipc_shm.c:209-336 | in every run each lock's value plus the number of processes inside its region is 1 until cleanup, and never more than one process is inside, by whichever of the two routes it came |
| PoolSafety.NoTornReads | common/svipc_shm.c:1071-1123 | in every run, at every moment of a read its cells are the front of the image of the last write accepted into the segment, never the mark -1, and the result is that write's bytes under the first write's type and dimensions |
| PoolSafety.AccessesFit | common/svipc_shm.c:983-1057 | in every run every header check, store and load of a call inside a slot stays within the bytes asked of shmget |
| PoolSafety.SafeDestruction | common/svipc_shm.c:466-488 | in every run a step that removes a segment finds no other process inside it |
| PoolSafety.CleanupLeavesNothing | common/svipc_shm.c:1160-1180 | when the loop of shm_cleanup has ended, and ever after, all slots are empty and no segment of the pool is alive |
| PoolOutcomes.LoopsVisitUsedSlots | common/svipc_shm.c:787-842 | in every run the loops of cleanup and info pass the slots in order and stop at exactly the used ones, info only for details |
| PoolOutcomes.CleanupRemovesThePool | common/svipc_shm.c:1160-1198 | in every run, when a cleanup has succeeded, semaphores and master are gone, all entries are empty and no segment is alive |
| PoolSafety.NoSlotLeftIff | common/svipc_shm.c:540-555 | a write reports that no slot is left if and only if its id is absent and all n slots are used |
| PoolSafety.UsedAll | common/svipc_shm.c:269-283 | the number of used slots is n if and only if none is free |
| PoolSafety.CreationNeverCollides | common/svipc_shm.c:604-616 | the exclusive shmget for key+slot+1 never meets a live segment of that key |
| PoolSafety.TableMatchesSegments | common/svipc_shm.c:618-621 | while the master lock is free, used entries and live segments correspond one to one, empty means no description, and ids are distinct |
| PoolSafety.StaleSnapshotsAreHarmless | common/svipc_shm.c:565-640 | a subscriber whose segment was removed meanwhile gets an error; otherwise it reads the segment its id is bound to now |
| PoolSafety.LeavingFreesLock | common/svipc_shm.c:632-672 | leaving a slot, after success or failure, frees its lock |
| PoolRuns.HistoryIsAcceptedWrites | common/svipc_shm.c:1002-1054 | a segment's history is the list of the writes accepted into it during the run, in order |
| PoolCalls.ReadsReturnAcceptedWrites | common/svipc_shm.c:1071-1123 | in every run a read that returns an array found it at one step of the call: well-formed, the type and dimensions of the first and the bytes of the last write accepted by then into a segment made for the id asked for |
| PoolRuns.PoolRefinesMap | common/svipc_shm.c:524-672 | in every run every step acts on the binding of every id exactly as its event says: a first write binds, a compatible write replaces the bytes, an incompatible write and a failed call change nothing, a free unbinds, a read returns the binding in force |
| PoolRuns.BoundIsMeaning | common/svipc_shm.c:524-672 | the binding of an id is what the events so far, taken one after the other, leave |
| PoolRuns.EventsAreLegal | common/svipc_shm.c:524-672 | in every run the events, in the order of their steps, are a legal history of a plain map from ids to arrays |
| PoolCalls.RunIsLinearizable | python/svipc_module.c:170-173 | in every run each write, read or free that returns has exactly the one event its result announces, at one step between its begin and its return, or none if it announces none; that event is legal for a plain map on which the events so far have acted in order |
| PoolCalls.PublishFailsIff | common/svipc_shm.c:1059-1065 | a publish fails if and only if the semaphores are gone at its post or at its wait, and the write has been accepted by then |
| PoolUnpublished.AcceptedAndFailed | common/svipc_shm.c:1056-1065 | a run of one writer and one cleanup after which an accepted write returns -1 |
| PoolHandshake.HandshakeConservation | common/svipc_shm.c:338-419 | in every run a handshake holds units posted less units consumed, never negative |
| PoolHandshake.PublishEndsDrained | common/svipc_shm.c:405-418 | a publish returns at a moment when every posted unit has been consumed |
| PoolHandshake.PublishReachesExactlyItsCount | common/svipc_shm.c:381-419 | with one publisher, exactly as many subscribes succeed between its post and its return as it counted, timeouts and late arrivals notwithstanding |
| PoolRoutes.PublisherCountsSleepers | common/svipc_shm.c:387-394 | in every run a publisher counts exactly the processes asleep at that moment in a subscription to its slot |
| PoolRoutes.PublishServesSleepers | common/svipc_shm.c:381-419 | with one publisher, the subscribes served between its post and its return are as many as the processes that were asleep when it counted, and it counted since it dropped the slot |
| PoolRoutes.WritesPublish | common/svipc_shm.c:1056-1065 | in every run a write that returns success has posted exactly once if it publishes, after it was accepted and for exactly the sleepers it counted, and not at all otherwise |
| PoolHandshake.UnitHasPublisher | common/svipc_shm.c:338-403 | in every run each unit a subscriber consumes was posted before, by the one publisher whose units it falls among in the order of posts |
| PoolFreshness.SubscribersReadFresh | common/svipc_shm.c:565-590 | in every run a subscriber that returns an array found it after consuming a unit that a publisher posted after dropping the slot it wrote; unless the slot was emptied between that drop and the read, it is the publisher's segment and the array includes that write |
| PoolRoutes.ReadsSubscribe | common/svipc_shm.c:565-590 | in every run a read that returns an array has consumed exactly one unit if it subscribes, before the step where it found the array, and none otherwise; a read that timed out had a timeout and consumed none |
| PoolRoutes.SubscribingReadsAreFresh | common/svipc_shm.c:1071-1091 | in every run every subscribing read that returns an array consumed a unit of a publisher, and unless the slot was emptied between that publisher's drop and the read, the array includes its write |
| PoolOutcomes.SubscribersWaitForUnits | common/svipc_shm.c:338-379 | in every run a subscriber can take a unit exactly if one is there, otherwise it goes to sleep until one is, and it can give up only with a timeout |
| PoolOutcomes.PublishersWaitForNone | common/svipc_shm.c:390-410 | in every run a publisher that counted somebody posts at once, and a publisher returns exactly when no unit is left |
| PoolOutcomes.LocksWaitForHolders | common/svipc_shm.c:209-336 | in every run taking a lock waits exactly while some process is inside |
| PoolOutcomes.CallsFailForCause | common/svipc_shm.c:494-652 | in every run a call fails at a step if and only if there is a cause there, and for that cause: no pool, semaphores gone, id absent, all slots used, shmget refused, segment removed, timeout, header mismatch, publish without semaphores |
| PoolProgress.WaitersHoldLittle | common/svipc_shm.c:494-652 | nobody holds a lock while waiting on a handshake or for the master; who waits for a slot lock holds no slot lock |
| PoolProgress.SomeHolderCanStep | common/svipc_shm.c:466-652 | whenever a lock is held, some holder can step |
| PoolProgress.HoldersRankDown | common/svipc_shm.c:466-652 | every step of a holder lowers the ranking by code points, slots left to scan and cells left to copy |
| PoolProgress.HoldersCanFinish | common/svipc_shm.c:764-848 | from every reachable state the holders can, by their own steps, free all locks |
| Arrays.PrefixParses | common/svipc_shm.c:1093-1118 | reading an image from the front stops exactly at its end and yields the array |
| Arrays.TypeSizes | common/svipc_shm.h:27-46 | the element sizes are those of the six C types in the order of the type codes, on LP64 |
| Table.Lookup | common/svipc_shm.c:253-267 | the first slot of that description, or none has it |
| Table.FreeIndex | common/svipc_shm.c:269-283 | the first slot without a segment, or all have one |
| Master.SlotMaster.constructor | common/svipc_shm.c:884-951 | the init loops write each semaphore exactly once, locks 0..n to 1 and handshakes n+1..2n to 0, and leave an empty table: the initial state of the pool |
| Master.SlotMaster.LookupSlot | common/svipc_shm.c:253-267 | the loop computes the specified lookup |
| Master.SlotMaster.FreeSlotIndex | common/svipc_shm.c:269-283 | the loop computes the specified free slot |
| Master.SlotMaster.AcquireEntry | common/svipc_shm.c:539-622 | found, missing, full, refused by shmget or created, each exactly when the table and shmget say so; only a creation changes the table, in the first free slot, and it binds that id alone |
| Master.SlotMaster.ClearEntry | common/svipc_shm.c:466-488 | the slot's id becomes unbound and every other id keeps its slot |
| Master.CreateRebinds | common/svipc_shm.c:618-621 | giving a free slot to an absent id of usable length keeps the table valid and moves no other id |
| Master.ClearRebinds | common/svipc_shm.c:481-482 | clearing a slot keeps the table valid and unbinds its id alone |
| Master.CreatedIsFoundIff | common/svipc_shm.c:619-620 | a name just stored is found again if and only if it is shorter than 80 characters |
| Table.Stored | common/svipc_shm.c:619-620 | the stored name is the longest front of the id that leaves room for the terminator |
| SegmentMemory.CellsAreBytes | common/svipc_shm.c:1006-1057 | the cells of the pool model are the stored bytes, word by word and byte by byte, at the offsets used for the bounds |
| SegmentMemory.StoredHeader | common/svipc_shm.c:1093-1118 | a segment that stores an array has its type, number of dimensions, dimensions and data at these offsets, in this order |
| SegmentMemory.FillHeader | common/svipc_shm.c:1005-1013 | the loop stores type, count and dimensions and leaves the cursor behind them |
| SegmentMemory.CheckHeader | common/svipc_shm.c:1016-1054 | accepts if and only if type, number of dimensions and element count agree with the stored header; the cursor ends at the payload |
| SegmentMemory.WriteArray | common/svipc_shm.c:1002-1057 | a write is accepted if and only if the segment is new or type, number of dimensions and element count agree; an accepted one stores the array, under the first header if there is one; a refused one changes no byte |
| SegmentMemory.ReadArray | common/svipc_shm.c:1093-1118 | a read of a segment returns exactly the array stored |
| SegmentMemory.RewriteLaw | common/svipc_shm.c:1016-1057 | after any sequence of writes exactly those agreeing with the first were accepted, and the first one's type and dimensions are in force with the last agreeing one's bytes |
| AttachList.Attachments.SegAdd | common/svipc_shm.c:679-703 | appends one node at the end and changes nothing the others say; the list stays acyclic |
| AttachList.Attachments.Before | common/svipc_shm.c:705-714 | the walk of seg_rem ends at the item, with its predecessor in hand |
| AttachList.Attachments.SegRem | common/svipc_shm.c:705-733 | unlinks the item, except that the tail of a longer list stays linked |
| AttachList.Attachments.LookupId | common/svipc_shm.c:735-745 | the walk terminates with the first node of that id, or no node has it |
| AttachList.Attachments.LookupData | common/svipc_shm.c:747-757 | the walk terminates with the first node of that data pointer, or no node has it |
| AttachList.DataIsThere | common/svipc_shm.c:1248-1259 | behind the header of any segment that stores an array lies its data, inside the segment, at the same offset wherever it is mapped |
| AttachList.ReadHeader | common/svipc_shm.c:1246-1259 | the walk over the header yields type and dimensions and ends where the data starts |
| AttachList.Attachments.Attach | common/svipc_shm.c:1213-1269 | an attached id yields its header and pointer again and changes nothing; a new one adds exactly one attachment and one mapping; a failed acquire changes nothing; the pointer returned is where the segment's data starts |
| AttachList.Attachments.Detach | common/svipc_shm.c:1271-1297 | succeeds if and only if the pointer is that of a live attachment, and takes out that attachment and its mapping alone, whatever blank nodes are in the list |
| AttachList.LiveIsMap | common/svipc_shm.c:735-757 | live attachments are a map from ids, from data pointers and from addresses |
| AttachList.SessionsStayOk | common/svipc_shm.c:1213-1297 | over any sequence of attaches and detaches from the empty session, live attachments describe exactly the mapped segments and are a map from ids, addresses and data pointers |
| AttachList.MappingsBalance | common/svipc_shm.c:1213-1297 | over any such sequence an address has been mapped once more than unmapped while attached, and equally often otherwise: nothing is detached twice |
| TimedWait.Semaphore.TimedOp | common/svipc_misc.c:89-127 | terminates after 1 to 1+ceil(T/10^6) tries; goes through if and only if one of the possible tries, the set still being there, finds enough units, at the first that does; fails for good if and only if the set is gone before any such try, at the first that finds it gone; gives up only after sleeping at least T and less than T+10^6 ns; a wait that fails changes no count |
| TimedWait.InitSemaphores | common/svipc_sem.c:65-91 | every semaphore of a new set is set to 0, once |
| Semaphores.Conservation | common/svipc_sem.c:231-306 | in every interleaving of gives and takes the value is units given less units taken, never negative |
| Semaphores.TakeIsCovered | common/svipc_sem.c:231-306 | a take of N completes only with N units given and not yet taken, all or nothing, timed or not; one that expires takes none |
| Semaphores.PendingCompletesIff | common/svipc_sem.c:255-260 | in every run a pending take of N can complete if and only if N units have been given and not taken, a give always can, a take of none exactly when none is left, and only a timed call can expire |
| Semaphores.PendingIsAsCalled | common/svipc_sem.c:231-306 | a pending call has the operand and the timeout it was made with |
| Message.StoreDims | yorick/yorick_svipc.c:499-507 | the loop lays the numbers of the list down in order and leaves the cursor behind them |
| Message.Encode | yorick/yorick_svipc.c:445-509 | refuses an array without dimensions or of another type, and otherwise fills a buffer of exactly msgsz bytes with type, count, dimensions and data |
| Message.DecodeDims | yorick/yorick_svipc.c:536-546 | reading the words backwards and prepending rebuilds the list in order, its product, and a cursor behind all of them |
| Message.MessageWords | yorick/yorick_svipc.c:497-509 | the encoding has type, number of dimensions, dimensions and data at these offsets, in this order |
| Message.Decode | yorick/yorick_svipc.c:534-576 | decoding an encoded array gives back the same type, list and bytes and consumes exactly msgsz bytes |
| Message.Flatten | yorick/yorick_svipc.c:158-164 | shm_write's loop passes the numbers of the list in order |
| Message.Rebuild | yorick/yorick_svipc.c:209-217 | shm_read's backward loop rebuilds the list of those numbers and their product |
| Message.ListOfNumbers | yorick/yorick_svipc.c:158-217 | a list taken apart and rebuilt is the same list |
| Queue.MsgQueue.Send | common/svipc_msq.c:145-175 | refuses a message larger than msg_qbytes, and otherwise appends it when there is room |
| Queue.MsgQueue.Receive | common/svipc_msq.c:198-222 | takes exactly the message msgrcv selects, whole, into a buffer of msg_qbytes |
| Queue.SendAndReceive | yorick/yorick_svipc.c:445-576 | an array sent into a queue with room arrives equal at the receive that selects it, and the queue is as before |
| Queue.SelectsSentIff | common/svipc_msq.c:211-212 | a receive selects the message just sent if and only if it asks for any and none is older, or for its type and no older one has it, or for types up to a bound that covers it and every older one has a higher type |
| Queue.SelectsNoneIff | common/svipc_msq.c:211-212 | a receive selects nothing if and only if nothing queued fits what it asks for |
| Queue.MovesExist | common/svipc_msq.c:145-212 | a message within the limit can be checked, and sent exactly when there is room; a receive is always answered |
| Queue.ReceivedFits | common/svipc_msq.c:145-212 | in every interleaving of senders, checks included, a received message is no larger than the receiver's buffer |
| Queue.Select | common/svipc_msq.c:211-212 | the first queued message the requested type admits |
| Matrix.ChunkStarts | demo/timing-demo.i:30-38 | the running sums of the chunk sizes tile the rows for every 1 <= np <= rows |
| Matrix.SplitRows | demo/timing-demo.i:30-38 | the loops compute these chunks: consecutive, non-empty, covering the rows, all but the last of size rows/np |
| Matrix.TilesCover | demo/timing-demo.i:30-38 | every row belongs to exactly one chunk |
| Matrix.TilesOrdered | demo/timing-demo.i:30-38 | chunks follow one another without overlap and stay within the rows |
| Matrix.ProductEntry | demo/timing-demo.i:68 | entry (i, j) of the product is row i of a, in the order of its columns, multiplied with column j of b |
| Matrix.InnerEntry | demo/timing-demo.i:68 | with the inner product, entry (i, j) is the sum over k of a(i, k) * b(k, j) |
| Matrix.TimesIdentity | demo/timing-demo.i:68 | a matrix times the identity is itself |
| Matrix.ProductOfRows | demo/timing-demo.i:64-67 | a block of rows of a, times b, is that block of rows of the product |
| Matrix.PackRoundTrip | demo/timing-demo.i:84-101 | a block written to a slot and read back is the same block |
| Matrix.PackLayout | yorick/yorick_svipc.c:158-164 | a packed matrix has rows and columns as its dimensions, in this order, and each entry at its place counted down the columns, least significant byte first |
| Matrix.AssignRows | demo/timing-demo.i:92-94 | the assignment fills rows st+1 .. st+sz and keeps the rows before |
| Matrix.Gather | demo/timing-demo.i:69-95 | own block and received blocks together make the whole matrix |
| ForkJoin.IdsAreValid | demo/timing-demo.i:84-100 | the children's slot names are "data" and the decimal of their number, usable for every np an int can hold |
| ForkJoin.IdsDiffer | demo/timing-demo.i:84-100 | different children use different slot names |
| ForkJoin.CallAdvances | common/svipc_shm.c:524-672 | each step of a plain write or read that meets no full table, absent id, removed segment or foreign header brings the call nearer its successful end |
| ForkJoinProof.SlotsSuffice | demo/timing-demo.i:47-48 | np-1 slots suffice: a child whose name is not in the table finds a free one |
| ForkJoinProof.NoHazard | demo/timing-demo.i:77-104 | no call of the program ever meets a full table, an absent id, a removed segment or an incompatible header |
| ForkJoinProof.AllBound | demo/timing-demo.i:80-85 | past its take the parent finds every child done and every slot bound to that child's block |
| ForkJoinRuns.WorldKeeps | demo/timing-demo.i:50-107 | every step of every process keeps the fork/join invariant and uses up some of that process's work |
| ForkJoinRuns.TakeKeeps | demo/timing-demo.i:80-81 | the parent's take of np-1 units can go through if and only if every child has given its unit and quit |
| ForkJoinRuns.WorldRunKeeps | demo/timing-demo.i:50-107 | the fork/join invariant holds in every state of every run |
| ForkJoinRuns.RunUsesWork | demo/timing-demo.i:50-107 | in every run, steps made plus work left never exceed the work at the start |
| BigMatProd.ParentWaitsForAll | demo/timing-demo.i:80-107 | in every run the parent passes its take only after every child's write was accepted and its unit given |
| BigMatProd.NothingFails | demo/timing-demo.i:83-103 | in every run every child's write succeeds, every read returns the block asked for, and the parent never takes its error branch |
| BigMatProd.GatheredAll | demo/timing-demo.i:83-95 | when the parent has gathered, it has the children's blocks, in order |
| BigMatProd.SomeoneCanStep | demo/timing-demo.i:50-107 | no deadlock: in every run, until the parent has gathered, some process can step |
| BigMatProd.RunsAreBounded | demo/timing-demo.i:50-107 | no run is longer than the work at its start, so every run that goes on ends with everything gathered |
| BigMatProd.BlockOfProduct | demo/timing-demo.i:64-67 | what process i computes is block i of the whole product |
| BigMatProd.EveryRunCanFinish | demo/timing-demo.i:50-107 | every run can be continued until the parent has gathered |
| BigMatProd.Assemble | demo/timing-demo.i:64-107 | whatever the chunks that tile the rows and whatever the interleaving, the array the parent assembles is the product of the whole matrices |
| BigMatProd.Multiply | demo/timing-demo.i:7-107 | end to end, with the split for any 1 <= np <= rows: whatever the interleaving, every entry of the array returned is its row of a multiplied with its column of b, and under the inner product the sum over k of a(i, k) * b(k, j) |

## Left out

- Error texts, debug output and the listings of `shm_info`, `sem_info` and `msq_info`; of `shm_info` only the locking is modelled.
- `setaffinity`, `ftok`, `nprocs`, the fork wrapper, argument parsing, interpreter object allocation.
- The Python array conversion (`python/svipc_module.c`), which reads 64-bit dimensions as ints and frees a receive buffer still in use.
- Signals interrupting `semop`, death of a process that holds a lock, overflow of `sem_op` and SEMVMX.
- The window in which a pool or set exists but init has not finished.
- The reset branch of `svipc_sem_init` for zero slots.
- Float rounding of timeouts; waits are none, for ever or timed, and `TimedWait` counts whole nanoseconds.
- Unsynchronised access through `shm_var`; only the list bookkeeping is modelled.
- Whether a publish returns at all when counted subscribers give up first: the code may wait for ever there.
- The ping/pong demo, which depends on a pause being long enough.
- Attaching a segment that is removed but still mapped elsewhere, which Linux allows as an extension; the model follows XSI.
- Attach counts in the pool: the incompatible-write path of `svipc_shm_write` unlocks without detaching.
- Caller-supplied buffers of `svipc_shm_read`, and integer overflow of dimension products.
- A subscriber that polls, on systems without `semtimedop`, is in the model not counted by GETNCNT; its sleeping quanta are modelled in `TimedWait` alone.
- Reading the header and deciding on it is one step of the pool model, and so is a scan of the table; both happen under the lock that guards what is read.
- The forking in `bigmatprod`: all np processes exist from the start, and may be arbitrarily late.
- Plain blocking `semop` calls have no code of their own; they are steps of `Semaphores` and of the pool.
- PoolCalls.RunIsLinearizable: is about writes, reads and frees; a cleanup empties every slot, one event each, and `shm_info` has no event.
- `bigmatprod`'s own cleanup at its end; the pool's cleanup is proved for any callers.
- That Yorick's type codes equal the SVIPC codes, on which the message decoder relies.
- PoolHandshake.PublishReachesExactlyItsCount: is about one publisher at a time; when several publishers of a slot overlap their units are indistinguishable, and `PoolHandshake.PublishEndsDrained` is what holds.
- TimedWait.Semaphore.TimedOp: other processes' gives and takes are seen as their total per sleep.
- Matrix.ProductOfRows: the inner product is a parameter, so the result holds for any rounding but says nothing about it.
