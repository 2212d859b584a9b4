# A verified model of the multi-node swap store

A kernel module stores swapped-out pages in the memory of two remote machines. This project models it
from the slot allocator down to the request queues and the connection set-up, and proves what the
whole promises: a page that is loaded comes back with the contents last stored.

## The system

*The scheduler* (`dev-rdma/remote_schedule.c`) keeps, for each of two memory nodes, 128 bitmap chunks
of 16384 slots, each chunk with a cached count of its free slots, and an index from page ids to packed
(node, slot) words. A store gives back the page's old slot, takes the first free slot of the node that
the page's parity names, and overwrites the index entry. A load reads the index.

*The transport* (`dev-rdma/multiswap_rdma.c`) sends one request per page on one of 3 * numcpus queues
of a server, counts requests in `pending`, holds callers back when too many are outstanding, and polls
the completion queue until nothing is outstanding.

*The memory server* (`farmemserver/rmserver.c`) gives each incoming connection its next queue and sends
the address of its buffer over the first one.

*The front end* (`dev-rdma/multiswap.c`) joins scheduler and transport, or, in the direct mode,
addresses one big buffer by page id (`dev-rdma/multiswap_dram.c`).

## The files

| file | contents |
|---|---|
| `Layout.dfy` | sizes, constants, the packed index word |
| `Counting.dfy` | sizes of finite sets |
| `Bitmap.dfy` | chunks and nodes: first fit, counters, counting of clear bits |
| `SchedulerModel.dfy` | the allocator as functions of its state, and what one call keeps |
| `Scheduler.dfy` | the allocator with its arrays and maps changed in place, proved equal to those functions |
| `FirstStoreRank.dfy` | whole runs of stores, one at a time |
| `ConcurrentStore.dfy` | any number of stores and loads interleaved, one lock section or index access a step |
| `SerialRefinement.dfy` | a store that runs alone in the interleaved machine is one call of the serial model |
| `RequestQueues.dfy` | the request queues under concurrent callers, one atomic access a step |
| `BackPressureLimit.dfy` | runs that reach the back-pressure bounds, with and without callers that return early |
| `ConcurrentSwap.dfy` | the two concurrent machines together: allocator steps and queue steps of many pages at once |
| `Transport.dfy` | one request queue changed in place, with its device and the requests that fail |
| `SwapStore.dfy` | `sswap_store` and `sswap_load` in the scheduled mode, down to the servers' bytes |
| `DirectMode.dfy` | the direct mode over the DRAM back end |
| `SwapTrace.dfy` | whole traces of stores and loads: scheduled mode, direct mode, plain map |
| `QueueIndex.dfy` | which queue serves a CPU and a kind of request |
| `FarmServer.dfy` | the memory server's handlers and event loops |
| `Connection.dfy` | a client and a server joining their queues |

## Main results

- *The store is a map.* Over every trace of stores and loads of pages in range the scheduled two-node
  store answers like a plain map from page ids to contents (`ScheduledIsPlainMap`), and it answers like
  the direct mode exactly on the traces that load only stored pages (`ModesAgree`). `Swap.Store` and
  `Swap.Load` are the same result in place, with the bytes of both servers and every queue.
- *Slots are first-store ranks.* A page's slot is the number of distinct pages of its parity stored
  before its own first store, for ever (`FirstStoreRank`, `PlacementIsPermanent`). So every access lies
  in the lower half of `REMOTE_BUF_SIZE`, which is all the servers allocate (`HalfBuffer`), although the
  client checks only against `REMOTE_BUF_SIZE`.
- *The allocator agrees with itself.* Index and bitmaps name the same slots, counters tell the truth,
  and nothing is lost (`Inv`, `Conservation`). In such a state there is room on *every* node for every
  page, so no way of choosing nodes ever fills one (`AlwaysRoom`, `AnyNodeKeepsAgreement`). It may still
  leave the 4 GB a server allocates: `OffsetFits` gives the exact condition, and
  `OneSidedLeavesBuffer` a choice that does so with the first page past half of the swap area.
- *The fallback is dead, and would be harmful.* `sswap_scheduler_write` tries the other node when the
  first reports full. By then the old slot has been given back and the index still names it, and the
  full flag is never cleared, so the second call gives the slot back again, takes a slot and enters
  nothing. It returns offset 0 of the other node, and the store overwrites the first frame there,
  whoever owns it. In a state with bits that no index entry names this can happen:
  `SchedulerWriteExact` gives the exact condition and what is returned, and `LeakedFallsBack` two states
  that fail. `FallbackIsDead` shows that no run gets there.
- *Interleaving is safe.* Any number of stores and loads of distinct pages, interleaved at every lock
  section and index access: each set bit has one owner, settled pages never share a frame, no walk
  comes to the upper half of a node (so none reports full), every access fits the server's buffer, and
  a load reads what its page was last given. The counting argument is `FrontierOk`: below any chunk a
  walk has come to there are never more clear bits than stores still on their way there.
- *The whole is safe under concurrency.* `ConcurrentSwap` runs the allocator's steps and the queues'
  steps together. What the queues ask of their callers, one call to a frame at a time and no read before a
  write, always holds (`TransferNeverBlocked`); a store that returns has put its contents into the
  server's memory (`StoreIsThere`); a load that returns has fetched what its page was last given
  (`LoadReturnsLastStore`); no run gets stuck (`NeverStuck`).
- *Back pressure is exact.* For the callers the code has, `sswap_rdma_write` and `sswap_rdma_read_sync`,
  which always drain: `pending` never exceeds the number of callers, so it stays within the send queue
  exactly for up to 4096 callers of a queue, and the `BUG_ON` never fires exactly for up to 4097
  (`DrainingExact`, `DrainingBugOnExact`). The checks in `write_queue_add` and `read_queue_add` alone, for
  callers that may return without draining, are good for exactly nine callers of a write queue and one of
  a read queue (`BackPressureExact`, `BugOnExact`).
- *Draining means done.* When `drain_queue` finds nothing pending, every request of the queue has been
  carried out and freed once, and a read has brought back the contents of the last write begun at its
  offset. No run of the queues gets stuck while a call is in progress.
- *A request past the server's buffer fails silently.* The client checks offsets against 8 GB only and
  its completion handlers only log a failure, so such a write returns 0 with nothing stored, and such a
  read marks the page up to date with its old contents (`RdmaWrite`, `RdmaReadSync`). `HalfBuffer` and
  `AccessesFitServer` show that the scheduled mode never issues one.
- *Queues pair.* Whatever order connection events arrive in, client queue i is joined to server queue i,
  the buffer's address goes out once and only to queue 0, the server survives exactly when the client
  has at most 18 queues (3 * numcpus <= 18), and then every run ends after 4 steps a queue with all of
  them joined.

## Where code and comments differ

- The comment above `sswap_get_mapping` says it deletes a mapping; the code only reads (the erase is
  commented out, `dev-rdma/remote_schedule.c:204-213`). The model reads.
- The comment at `dev-rdma/remote_schedule.c:172` says `xa_load` overwrites the old entry; it is
  `xa_store` that does. The model overwrites.

## Model

| member | source | states |
|---|---|---|
| Layout.Geometry | dev-rdma/remote_schedule.c:265-283 | 128 chunks cover the 8 GB swap area exactly; the 4 GB server buffer is half of it |
| Layout.PackRoundTrip | dev-rdma/remote_schedule.h:18-20 | packing and unpacking an index word in 64 bits gives back node and slot exactly for node ids below 16 and slots below 2^60 |
| Layout.WordMacros | dev-rdma/remote_schedule.h:18-20 | the three macros on machine words compute the wrapping arithmetic of the model, with the same exact conditions |
| Bitmap.FirstZero | dev-rdma/remote_schedule.c:107 | the lowest zero bit, or the length when there is none |
| Bitmap.CounterTruth | dev-rdma/remote_schedule.c:104-116 | a truthful counter is zero exactly when the chunk is full, guarantees a zero bit otherwise, and stays truthful under claim and under release of a set bit |
| Bitmap.FirstFit | dev-rdma/remote_schedule.c:91-125 | the two-level walk takes the lowest clear slot of the whole node, sets that bit only, and reports full exactly when no slot is clear |
| Bitmap.ReleaseOne | dev-rdma/remote_schedule.c:148-157 | splitting the slot by quotient and remainder clears that slot's bit only and keeps the counters truthful |
| Bitmap.SlotSplit | dev-rdma/remote_schedule.c:151-152 | quotient and remainder undo the chunk offset that the slot choice adds |
| Bitmap.ClaimClears | dev-rdma/remote_schedule.c:105-112 | a claim takes one clear bit from every prefix of chunks above its own |
| Bitmap.UsedBelowCount | dev-rdma/remote_schedule.h:34-39 | taken slots and clear bits of the first chunks add up to their pages |
| SchedulerModel.InitInv | dev-rdma/remote_schedule.c:265-286 | initialisation leaves every slot clear, counters truthful and index and bitmaps in agreement |
| SchedulerModel.ReleaseOldEffect | dev-rdma/remote_schedule.c:144-159 | the release clears exactly the page's old slot |
| SchedulerModel.AddWithRoom | dev-rdma/remote_schedule.c:135-179 | with room on the chosen node the page gets the lowest clear slot, success is reported, and no other bit or entry changes; agreement of index and bitmaps is kept |
| SchedulerModel.AddWithoutRoom | dev-rdma/remote_schedule.c:144-168 | without room the old slot is given back, the entry stays, nothing is claimed and full is reported |
| SchedulerModel.AddKeepsCovered | dev-rdma/remote_schedule.c:135-179 | one call keeps every entry backed by its own bit exactly when there is room after the release or there was no entry |
| SchedulerModel.AlwaysRoom | dev-rdma/remote_schedule.c:145-168 | while index and bitmaps agree, every node has room for every page |
| SchedulerModel.AnyNodeKeepsAgreement | dev-rdma/remote_schedule.c:135-179 | the agreement is kept and success reported whatever node is chosen |
| SchedulerModel.SameNodeNeverHigher | dev-rdma/remote_schedule.c:144-178 | storing a page again on its node never raises its slot |
| SchedulerModel.MoveCounts | dev-rdma/remote_schedule.c:144-178 | moving a page gives back one slot on the old node and takes one on the new |
| SchedulerModel.OffsetFits | dev-rdma/remote_schedule.c:135-179 | under any choice of node, the offset handed out lies in the server's 4 GB exactly when the node has a clear slot in its lower half after the release |
| SchedulerModel.OneSidedLeavesBuffer | dev-rdma/remote_schedule.c:225-235 | placing every page on one node hands out offsets in order, past the server's buffer from page NR_PAGES / 2 on |
| SchedulerModel.WriteTakesLowest | dev-rdma/remote_schedule.c:236-261 | the page goes to its parity's node, to the lowest slot that is clear once its old one is given back |
| SchedulerModel.SchedulerWriteExact | dev-rdma/remote_schedule.c:236-261 | the write maps the page and keeps entries backed and counters truthful exactly when the parity's node has room after the release; otherwise it enters nothing and returns offset 0 of the other node |
| SchedulerModel.FallbackCorruptsCounter | dev-rdma/remote_schedule.c:244-258 | the fallback on a mapped page leaves a counter that does not tell the truth |
| SchedulerModel.LeakedFallsBack | dev-rdma/remote_schedule.c:244-258 | two concrete states, with bits that no entry names: one in which the fallback corrupts a counter, one in which it sends page 0 to the frame of page 1 |
| SchedulerModel.DoubleRelease | dev-rdma/remote_schedule.c:153-157 | releasing a clear slot leaves its counter one too high, and a following slot choice does not repair it |
| SchedulerModel.Conservation | dev-rdma/remote_schedule.c:105-112 | free counters of both nodes and mapped pages always add up to the slots of both nodes |
| FirstStoreRank.RunRank | dev-rdma/remote_schedule.c:236-261 | after any history the taken slots of a node are a prefix, and the k-th distinct page of a parity sits in slot k |
| FirstStoreRank.FirstStoreRank | dev-rdma/remote_schedule.c:91-178 | a page's slot is the number of distinct pages of its parity stored before its first store |
| FirstStoreRank.PlacementIsPermanent | dev-rdma/remote_schedule.c:144-178 | a stored page keeps its node and offset through every continuation |
| FirstStoreRank.FallbackIsDead | dev-rdma/remote_schedule.c:241-259 | in every run the first call has room and reports success alone |
| FirstStoreRank.HalfBuffer | farmemserver/rmserver.c:10 | every offset written to or read from, with its page, fits the server's 4 GB |
| FirstStoreRank.StorePlacement | dev-rdma/multiswap.c:91-100 | where the next store of a run goes, which index entry it changes, and that no other page has that frame |
| ConcurrentStore.WalkStaysLow | dev-rdma/remote_schedule.c:100-120 | no walk that interleaves with others comes to the upper half of a node |
| ConcurrentStore.ApplyKeeps | dev-rdma/remote_schedule.c:135-179 | every step of every call keeps ownership, counters, settled pages and the frontier count |
| ConcurrentStore.RunInv | dev-rdma/remote_schedule.c:91-261 | so every run of interleaved stores and loads has all of that |
| ConcurrentStore.NeverFull | dev-rdma/remote_schedule.c:122-124 | in every interleaving no walk reports full, and every call in progress can take its next step |
| ConcurrentStore.EveryStepProgresses | dev-rdma/multiswap.c:60-145 | each step of a call brings it nearer its end and steps of others leave it where it is |
| ConcurrentStore.FramesAreOwned | dev-rdma/remote_schedule.c:104-157 | every set bit is held by a page of its node's parity, and no two pages hold one slot |
| ConcurrentStore.SettledPagesNeverShare | dev-rdma/remote_schedule.c:173-178 | two pages that no store is moving never have the same (node, slot) |
| ConcurrentStore.TransfersApart | dev-rdma/multiswap.c:91-144 | two transfers in progress are never of the same frame |
| ConcurrentStore.AccessesFitServer | dev-rdma/multiswap_rdma.c:799-800 | every remote access of every interleaving lies in the server's buffer |
| ConcurrentStore.LoadReturnsLastStore | dev-rdma/multiswap.c:135-144 | however calls interleave, a load reads the contents of the most recent store of its page |
| SerialRefinement.WalkAlone | dev-rdma/remote_schedule.c:91-125 | a walk that runs alone ends at the first chunk with a nonzero counter |
| SerialRefinement.StoreAlone | dev-rdma/multiswap.c:91-100 | a store that runs alone ends in the allocator state of the serial model, with its page in the frame that model returns |
| Scheduler.RemoteBitmap.FindFirstZeroBit | dev-rdma/remote_schedule.c:107 | the scan finds the lowest zero bit |
| Scheduler.RemoteBitmap.ClaimFirst | dev-rdma/remote_schedule.c:104-114 | the lock section claims the lowest zero bit and lowers the counter, in place |
| Scheduler.RemoteBitmap.ReleaseBit | dev-rdma/remote_schedule.c:154-157 | the lock section clears the bit and raises the counter, in place |
| Scheduler.InitRemoteBitmap | dev-rdma/remote_schedule.c:20-40 | one clear chunk with a full counter for each 64 MB, rounded up |
| Scheduler.SelectSlotIn | dev-rdma/remote_schedule.c:91-125 | the chunk loop with its flags is the slot choice of the model |
| Scheduler.PutWordIndex | dev-rdma/remote_schedule.c:170-173 | storing a packed word enters exactly the location it packs |
| Scheduler.RemoteScheduler.constructor | dev-rdma/remote_schedule.c:265-286 | initialisation reaches the model's initial state |
| Scheduler.RemoteScheduler.ReleaseOld | dev-rdma/remote_schedule.c:144-159 | unpacks the old entry and releases its slot on its own node and chunk |
| Scheduler.RemoteScheduler.AddMapping | dev-rdma/remote_schedule.c:135-179 | the in-place call is the model's, result and flags included |
| Scheduler.RemoteScheduler.GetMapping | dev-rdma/remote_schedule.c:187-216 | node and byte offset of the entry, or the stop for a page without one; nothing changes |
| Scheduler.RemoteScheduler.SchedulerWrite | dev-rdma/remote_schedule.c:236-261 | both arms with their fallback are the model's, on every state whose entries are backed |
| QueueIndex.QueueBijection | dev-rdma/multiswap_rdma.c:876-905 | (cpu, type) to queue index is a bijection onto the 3 * numcpus queues, and get_queue_type of the index is the type |
| RequestQueues.PendingIsOutstanding | dev-rdma/multiswap_rdma.c:516-590 | pending is posted minus completed requests plus callers between counting and posting; requests are freed in order, once each |
| RequestQueues.BackPressure | dev-rdma/multiswap_rdma.c:745-795 | pending stays below the limit plus the callers, and the queues' fill is within it |
| RequestQueues.DrainedMeansDone | dev-rdma/multiswap_rdma.c:730-743 | when a drain ends every posted request has completed and the caller's own transfer has happened |
| RequestQueues.ReadReturnsLastWrite | dev-rdma/multiswap_rdma.c:851-871 | a finished read has brought back the contents of the last write begun at its offset |
| RequestQueues.SynchronousPending | dev-rdma/multiswap_rdma.c:797-871 | if every caller drains, pending never exceeds the number of callers |
| RequestQueues.RunOk | dev-rdma/multiswap_rdma.c:516-871 | every step of callers, pollers and device keeps the accounting, the logs and the effects |
| RequestQueues.NeverStuck | dev-rdma/multiswap_rdma.c:713-795 | in every run with a call in progress, a caller, a poller or the device can take a step on its queue |
| BackPressureLimit.BoundIsReached | dev-rdma/multiswap_rdma.c:745-795 | with any number of callers that may return without draining, some run brings pending to one less than the limit plus the callers |
| BackPressureLimit.BackPressureExact | dev-rdma/multiswap_rdma.c:754-755 | for callers that may return without draining, pending stays within the send queue in every run exactly for up to nine callers of a write queue and one of a read queue |
| BackPressureLimit.BugOnExact | dev-rdma/multiswap_rdma.c:781-782 | for such callers, none ever finds more requests pending than the send queue holds exactly for the same numbers |
| BackPressureLimit.DrainingExact | dev-rdma/multiswap_rdma.c:797-871 | for the code's own callers, which drain, pending stays within the send queue in every run exactly for up to QP_MAX_SEND_WR callers |
| BackPressureLimit.DrainingBugOnExact | dev-rdma/multiswap_rdma.c:754-782 | and the BUG_ON never fires exactly for one caller more |
| ConcurrentSwap.TransferNeverBlocked | dev-rdma/multiswap.c:91-144 | with allocator and queues interleaved, a transfer can begin whenever its queue takes another caller: its frame is never in use, and a load's frame has been written |
| ConcurrentSwap.StoreIsThere | dev-rdma/multiswap_rdma.c:797-815 | a store whose transfer returns has its contents in its frame of the server's memory |
| ConcurrentSwap.LoadReturnsLastStore | dev-rdma/multiswap.c:60-145 | a load whose transfer returns has fetched the contents of the most recent store of its page, however lock sections, index accesses, posts, completions and device steps interleave |
| ConcurrentSwap.NeverStuck | dev-rdma/multiswap.c:60-145 | while a store or load is in progress, some step other than a new call is possible |
| ConcurrentSwap.QueuesStaySmall | dev-rdma/multiswap_rdma.c:745-871 | pending never exceeds a queue's callers, and every request's page lies in the server's buffer |
| ConcurrentSwap.RunOk | dev-rdma/multiswap.c:60-145 | allocator, queues and the link between pages, calls and frames hold in every run of the whole |
| Transport.PutPageAt | dev-rdma/multiswap_rdma.c:558-590 | a page written to the buffer is there, and every range apart from it is unchanged |
| Transport.PostedLast | dev-rdma/multiswap_rdma.c:558-590 | a request posted last takes effect after everything outstanding |
| Transport.RdmaQueue.ProcessCqDirect | dev-rdma/multiswap_rdma.c:516-556 | completion callbacks lower pending by the number handled and unlock the pages read |
| Transport.RdmaQueue.PollTarget | dev-rdma/multiswap_rdma.c:713-727 | terminates; returns exactly the drop in pending, at most the target, and less only when nothing is pending |
| Transport.RdmaQueue.DrainQueue | dev-rdma/multiswap_rdma.c:730-743 | terminates; everything posted has been carried out and completed, and an awaited page is up to date and unlocked |
| Transport.RdmaQueue.PostRdma | dev-rdma/multiswap_rdma.c:558-590 | pending is raised in any case; the request is queued last exactly when the send queue has room, and otherwise the post fails |
| Transport.RdmaQueue.WriteQueueAdd | dev-rdma/multiswap_rdma.c:745-769 | terminates without BUG_ON; the post succeeds, pending is at most the limit afterwards and the write will follow everything posted before, or fail outside the buffer |
| Transport.RdmaQueue.ReadQueueAdd | dev-rdma/multiswap_rdma.c:771-795 | the same for a read, which will bring what the memory holds after everything posted before, or fail outside the buffer |
| SwapStore.MemoryServer.RdmaWrite | dev-rdma/multiswap_rdma.c:797-815 | offsets past REMOTE_BUF_SIZE are refused; otherwise the result is 0, and the page is in its range of the buffer on return exactly when that range is in the server's buffer and no earlier request of its queue has failed |
| SwapStore.MemoryServer.RdmaReadSync | dev-rdma/multiswap_rdma.c:851-871 | offsets past REMOTE_BUF_SIZE are refused; otherwise the page is marked up to date and unlocked, and holds the range exactly under the same condition |
| SwapStore.HoldsAfterStore | dev-rdma/multiswap.c:91-100 | writing a page into its own frame keeps every other stored page's contents |
| SwapStore.FaithfulAfterStore | dev-rdma/multiswap.c:91-100 | scheduler write then remote write lead a state that stands for a map of contents to one that stands for the updated map |
| SwapStore.Swap.Store | dev-rdma/multiswap.c:60-100 | the store succeeds, the page's contents are the given ones, and no other page changes |
| SwapStore.Swap.Load | dev-rdma/multiswap.c:104-144 | a stored page comes back with its last contents; a page never stored stops; nothing stored changes |
| SwapStore.Boot | dev-rdma/multiswap_rdma.c:953-1016 | initialising scheduler and servers gives an empty store |
| DirectMode.DramBackend.Write | dev-rdma/multiswap_dram.c:26-36 | refuses offsets past the buffer, otherwise writes exactly the range at the offset, on a page boundary or not |
| DirectMode.DramBackend.ReadSync | dev-rdma/multiswap_dram.c:40-57 | refuses offsets past the buffer, otherwise reads that range |
| DirectMode.DramBackend.Store | dev-rdma/multiswap.c:67-73 | the page's own range has its contents afterwards and every other page's range is unchanged |
| DirectMode.DramBackend.Load | dev-rdma/multiswap.c:110-116 | the page's own range is read |
| SwapTrace.ScheduledIsPlainMap | dev-rdma/multiswap.c:91-144 | over every trace the scheduled mode answers like a map from page ids to contents |
| SwapTrace.DirectMatchesPlain | dev-rdma/multiswap.c:67-116 | the direct mode answers like that map exactly when each load is of a page stored before and no page id is past the swap area |
| SwapTrace.ModesAgree | dev-rdma/multiswap.c:60-145 | scheduled and direct mode answer alike exactly on those traces |
| FarmServer.HandleAllNext | farmemserver/rmserver.c:81-107 | handling events one by one is handling the sequence |
| FarmServer.StoppedStays | farmemserver/rmserver.c:100-113 | a server that has ended ignores what follows |
| FarmServer.RemoteMemoryServer.AcceptRequest | farmemserver/rmserver.c:196-236 | the next queue is given to the connection, in place, with the two ways the handler can fail |
| FarmServer.RemoteMemoryServer.Connect | farmemserver/rmserver.c:238-272 | the queue is connected, and queue 0 sends the buffer's address to its peer |
| FarmServer.RemoteMemoryServer.Dispatch | farmemserver/rmserver.c:287-304 | each event goes to its handler and its result says whether the loop ends |
| FarmServer.RemoteMemoryServer.Serve | farmemserver/rmserver.c:81-107 | the nested accept loops and the last loop, over any event sequence, reach the state of the event-by-event specification |
| Connection.ApplyKeeps | dev-rdma/multiswap_rdma.c:338-420 | every step of client, server or network keeps what both sides have agreed on |
| Connection.QueuesPair | farmemserver/rmserver.c:196-272 | in every run client queue i is joined to server queue i only, no TEST_Z fails, and the buffer's address is sent at most once, to queue 0; a server stopped by one connection too many still has its 18 queues so |
| Connection.ServerSurvives | farmemserver/rmserver.c:201-203 | the server survives every run exactly when the client has at most NUM_QUEUES queues |
| Connection.RunsComplete | dev-rdma/multiswap_rdma.c:400-420 | with that many every run has at most 4 steps a queue, and it cannot go on exactly when all queues are joined in one and the same final state |
| Connection.ServerRunsLoops | farmemserver/rmserver.c:81-107 | the server of a run is where its event loops lead on the events the run delivers |

## Left out

- `USESWAP`, `FINE_GRAINED` and `COARSE_GRAINED` modes: fixed functions of the page id.
- Page ids outside the swap area: the index into `remote_spaces` needs them in range, and `dev-rdma/multiswap_rdma.c:8` says the swap file is no larger than the remote buffer.
- xarray and `find_first_zero_bit` internals: the index is a map and the bit search a proved loop.
- Kernel allocation failures: requests and completions can always be allocated.
- Failed requests: `Transport` and `SwapStore` model requests outside the server's buffer and posts on a full send queue; `RequestQueues` and `ConcurrentSwap` have neither, because `QueuesStaySmall` shows that the store issues neither with up to 4096 callers of a queue.
- `VM_BUG_ON`: a load without an index entry is modelled as stopping there; on kernels built without it the code would go on with an undefined entry. A failing index write is not a step; `Covered` describes the states it would leave.
- The index word: its arithmetic is on naturals with 64-bit wrap-around, and `WordMacros` proves the same of the shifts and masks on machine words; a conversion between the two number types is not part of the model.
- Locks of the serial classes: they guard nothing there; `ConcurrentStore` makes each lock section one step instead.
- `Swap` holds one call at a time: overlapping calls are the subject of `ConcurrentSwap`, whose memories are maps from offsets to pages.
- `SwapTrace` keeps frames as a map from locations to contents; the bytes are in `SwapStore` and `DirectMode`.
- ConcurrentStore.LoadReturnsLastStore: only pages with a completed store are loaded and calls in progress are of distinct pages, because the swap cache locks a page and asks only for stored ones.
- RequestQueues.ReadReturnsLastWrite: a call begins only when no other call or request uses its offset, and a read only at an offset some write has reached; `ConcurrentSwap.TransferNeverBlocked` proves both of the store's own transfers.
- `BUG_ON` in the queues: not a step of `RequestQueues`; `DrainingBugOnExact` and `BugOnExact` say when a caller can meet it.
- SwapStore.Boot: sets up allocator, servers and queues, and leaves out connecting them, which is the subject of `Connection`, and the message with the buffer's address.
- DirectMode.DramBackend.Write: an offset within a page of the buffer's end, where the copy would run past it, is excluded; page ids never give one.
- DirectMode.DramBackend.ReadSync: the same offsets are excluded.
- The device: it takes each queue's requests in order, at least one whenever there is something outstanding and nothing to collect. A request outside the registered buffer fails, and the queue then fails all later ones, as reliable connections do.
- RDMA verbs, DMA mapping, memory registration, address and route resolution, connection timeouts and rejections: calls into libraries.
- Transfers on asynchronous read queues: no caller uses them.
- How the server's accept loops wait when events arrive early: the loops are modelled, and `QueuesPair` says only that a queue they have passed is connected.
- Receiving the buffer's address on the client side, and removing the module.
- `User/`, `test/` and `switch/`: demonstrations, benchmarks and configuration.
