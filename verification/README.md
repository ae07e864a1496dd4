# A verified model of the gateway's queue and runtime

This project models, in Dafny, the parts of the gateway in which many threads or many
partial reads and writes meet, and proves what they promise.

The lock-free queue behind `HPGateway/src/base/LockFreeQueue.h`:

- `FreeList` - the reference-counted free list of blocks.
- `DequeueCounters` - the optimistic dequeue counters of a producer.
- `ReadHistory` - which indices the consumers have read, in terms of the counters alone.
- `ExplicitProducer`, `ExplicitProducerProof`, `ExplicitHistory`, `ExplicitCalls` - the ring of
  blocks and circular block index of a producer with a token.
- `ImplicitProducer`, `ImplicitProducerProof`, `ImplicitProducerSteps`, `ImplicitProducerRuns`,
  `ImplicitHistory`, `ImplicitCalls` - the block index with shared entries, the release of blocks
  and the undo of failed enqueues, of a producer without one.
- `EmptyClaims` - what a bulk dequeue of zero elements does to that producer.
- `Circular`, `BulkEnqueue` - index arithmetic on machine words, and the loops of a bulk enqueue.
- `Semaphore`, `BlockingQueue` - the lightweight semaphore and the queue built on it.

The gateway's own runtime:

- `EventLoop` - pending functors, wakeup and quit.
- `RingBuffer`, `Codec`, `TcpConnection` - bytes from the socket to packets and back.
- `ThreadPool` - the draining pool of `gateway/common`.
- `Notice` - three-copy publishing with de-duplication in the client.

`Blocks` holds what both kinds of producer share; `Totals` and `Modular` hold sums over threads
and remainders.

Concurrent components are step relations: an atomic access, or a critical section under a
mutex, is one step of one thread, and an execution is any interleaving of steps of any
number of threads. Main results are about every state of every execution; beside what is always
safe they say what each call achieves, why it may fail, and that it can go on. Objects that one
thread updates in place are classes whose methods are proved against functions on values, or,
for a connection, against runs of its events.

Where properties fail, the failing run is given and the exact condition proved: the receive
loop and a header of length zero (`Codec.LoopEnds`), encoding beyond 65524 bytes
(`Codec.RoundTrip`), shutdown after a close with pending output
(`TcpConnection.ShutdownAfterFlush`), a Quit before `Loop` clears the flag (`EventLoop.QuitHonoured`),
a pool without workers (`ThreadPool.DrainsIffWorkers`), overlapping calls of Shutdown
(`ThreadPool.DrainedIffOneAtATime`), a bulk dequeue of zero elements (`EmptyClaims.SafeIffAsking`),
interleaved publishers (`Notice.NoRepeatsIffGrouped`). The comment at
`HPGateway/src/base/RingBuffer.h:5` calls the buffer circular; the code never wraps around, and
the model follows the code.

`dafny verify dfyconfig.toml` checks the whole project.

## Model

| member | source | states |
|---|---|---|
| FreeList.StepKeeps | thirdparty/concurrentqueue/concurrentqueue.h:1481-1560 | every atomic step of add, try_get and add_knowing_refcount_is_zero keeps the ownership and reference-count invariant, for any number of threads |
| FreeList.AlwaysSafe | thirdparty/concurrentqueue/concurrentqueue.h:1481-1560 | in every state of every interleaving the list is a chain without repeats, a node's low 31 bits are the list's reference plus those the threads account for, no node is owned twice or owned and listed, a marked node at count zero has exactly one inserting thread and a marked node still referenced has none, and no node is lost |
| FreeList.HeadExchangeSound | thirdparty/concurrentqueue/concurrentqueue.h:1495-1531 | no ABA: when the head exchange of try_get succeeds, the successor read earlier is still the node's successor, the node is unmarked and unowned, and exactly that node leaves the list |
| FreeList.LinkStable | thirdparty/concurrentqueue/concurrentqueue.h:1495-1560 | a node's link never changes while a try_get holds a reference to the node |
| FreeList.QuiescentNoLoss | thirdparty/concurrentqueue/concurrentqueue.h:1481-1560 | with no call in progress every node is with exactly one client or on the list exactly once, with reference word 0 or 1 accordingly: a deferred add is neither dropped nor done twice |
| FreeList.AloneGets | thirdparty/concurrentqueue/concurrentqueue.h:1495-1531 | in any reachable state with no call in progress, a try_get by itself takes the first node off the list, gives it to its caller with no reference left and keeps the rest of the list, and comes back with nothing exactly when the list is empty |
| FreeList.AloneAdds | thirdparty/concurrentqueue/concurrentqueue.h:1481-1493 | in any reachable state with no call in progress, an add by itself puts the caller's node in front of the list with one reference |
| FreeList.NothingOnlyWhenEmpty | thirdparty/concurrentqueue/concurrentqueue.h:1499-1531 | in any interleaving a try_get ends by giving its caller a node, or the list was empty at some state of the call |
| FreeList.CanStep | thirdparty/concurrentqueue/concurrentqueue.h:1481-1560 | no thread is ever stuck: in every reachable state its next step is possible, whatever the others do |
| DequeueCounters.StepKeeps | thirdparty/concurrentqueue/concurrentqueue.h:2270-2291 | every atomic step of the optimistic dequeue keeps the ticket log invariant, with any mix of single and bulk dequeues in flight; a call that asks for no elements passes both tests when there are some, and then claims nothing |
| DequeueCounters.GrantsCovered | thirdparty/concurrentqueue/concurrentqueue.h:1985-2020 | whatever stale counts the tickets were tested against, all grants together stay below the tail |
| DequeueCounters.AlwaysSafe | thirdparty/concurrentqueue/concurrentqueue.h:1977-2074 | in every reachable state indices granted or promised never pass the tail, the granted ranges tile 0 to the head, over-claims are accounted for exactly, and two consumers never read the same index |
| DequeueCounters.TiledOnce | thirdparty/concurrentqueue/concurrentqueue.h:2024-2026 | ranges handed out by fetch_add name every index below the head exactly once |
| DequeueCounters.ExactlyOneConsumer | thirdparty/concurrentqueue/concurrentqueue.h:2270-2291 | every index below the head has been published and belongs to exactly one consumer |
| DequeueCounters.QuiescentTestExact | thirdparty/concurrentqueue/concurrentqueue.h:1977-1990 | with no dequeue between its tests, the optimistic test succeeds if and only if the queue is not empty |
| DequeueCounters.AloneDequeues | thirdparty/concurrentqueue/concurrentqueue.h:2270-2291 | in any reachable state, a dequeue with no other in flight passes its test if and only if there is an element, and then takes the oldest, as many as asked for or as there are; otherwise it changes nothing |
| DequeueCounters.ReadyDequeues | thirdparty/concurrentqueue/concurrentqueue.h:2278-2356 | a dequeue that passed its first test, however many elements were taken since, gets what it asked for or what is left, repays to the overcommit count exactly what it does not get, and gives up only if nothing is left |
| DequeueCounters.NoneEmptyKeeps | thirdparty/concurrentqueue/concurrentqueue.h:2802-2823 | while every call asks for at least one element, no claim on the head is empty |
| ExplicitProducer.CopyEntries | thirdparty/concurrentqueue/concurrentqueue.h:2394-2400 | the copying loop unrolls the used part of the circular index in order, oldest entry first, into the front of the larger one |
| ExplicitProducerProof.LookupFinds | thirdparty/concurrentqueue/concurrentqueue.h:2030-2040 | from any entry congruent to its slot, however stale, the signed offset leads to the slot of the wanted block |
| ExplicitProducerProof.NextKeeps | thirdparty/concurrentqueue/concurrentqueue.h:1870-1974 | every producer and consumer step, the scan and the reset of a block's flags one flag at a time, keeps the invariant relating ring, block index copies, emptiness flags and readers |
| ExplicitProducerProof.LookupSound | thirdparty/concurrentqueue/concurrentqueue.h:2030-2062 | in every reachable state, through block reuse, new blocks and index doublings, the slot a consumer computed for a claimed, unfinished index holds the block based at that index rounded down, the element there is the one enqueued, and no emptiness flag is set twice; the lookup of an empty claim stays in range |
| ExplicitProducerProof.ReadsWhatWasEnqueued | thirdparty/concurrentqueue/concurrentqueue.h:2294-2349 | every value read for an index is the value enqueued at it (for what that is see `ExplicitCalls.EnqueuePublishes`), and exactly one consumer was granted that index |
| ExplicitHistory.NothingSkipped | thirdparty/concurrentqueue/concurrentqueue.h:2294-2349 | in every reachable state an index below the head has been read with its enqueued value or lies ahead in the claim of a consumer still reading, only read elements count as finished, and with nobody reading the indices read are exactly those below the head |
| ExplicitProducerProof.ReuseOnlyFinished | thirdparty/concurrentqueue/concurrentqueue.h:1874-1887 | when the flag scan of the block ahead has succeeded, that block is the one the newest index names for position p, and all 32 of its elements, and all before them, have been taken out |
| ExplicitProducerProof.ProducerInRange | thirdparty/concurrentqueue/concurrentqueue.h:1888-1974 | the producer's accesses to the index and to the tail block are always in range, and the slots used never exceed the size |
| ExplicitCalls.EnqueuePublishes | thirdparty/concurrentqueue/concurrentqueue.h:1870-1974 | in any interleaving, an enqueue that has come back has published exactly the caller's value after those before it, or nothing because its last step found no memory or no block |
| ExplicitCalls.OnlyEnqueuePublishes | thirdparty/concurrentqueue/concurrentqueue.h:1870-1974 | between calls nothing is published |
| ExplicitCalls.EnqueueEnds | thirdparty/concurrentqueue/concurrentqueue.h:1870-1974 | every step of an enqueue decreases a measure of at most 76, so it ends within that many of its own steps |
| ExplicitCalls.EnqueueGoesOn | thirdparty/concurrentqueue/concurrentqueue.h:1888-1974 | in every reachable state an enqueue in progress has a next step, and one that does not fail while there is a block to be had |
| ExplicitCalls.ScanExact | thirdparty/concurrentqueue/concurrentqueue.h:1874-1887 | on a block boundary the block ahead is scanned, and the scan passes a flag if and only if that flag's element has been taken out: the block is reused if and only if all its elements have |
| ExplicitCalls.DequeueBounded | thirdparty/concurrentqueue/concurrentqueue.h:2294-2349 | a consumer that has claimed n indices always has a next step, whatever the others do, and at most 6n + 9 of them left |
| ExplicitCalls.DequeueNearer | thirdparty/concurrentqueue/concurrentqueue.h:2294-2349 | each of its own steps lowers that number, or ends the dequeue |
| ImplicitProducer.CopyPointers | thirdparty/concurrentqueue/concurrentqueue.h:3004-3013 | the copying loop of new_block_index goes once round the circle of entry pointers starting after the tail |
| ImplicitProducerRuns.NextKeeps | thirdparty/concurrentqueue/concurrentqueue.h:2508-2986 | every step of enqueue and enqueue_bulk, of the undoing of a failed one, and of consumers that asked for at least one element keeps the invariant relating entries, index copies, blocks, finished elements and readers |
| ImplicitProducerRuns.LookupSound | thirdparty/concurrentqueue/concurrentqueue.h:2963-2986 | in every reachable state, across insertion, the undo of a failed enqueue of any number of elements, growth and blocks completing out of order, the lookup of a claimed, unfinished index finds the right key and a non-null block still in use, and the element there is the one enqueued, in runs in which every dequeue asks for at least one element |
| ImplicitProducerRuns.ReadsWhatWasEnqueued | thirdparty/concurrentqueue/concurrentqueue.h:2573-2641 | every value read for an index is the value enqueued at it (for what that is see `ImplicitCalls.EnqueuePublishes`), and exactly one consumer was granted that index, in runs in which every dequeue asks for at least one element |
| ImplicitHistory.NothingSkipped | thirdparty/concurrentqueue/concurrentqueue.h:2801-2901 | the same completeness for the producer without a token: nothing below the head is skipped, through blocks finished out of order and given back, in runs in which every dequeue asks for at least one element |
| EmptyClaims.SafeIffAsking | thirdparty/concurrentqueue/concurrentqueue.h:2802-2891 | in all runs whose dequeues ask for at least a given number of elements, no block is given back twice and every lookup finds its block, if and only if that number is positive |
| EmptyClaims.GivenBackTwice | thirdparty/concurrentqueue/concurrentqueue.h:1635-1656 | a run in which a bulk dequeue of zero elements counts zero on a completed block and gives it back a second time |
| EmptyClaims.NullFound | thirdparty/concurrentqueue/concurrentqueue.h:2834-2837 | a run in which the lookup of an empty claim finds its entry cleared |
| ImplicitProducerRuns.ReleasedOnce | thirdparty/concurrentqueue/concurrentqueue.h:2801-2901 | a block is given back at most once, and all its 32 elements have been taken out if and only if it has been given back or exactly one consumer is about to give it back, in runs in which every dequeue asks for at least one element |
| ImplicitProducerRuns.LastFinisherReleases | thirdparty/concurrentqueue/concurrentqueue.h:1638-1656 | the counter test sends a consumer to give the block back if and only if its elements complete the block, in runs in which every dequeue asks for at least one element |
| ImplicitProducerRuns.ProducerInRange | thirdparty/concurrentqueue/concurrentqueue.h:2648-2795 | the producer's accesses are in range, it writes only to blocks in use, the entry it is about to key shows no block, and the blocks that an undo gives back are its own |
| ImplicitProducerRuns.AlwaysFound | thirdparty/concurrentqueue/concurrentqueue.h:2684-2700 | before, during and after every enqueue, in particular while a failed bulk enqueue moves the index tail back and clears entries, a lookup begun from the index tail leads to the block and the element of every index published and not taken out |
| ImplicitProducerRuns.UndoClearsItsOwn | thirdparty/concurrentqueue/concurrentqueue.h:2691-2696 | the undo, looking entries up in order while the tail moves the other way, clears exactly the entries that the failed enqueue filled: each still has its key and its block, as the source asserts |
| ImplicitProducerRuns.UndoRestoresTail | thirdparty/concurrentqueue/concurrentqueue.h:2691-2700 | after the undo the index tail is back at the entry of the last published block |
| ImplicitProducerRuns.BlocksConserved | thirdparty/concurrentqueue/concurrentqueue.h:2697-2698 | in every state the blocks held are those of positions not given back, of the enqueue in progress and the one about to be stored; with no enqueue in progress none is left over from a failed one |
| ImplicitProducerRuns.GrownEntryUnused | thirdparty/concurrentqueue/concurrentqueue.h:2945-2952 | after growing the index the next entry has never been used, which the source asserts |
| ImplicitCalls.EnqueuePublishes | thirdparty/concurrentqueue/concurrentqueue.h:2648-2795 | in any interleaving, an enqueue or enqueue_bulk that has come back has published exactly the caller's elements, in order, after those before it, or nothing, and then some step of the call found no index, no memory, no block or a throwing constructor |
| ImplicitCalls.OnlyEnqueuePublishes | thirdparty/concurrentqueue/concurrentqueue.h:2648-2795 | between calls nothing is published |
| ImplicitCalls.EnqueueEnds | thirdparty/concurrentqueue/concurrentqueue.h:2648-2795 | every step of an enqueue and of its undo decreases a measure that stays non-negative, so it ends after finitely many of its own steps, in runs in which every dequeue asks for at least one element |
| ImplicitCalls.EnqueueGoesOn | thirdparty/concurrentqueue/concurrentqueue.h:2664-2760 | in every reachable state an enqueue in progress has a next step, and, once there is an index, one that is not refused while there is a block to be had, in runs in which every dequeue asks for at least one element |
| ImplicitCalls.DequeueBounded | thirdparty/concurrentqueue/concurrentqueue.h:2802-2891 | a consumer that has claimed n indices always has a next step, whatever the others do, and at most 9n + 3 of them left, in runs in which every dequeue asks for at least one element |
| ImplicitCalls.DequeueNearer | thirdparty/concurrentqueue/concurrentqueue.h:2802-2891 | each of its own steps lowers that number, or ends the dequeue, in runs in which every dequeue asks for at least one element |
| Circular.CircularLessExact | thirdparty/concurrentqueue/concurrentqueue.h:489-496 | for counters less than a cycle apart, circular_less_than on the wrapped words agrees with < if and only if the distance is more than minus half a cycle and at most half a cycle |
| Circular.WrapBase | thirdparty/concurrentqueue/concurrentqueue.h:2037-2037 | clearing the low bits of a wrapped index gives the wrapped block base |
| Circular.SlotAgrees | thirdparty/concurrentqueue/concurrentqueue.h:2975-2985 | for every index and tail base, at any distance and across any wrap, word subtraction, signed division, cast and mask select the slot of unbounded arithmetic |
| BulkEnqueue.AlignedIs | thirdparty/concurrentqueue/concurrentqueue.h:2090-2091 | the number of block starts among consecutive indices is a difference of quotients, also from index zero |
| BulkEnqueue.BlocksNeeded | thirdparty/concurrentqueue/concurrentqueue.h:2090-2091 | blockBaseDiff, computed on words, is the block size times the number of block-aligned indices of the new elements, including start zero and wrap-around |
| BulkEnqueue.AllocateBlocks | thirdparty/concurrentqueue/concurrentqueue.h:2664-2720 | the counting loop on words succeeds if and only if as many blocks can be had as block-aligned indices begin among the new elements, takes exactly those, and gives each the wrapped base of its position, also from index zero |
| BulkEnqueue.AlignedIndex | thirdparty/concurrentqueue/concurrentqueue.h:2664-2674 | the bases so counted are indices of new elements that begin a block |
| BulkEnqueue.FillBlock | thirdparty/concurrentqueue/concurrentqueue.h:2194-2201 | the inner loop puts each element up to the stop index at its offset and leaves the rest of the block alone |
| BulkEnqueue.FillBlocks | thirdparty/concurrentqueue/concurrentqueue.h:2184-2258 | the fill loop ends at endBlock exactly when all elements are placed, every element is at its index in its block, and no other cell of any block changes |
| BulkEnqueue.ChainFits | thirdparty/concurrentqueue/concurrentqueue.h:2665-2733 | the allocated blocks are exactly those the elements need: each begins with a new element and the last holds the rest |
| Semaphore.AlwaysBalanced | thirdparty/concurrentqueue/lightweightsemaphore.h:290-360 | in every state of every run, waiters = max(0, -count) + kernel count + posts owed, and initial + signalled - granted = count + waiters |
| Semaphore.NeverOvergrants | thirdparty/concurrentqueue/lightweightsemaphore.h:369-430 | permits granted never exceed initial plus signalled |
| Semaphore.TimedOutCollects | thirdparty/concurrentqueue/lightweightsemaphore.h:316-323 | a timed-out waiter that sees a non-negative count has a post to collect, and so has every other waiter |
| Semaphore.NoLostWakeup | thirdparty/concurrentqueue/lightweightsemaphore.h:421-430 | a thread waits with an empty kernel and nobody posting only when every permit has been granted |
| Semaphore.ReleaseFits | thirdparty/concurrentqueue/lightweightsemaphore.h:424-428 | the number of posts cast to int is at most the number of threads |
| Semaphore.ReturnsEnough | thirdparty/concurrentqueue/lightweightsemaphore.h:326-360 | a call returns at most what it asked for, and a blocking call that did not put its decrement back at least one permit |
| Semaphore.QuiescentCount | thirdparty/concurrentqueue/lightweightsemaphore.h:391-430 | with no call in progress the kernel count is zero and the count is exactly what has not been taken |
| Semaphore.ShortOnlyWhenNone | thirdparty/concurrentqueue/lightweightsemaphore.h:369-419 | in any interleaving a call, waiting or not, single or bulk, comes back with fewer permits than it asked for only if the count was zero or less at some state of the call |
| Semaphore.ExchangeTakes | thirdparty/concurrentqueue/lightweightsemaphore.h:393-404 | a successful exchange takes what the call still wants or all there is, and exactly that leaves the count |
| Semaphore.CanStep | thirdparty/concurrentqueue/lightweightsemaphore.h:290-360 | no thread is ever stuck, one for which there is a permit can take it, a timed-out waiter can take back its unsettled decrement and return, and a spinning one can look again or stop spinning |
| BlockingQueue.ItemsAccounted | thirdparty/concurrentqueue/blockingconcurrentqueue.h:123-130 | in every state of every execution the items in the inner queue are the semaphore's balance plus those not yet signalled plus permits held or not redeemed, and items enqueued are those inside plus those handed out |
| BlockingQueue.NeverSpinsOnEmpty | thirdparty/concurrentqueue/blockingconcurrentqueue.h:298-340 | while a thread is in a dequeue loop the inner queue holds at least what that thread and all others still have to redeem |
| BlockingQueue.QuiescentSize | thirdparty/concurrentqueue/blockingconcurrentqueue.h:298-340 | with no call in progress the semaphore counts exactly the queued items |
| BlockingQueue.BlockedMeansSpokenFor | thirdparty/concurrentqueue/blockingconcurrentqueue.h:365-373 | whatever the other threads do, when one waits with an empty kernel and nobody posting, every item in the queue is not yet signalled or belongs to a permit already granted |
| BlockingQueue.BlockedOnlyWhenEmpty | thirdparty/concurrentqueue/blockingconcurrentqueue.h:365-373 | when consumers only wait, with an empty kernel and no enqueue in progress, the queue is empty |
| BlockingQueue.EnqueueAdds | thirdparty/concurrentqueue/blockingconcurrentqueue.h:123-130 | in any interleaving a successful enqueue adds exactly its caller's items to the inner queue |
| BlockingQueue.ShortOnlyWhenSpokenFor | thirdparty/concurrentqueue/blockingconcurrentqueue.h:298-373 | a dequeue takes fewer permits than it asked for only if at some state of the call every item inside was not yet signalled, on its way to a waiter, or belonged to a permit already granted |
| BlockingQueue.CanFinish | thirdparty/concurrentqueue/blockingconcurrentqueue.h:298-373 | a thread in a dequeue loop can always take all it still has to redeem, and an enqueue in progress can always go through |
| EventLoop.NoLostWakeup | HPGateway/src/net/EventLoop.cpp:142-159 | a loop in poll with pending functors, or asked to quit, has a readable wakeup descriptor or a thread about to write it, also when the eventfd is saturated |
| EventLoop.RunsInOrder | HPGateway/src/net/EventLoop.cpp:169-182 | executed, current batch and pending functors together are the queued ones in push order, so each runs at most once and in order |
| EventLoop.BatchRunsBeforePoll | HPGateway/src/net/EventLoop.cpp:100-125 | outside the functor phase everything swapped out has been run |
| EventLoop.RunsWhatWasQueued | HPGateway/src/net/EventLoop.cpp:142-182 | in any run, the functor that runs in a call's turn is the one handed to QueueInLoop, and until then it is in the current batch or pending |
| EventLoop.RunsInNextRound | HPGateway/src/net/EventLoop.cpp:169-182 | a functor queued before the loop swaps the pending ones out has run when that batch is done |
| EventLoop.WakeupIsRead | HPGateway/src/net/EventLoop.cpp:161-167 | a wakeup that the poll found has been read, and the descriptor reset, before the functors are swapped out |
| EventLoop.QuitHonoured | HPGateway/src/net/EventLoop.cpp:127-132 | after a Quit, with no other Quit before a loop test, that test stops the loop if and only if the Quit came when Loop had already cleared the flag |
| EventLoop.QuitPersists | HPGateway/src/net/EventLoop.cpp:100-132 | such a Quit stays in force in every later state |
| EventLoop.NeverPollsAgain | HPGateway/src/net/EventLoop.cpp:100-132 | after such a Quit the loop never enters poll again, and if it is in poll it is or is about to be woken |
| EventLoop.EarlyQuitLost | HPGateway/src/net/EventLoop.cpp:100-106 | a Quit made before Loop clears the flag is lost: a run in which the loop polls all the same |
| RingBuffer.RingBuffer.constructor | HPGateway/src/base/RingBuffer.h:24-27 | an empty buffer of the given size |
| RingBuffer.RingBuffer.Retrieve | HPGateway/src/base/RingBuffer.h:45-63 | drops the first bytes of the contents, resetting the indices when nothing is left |
| RingBuffer.RingBuffer.RetrieveAsString | HPGateway/src/base/RingBuffer.h:65-74 | splits the contents into the bytes returned and those kept |
| RingBuffer.RingBuffer.Append | HPGateway/src/base/RingBuffer.h:76-80 | adds the data at the end of the contents, in the old vector if and only if there is room behind, or enough in front and behind together |
| RingBuffer.RingBuffer.EnsureWritableBytes | HPGateway/src/base/RingBuffer.h:86-91 | leaves the requested room without changing the contents, and allocates only when moving the contents down would not do |
| RingBuffer.RingBuffer.Unwrite | HPGateway/src/base/RingBuffer.h:106-109 | takes bytes off the end of the contents |
| RingBuffer.RingBuffer.Prepend | HPGateway/src/base/RingBuffer.h:111-116 | adds the data in front of the contents |
| RingBuffer.RingBuffer.Shrink | HPGateway/src/base/RingBuffer.h:118-125 | keeps the contents in a vector of the given size |
| RingBuffer.RingBuffer.MakeSpace | HPGateway/src/base/RingBuffer.h:140-151 | both branches leave the requested room and the contents; the vector is kept if and only if the room in front and behind suffices with 8 bytes to spare, and otherwise grows to exactly what is needed; the moving branch is reached only with the read index above 8 |
| RingBuffer.RingBuffer.MoveDown | HPGateway/src/base/RingBuffer.h:144-147 | the forward overlapping copy moves the contents intact |
| RingBuffer.RingBuffer.ReadFd | HPGateway/src/net/Buffer.cpp:18-38 | whatever the scatter read delivers is added to the contents, overflow included, and an error changes nothing |
| Codec.HeaderRoundTrip | HPGateway/src/protocol/Packet.h:22-29 | reading back the packed header yields it, whatever follows |
| Codec.HeaderLayout | HPGateway/src/protocol/Packet.h:22-29 | the packed header is twelve bytes, little-endian: length at 0, command at 4, flag at 6, sequence number at 8 |
| Codec.ParseMeans | HPGateway/src/protocol/Codec.cpp:19-46 | parsing cuts every byte string into packets end to end, each as long as its length field says, with the header fields and body at their offsets, and stops where a header or packet is incomplete, longer than 65536, or of length zero |
| Codec.OnMessage | HPGateway/src/protocol/Codec.cpp:19-46 | on bytes without a zero-length header the receive loop delivers exactly the packets that parsing yields, keeps exactly the unparsed rest and force-closes exactly on a header over the limit |
| Codec.OnMessageFor | HPGateway/src/protocol/Codec.cpp:19-46 | on any bytes whatsoever, the loop on the buffer after n iterations has delivered, kept and decided what n iterations on the bytes do |
| Codec.SendPacket | HPGateway/src/protocol/Codec.cpp:48-57 | the bytes handed to the connection are header then body |
| Codec.LoopEnds | HPGateway/src/protocol/Codec.cpp:22-45 | for every byte string the receive loop ends if and only if parsing meets no header of length zero |
| Codec.StuckDeliversForever | HPGateway/src/protocol/Codec.cpp:22-45 | once parsing meets a header of length zero, each further iteration delivers one more header-only packet and consumes nothing, without bound |
| Codec.ZeroHeaderNeverEnds | HPGateway/src/protocol/Codec.cpp:22-45 | twelve zero bytes are a buffer the loop never leaves |
| Codec.ChunksDoNotMatter | HPGateway/src/protocol/Codec.cpp:19-46 | for every byte stream and every way of cutting it, the packets delivered and the outcome (waiting, force-close or stuck at a zero-length header) are those of parsing it whole, and so are the bytes kept, up to where reading stopped |
| Codec.HandleRead | HPGateway/src/net/TcpConnection.cpp:181-194 | a scatter read into the buffer followed by the receive loop parses the bytes kept and the bytes read; the end of the stream closes, an error changes nothing |
| Codec.Receive | HPGateway/src/protocol/Codec.cpp:19-46 | reading a stream into the buffer, any sizes at a time, with the receive loop after each read, delivers and keeps what feeding those pieces does |
| Codec.RoundTrip | HPGateway/src/protocol/Codec.cpp:59-70 | encoding messages and feeding the bytes in any pieces delivers exactly those messages, each with its command, flag zero, sequence number, length and bytes, in order and with nothing left, if and only if no message exceeds 65524 bytes |
| Codec.LeftoverIsPrefix | HPGateway/src/protocol/Codec.cpp:19-46 | cut anywhere, the stream has delivered the packets sent whole and keeps a proper prefix of the next |
| TcpConnection.OutputConserved | HPGateway/src/net/TcpConnection.cpp:88-128 | over any sends, short writes and errors, wire then output buffer is what was accepted, and until close the channel is writing if and only if output is pending |
| TcpConnection.AcceptedIsTaken | HPGateway/src/net/TcpConnection.cpp:88-128 | what was accepted is the concatenation of the messages not dropped, a message being dropped whole, on a closed connection or on a reset with nothing pending |
| TcpConnection.WireIsTaken | HPGateway/src/net/TcpConnection.cpp:88-219 | what is on the wire is the concatenation of what the kernel took from each send and each write of the buffer |
| TcpConnection.ShutdownAfterFlush | HPGateway/src/net/TcpConnection.cpp:130-142 | whenever the write side is shut down, every byte accepted is on the wire, if and only if the connection was not closed before with output pending |
| TcpConnection.ShutdownAfterClose | HPGateway/src/net/TcpConnection.cpp:130-231 | a run in which data is pending, the peer closes and the posted shutdown then runs |
| TcpConnection.WireFinal | HPGateway/src/net/TcpConnection.cpp:137-142 | after the shutdown nothing more reaches the wire |
| TcpConnection.DrainShutsDown | HPGateway/src/net/TcpConnection.cpp:196-219 | a shutdown asked for with output pending is performed by the write that drains it |
| TcpConnection.ShutdownNotForgotten | HPGateway/src/net/TcpConnection.cpp:130-142 | once asked for, the shutdown is done, on its way or waiting for output, until the connection closes |
| TcpConnection.PhaseMoves | HPGateway/src/net/TcpConnection.cpp:130-231 | what every call does to the phase in every run: a shutdown of a connected one leaves it disconnecting with the shutdown on its way, a posted or peer's close leaves it disconnected and not writing, no call reopens it |
| TcpConnection.CloseNotForgotten | HPGateway/src/net/TcpConnection.cpp:144-156 | a close asked for on an open connection stays on its way until the connection is disconnected |
| TcpConnection.ClosedForGood | HPGateway/src/net/TcpConnection.cpp:88-231 | once disconnected a connection stays so, is not writing, and neither takes on nor sends anything more |
| TcpConnection.TcpConnection.Promises | HPGateway/src/net/TcpConnection.cpp:88-231 | the object's wire then buffer is what it took, its wire is what the kernel took, it watches for writability if and only if its buffer is not empty until it is closed, and nothing is pending once it is shut down |
| TcpConnection.TcpConnection.SendInLoop | HPGateway/src/net/TcpConnection.cpp:88-128 | on fields and buffer, is the next event of a run that the fields have followed so far, so every result about runs holds of the object |
| TcpConnection.TcpConnection.HandleWrite | HPGateway/src/net/TcpConnection.cpp:196-219 | on fields and buffer, is the next event of a run that the fields have followed so far, so every result about runs holds of the object; a shutdown it performs leaves every accepted byte on the wire |
| TcpConnection.TcpConnection.Shutdown | HPGateway/src/net/TcpConnection.cpp:130-135 | on the fields, a shutdown request: a connected object becomes disconnecting with the shutdown posted, any other is unchanged; it continues the object's run, so it is not forgotten (`ShutdownNotForgotten`) |
| TcpConnection.TcpConnection.ShutdownInLoop | HPGateway/src/net/TcpConnection.cpp:137-142 | is the next event of a run that the fields have followed so far, so every result about runs holds of the object; a shutdown it performs on a connection not closed leaves every accepted byte on the wire |
| TcpConnection.TcpConnection.HandleClose | HPGateway/src/net/TcpConnection.cpp:221-231 | on the fields, a close by the peer: the object is disconnected and not writing; it continues the object's run, and the unsent output stays accounted for (`Promises`) |
| TcpConnection.TcpConnection.ForceClose | HPGateway/src/net/TcpConnection.cpp:144-149 | on the fields, a request to close: an open object becomes disconnecting with the close posted and not yet done, any other is unchanged; it continues the object's run, so it is not forgotten (`CloseNotForgotten`) |
| TcpConnection.TcpConnection.ForceCloseInLoop | HPGateway/src/net/TcpConnection.cpp:151-156 | on the fields, the posted close: it leaves the object disconnected and not writing whatever happened in between, and continues the object's run |
| TcpConnection.TcpConnection.ConnectEstablished | HPGateway/src/net/TcpConnection.cpp:162-169 | on the fields, the connection becoming usable: the object is connected; it continues the object's run, before which no byte is taken |
| TcpConnection.TcpConnection.ConnectDestroyed | HPGateway/src/net/TcpConnection.cpp:171-179 | on the fields, the removal of the connection: one still connected is disconnected and not writing; it continues the object's run, and the unsent output stays accounted for |
| ThreadPool.TasksConserved | gateway/common/ThreadPool.h:27-36 | tasks start in submission order, and every accepted task is queued, running or done, as often as it was accepted |
| ThreadPool.SubmitAccepted | gateway/common/ThreadPool.h:27-36 | in any run Submit returns true if and only if no Shutdown has been called before; what was submitted is then last in the queue, and otherwise nothing changes |
| ThreadPool.RunsWhatWasSubmitted | gateway/common/ThreadPool.h:27-36 | what is started in a submission's turn is what was submitted, and until then it is queued |
| ThreadPool.DrainsIffWorkers | gateway/common/ThreadPool.cpp:23-49 | when all workers have exited every accepted task has run exactly once, if and only if there is a worker or nothing was accepted |
| ThreadPool.ShutdownReturnsDrained | gateway/common/ThreadPool.cpp:23-33 | the join in Shutdown returns only when every accepted task has run exactly once and none is queued |
| ThreadPool.DrainedIffOneAtATime | gateway/common/ThreadPool.cpp:23-33 | whenever a call of Shutdown comes back, every accepted task of a pool with workers has run exactly once, in all runs with or without overlapping calls, if and only if no call is made while another is waiting |
| ThreadPool.SecondCallerEarly | gateway/common/ThreadPool.cpp:23-28 | a run in which a second caller of Shutdown comes back while a task has not been started |
| ThreadPool.OneJoins | gateway/common/ThreadPool.cpp:23-33 | however many threads call Shutdown, at most one is ever joining the workers, and none while the pool is running |
| ThreadPool.NoLostWakeup | gateway/common/ThreadPool.cpp:35-49 | a worker waits only while each queued task has a worker about to look or a notification on its way, and after Shutdown only while notify_all is pending |
| ThreadPool.ShutdownTerminates | gateway/common/ThreadPool.cpp:35-49 | after Shutdown every worker step decreases three times the queued tasks plus the workers' remaining moves |
| ThreadPool.ShutdownIsFinal | gateway/common/ThreadPool.h:27-36 | after Shutdown no client step adds a task or increases that measure |
| ThreadPool.StalledIsDrained | gateway/common/ThreadPool.cpp:23-49 | after the shutdown notification, a pool in which no worker is busy or about to look has only exited workers and is drained |
| Notice.PubServer.Publish | gateway/src/PubServer.cpp:53-75 | the socket takes exactly as many copies as there were successful sends, and the result says whether there was any |
| Notice.PubServer.PublishNotice | gateway/src/quote_gateway.cpp:55-70 | each notice gets the next number, whether or not it can be sent; what the socket has taken is always the copies of the published notices in order, as many of each as were sent with success |
| Notice.QuoteApi.OnPubMessage | gateway/src/quote_api.cpp:48-63 | what the client has handed on is always the de-duplication of everything that arrived |
| Notice.DeliveredAppend | gateway/src/quote_api.cpp:48-63 | notices taken one at a time are handed on as if taken all at once |
| Notice.EachOnceInOrder | gateway/src/PubServer.cpp:53-75 | for one publishing thread, any numbers of copies and any losses, the client hands on exactly the notices of which a copy arrived, each once and in publishing order |
| Notice.HandedOnce | gateway/src/quote_api.cpp:48-63 | of the two objects: whatever one thread has published and whichever copies were lost, the client has handed on exactly the notices of which a copy arrived, each once and in publishing order |
| Notice.NoRepeatsIffGrouped | gateway/src/quote_api.cpp:48-63 | for whatever numbered notices arrive, none is handed on twice if and only if equal numbers arrive next to each other |
| Notice.InterleavedRepeats | gateway/src/quote_api.cpp:48-63 | three copies each of two notices, interleaved by two publishers, arrive in an order in which the client hands on all six |

## Left out

- C++ weak memory: interleavings are sequentially consistent; acquire, release and fences are taken as sufficient.
- `enqueue_bulk` of a producer with a token, as a concurrent operation, and its undo; exceptions from element assignments during a dequeue.
- BulkEnqueue.FillBlocks: covers the path on which all blocks were allocated, as `BulkEnqueue.AllocateBlocks` counts them; comparison on words appears as comparison on counters, which `Circular.CircularLessExact` justifies.
- BulkEnqueue.AllocateBlocks: a block comes from a given supply, whether taken from ahead in the ring or from the pool; index insertion and the undoing after a failure are modelled in `ImplicitProducer`, with the consumers.
- DequeueCounters.StepKeeps: the counters are unbounded, and the wrap-around is treated in `Circular`.
- FreeList.StepKeeps: bounds the number of threads below 2^31 so that reference counts cannot reach the mark bit; the list starts empty and nodes come into being one at a time.
- ExplicitProducerProof.NextKeeps: enqueues one element at a time; `MAX_SUBQUEUE_SIZE` has its default, no limit.
- ImplicitProducerRuns.NextKeeps: `enqueue` is `enqueue_bulk` of one element, so its constructor throws after the block was stored, not before; blocks come from an allocator that hands out any block not in use; every dequeue asks for at least one element, without which `EmptyClaims` shows the invariant to fail.
- Block size is the default 32; masks by a power of two are written as remainders.
- Thread-id hash table, consumer tokens and rotation, thread-exit listeners, moves, swaps and destructors of the queue.
- Semaphore.AlwaysBalanced: spin counts and timeouts are arbitrary, so an untimed wait may also give up, as it does when the kernel wait fails; signed overflow of the count is left out.
- BlockingQueue.NeverSpinsOnEmpty: the inner queue is a bag whose dequeues may come back empty-handed; that they eventually succeed on a non-empty queue is not modelled.
- EventLoop.NoLostWakeup: calls on the loop's own thread are made from inside `Loop`; a functor queued on that thread before `Loop` gets no wakeup and waits for the next event or the poll timeout.
- EventLoop.RunsInOrder: `RunInLoop` on the loop's own thread calls the functor at once and is not part of the order; functors left pending when the loop stops do not run.
- RingBuffer.RingBuffer.Shrink: requires room for the readable bytes, without which the copy would leave the new vector; sizes are unbounded.
- Codec.OnMessage: requires bytes on which the loop ends, since otherwise it never returns; `Codec.OnMessageFor` is the same loop on any bytes. The message callback is the returned list, and does not touch the buffer. Headers are little-endian.
- Codec.HandleRead: the bytes kept and read contain no zero-length header, on which the call does not return; logging is left out.
- Codec.Receive: the stream contains no zero-length header, on which a read does not return.
- TcpConnection.OutputConserved: handlers run on one loop, each to completion; a write after the write side was shut down fails with EPIPE; high-water and write-complete callbacks, reading and logging are left out.
- ThreadPool.TasksConserved: tasks do not throw.
- Notice.EachOnceInOrder: one publishing thread; message numbers are unbounded; protobuf encoding, topics and the pause between copies are left out.
- `RouterServer`, sessions, dispatchers, routers, configuration, API clients, timers and demos: map look-ups or input and output, which would add only easy members.
- `HPGateway/src/base/ThreadPool.cpp`: its `Stop` does not drain the queue.
