# An io_uring coroutine runtime: model and proofs

The runtime schedules coroutines over an io_uring instance. Most of its logic is in pointer structures and in
lock-free protocols. This project models those in Dafny and proves what they promise.

- **Timer heap** (`PathBits`, `IntrusiveHeap`, `Ordering`, `TimerOrder`). A complete binary tree that lives only in the
  `left`, `right` and `prev` links of its nodes. The class `Heap` rewrites the links as the source does, through slot
  pointers and masks. A ghost sequence says which node is at which position. Push, pop and removal keep the heap; popping
  it empty gives a sorted permutation, with equal deadlines in creation order.
- **Stop source** (`CallbackList`, `StopSource`, `StopCalls`). Any number of threads request the stop, register and
  deregister. Each step is one atomic operation with the plain accesses before the next one.
- **Multi-producer queue** (`MpscQueue`). Exchange-then-link producers, one consumer and the stub that it re-queues.
- **Shared and plain queues** (`AtomicQueue`, `IntrusiveQueue`). The compare-exchange stack with reused nodes, and the
  linked queue that its contents are turned into. `RequestStacks` shows that the sequence which the model of remote
  requests takes for such a stack is what the links hold: a push and a reset are one exchange each.
- **Remote requests** (`SegmentArray`, `SegmentPushes`, `RemoteRequests`, `RequestCollection`, `RequestRounds`,
  `RequestCalls`). The array in which request queues are registered, under concurrent pushes; the counter by which
  submitters and the closing loop agree; the way of every request from its queue into the pending list of its kind.
- **Rings** (`SubmissionRing`, `RingRuns`, `RingCalls`). The submission loop over 32-bit positions that wrap, and runs of
  the scheduler against a kernel that consumes entries and posts completions.
- **Block memory** (`BlockMemory`, `BlockRuns`, `RemoteBlocks`, `BlockOrder`). Reference-counted blocks with spans cut
  from them by any number of threads, and the shared ring of batches, first in, first out. `SharedBlocks` ties the ring
  to the set of free blocks that the runs of threads take it for.
- **Frame allocator** (`FrameAllocator`). Coroutine frames stacked over a list of chunks.
- **Provided-buffer receive** (`ProvidedBuffers`, `ReceiveStream`). The receiver with its half of the buffer ring, and runs
  against a kernel that fills buffers piece by piece and runs ahead with queued completions.

`Sequences` and `Options` are shared helpers.

## How concurrency is modelled

A protocol is a state, an enabling condition and a transition function; a run is a sequence of states in which every
state follows from the one before by an enabled step. The main lemmas speak of every state of every run. Atomics are
sequentially consistent. A weak compare-exchange may fail spuriously. Fields under the comment `history` are
bookkeeping: no step reads them to decide what the code does.

Safety over all runs would hold of a call that never gets on. So for each protocol there are also lemmas of whole calls
(`Quiet...`, `...IsSteps`): while no other thread takes a step the call returns, after a stated number of steps, with its
work done.

## Findings

- `_M_request_stop` returns true to a caller that finds the stop requested and false to the one that requests it
  (`StopSource.RequestStopAnswers`), the inverse of the standard library's stop source.
- A refill of the shared block ring stays inside its array of new blocks if and only if it begins at an empty head slot
  (`RemoteBlocks.RefillInRange`). One block that comes back after all batches are taken makes it leave the array
  (`RemoteBlocks.RefillOutOfRange` is such a run).
- The scheduler zeroes its count of newly submitted entries when an enter call times out. The count is right between
  calls if and only if no call so far timed out with entries to submit and none consumed
  (`RingRuns.NewlyCountsUnconsumed`; `RingRuns.TimeOutForgets` is a run where one does). Whether a kernel answers so is
  outside the model: the code relies on it that a call with entries to submit answers with their number instead.
- A comment in the receiver says that at an exhausted ring at least one buffer will have been replenished by the next
  enter. In fact all of them have been, and the offset that the branch resets is 0 already
  (`ReceiveStream.ExhaustedRingIsFull`).
- With the stop requested and no room in the submission ring, the submission loop stops no operation at all
  (`SubmissionRing.SubmissionQueue.Submit`, `RingRuns.FullRingStopsNothing`).
- A new chunk of the frame allocator may be too small for the frame that it was allocated for
  (`FrameAllocator.FrameAllocator.AllocateChunk`, `FrameAllocator.FirstChunkTooSmall`); the second one never is.

## Model

| member | source | states |
|---|---|---|
| PathBits.BitCeilIsLeast | include/__ngr/__core/__intrusive_heap.hpp:9-11 | the mask is computed from the least power of two that is not below size + 1 |
| PathBits.PathStart | include/__ngr/__core/__intrusive_heap.hpp:9-11 | before any bit is read the path to position k stands at the root, and the mask is 0 exactly for the root |
| PathBits.PrefixStep | include/__ngr/__core/__intrusive_heap.hpp:56-63 | reading one bit moves to the left or the right child of the position reached |
| PathBits.PrefixDescends | include/__ngr/__core/__intrusive_heap.hpp:28-64 | the path stays inside the tree and ends at position k |
| IntrusiveHeap.RootIsMinimum | include/__ngr/__core/__intrusive_heap.hpp:111-115 | in an ordered tree no node is less than the root, under any strict weak order; this is what stops the climb |
| IntrusiveHeap.ClimbStep | include/__ngr/__core/__intrusive_heap.hpp:160-177 | exchanging a node with a greater parent moves the only possible disorder up by one level |
| IntrusiveHeap.SinkStep | include/__ngr/__core/__intrusive_heap.hpp:187-215 | exchanging a node with the lesser of its children moves the only possible disorder down |
| IntrusiveHeap.ReplacedOrder | include/__ngr/__core/__intrusive_heap.hpp:100-120 | putting the last leaf at a removed node's position leaves disorder only below it, or only above it if it is less than the parent |
| IntrusiveHeap.Heap.Push | include/__ngr/__core/__intrusive_heap.hpp:20-70 | from a valid heap to a valid heap with exactly the new node more |
| IntrusiveHeap.Heap.FindPlace | include/__ngr/__core/__intrusive_heap.hpp:22-64 | the walk stops at the slot of a position on the path to the first free one, where the new node may stand |
| IntrusiveHeap.Heap.ShiftPath | include/__ngr/__core/__intrusive_heap.hpp:33-54 | moving the rest of the path down one level gives a heap with all links right |
| IntrusiveHeap.Heap.Pop | include/__ngr/__core/__intrusive_heap.hpp:72-88 | removes the root, which is a minimum, and keeps a valid heap of the others |
| IntrusiveHeap.Heap.Remove | include/__ngr/__core/__intrusive_heap.hpp:90-124 | true exactly for a member; then the heap is valid without it and its prev is null, so that a second removal changes nothing and returns false |
| IntrusiveHeap.Heap.HeapUpPercolate | include/__ngr/__core/__intrusive_heap.hpp:151-181 | the climb needs no null checks, ends, and leaves a heap of the same nodes |
| IntrusiveHeap.Heap.HeapDownSink | include/__ngr/__core/__intrusive_heap.hpp:183-217 | the sink ends with order and links restored, the prev link of the topmost node aside |
| IntrusiveHeap.Heap.RemoveLeastLeaf | include/__ngr/__core/__intrusive_heap.hpp:219-235 | detaches the node at the last position and nothing else |
| IntrusiveHeap.Heap.LeafNotBelow | include/__ngr/__core/__intrusive_heap.hpp:94-115 | the moved leaf is not less than the root, and where it is less than the parent the removed position has its sibling |
| Ordering.TimeBeforeIsStrictWeakOrder | include/__ngr/__core/__scheduler.hpp:226-236 | the order of deadline and sequence number is a strict weak order |
| TimerOrder.PopAll | include/__ngr/__core/__intrusive_heap.hpp:72-88 | popping until empty yields a sorted permutation of the heap |
| TimerOrder.EqualDeadlinesKeepCreationOrder | include/__ngr/__core/__scheduler.hpp:226-252 | timers that took successive numbers at their creation leave a sorted output in creation order where deadlines are equal |
| CallbackList.PushFrontOk | include/__ngr/__core/__stop_inplace.hpp:226-229 | pushing a callback keeps every prev naming the slot that points to its callback |
| CallbackList.PopFrontOk | include/__ngr/__core/__stop_inplace.hpp:169-172 | so does taking the first |
| CallbackList.UnlinkOk | include/__ngr/__core/__stop_inplace.hpp:239-240 | unlinking through the named slot removes exactly that callback and keeps the list well formed |
| StopSource.StepKeepsInv | include/__ngr/__core/__stop_inplace.hpp:165-261 | every step of every thread keeps the invariant, and what has happened to a callback stays so |
| StopSource.MutualExclusion | include/__ngr/__core/__stop_inplace.hpp:184-220 | at most one thread is where the lock bit is held, the bit is set exactly then, and the list is well formed |
| StopSource.OneWinner | include/__ngr/__core/__stop_inplace.hpp:165-182 | as many request-stop calls have won as the stop bit says, and one thread at most notifies |
| StopSource.RequestStopAnswers | include/__ngr/__core/__stop_inplace.hpp:165-182 | a returned call returned false if and only if it won; whatever it returned, the stop is requested and one call has won |
| StopSource.RunsAtMostOnce | include/__ngr/__core/__stop_inplace.hpp:168-178 | no callback begins twice; one that has returned began once |
| StopSource.RemovedIsQuiet | include/__ngr/__core/__stop_inplace.hpp:235-252 | once the removal has returned, the callback has finished or never runs, and no thread uses it any more |
| StopSource.RegisteredAfterStop | include/__ngr/__core/__stop_inplace.hpp:222-261 | a callback registered after the stop is never listed and has run exactly once when its registration returns |
| StopSource.EmptyForGood | include/__ngr/__core/__stop_inplace.hpp:168-182 | after the winner has returned the list stays empty, and every registered callback was unlinked before it ran or ran to its end |
| StopCalls.QuietRegister | include/__ngr/__core/__stop_inplace.hpp:222-233 | before the stop, a registration that finds the lock free puts its callback in front of the list and returns |
| StopCalls.QuietInline | include/__ngr/__core/__stop_inplace.hpp:254-261 | after the stop, a registration runs its callback once and returns, even while the lock is held |
| StopCalls.QuietRemove | include/__ngr/__core/__stop_inplace.hpp:235-252 | a removal that finds the lock free unlinks a listed callback and returns; of a taken one it returns if it has completed, and otherwise waits |
| StopCalls.QuietRequestStop | include/__ngr/__core/__stop_inplace.hpp:165-182 | a request that finds neither stop nor lock returns false with every listed callback run once and completed, and the list empty |
| StopCalls.TakesNewest | include/__ngr/__core/__stop_inplace.hpp:168-172 | in every run the notifier takes the callback at the front of the list, the one registered last |
| StopCalls.QuietRefusal | include/__ngr/__core/__stop_inplace.hpp:166-166 | a request that finds the stop returns true and changes nothing |
| MpscQueue.StepKeepsInv | include/__ngr/__core/__intrusive_mpsc_queue.hpp:20-63 | every step of every producer and of the consumer keeps the invariant |
| MpscQueue.ReturnedInExchangeOrder | include/__ngr/__core/__intrusive_mpsc_queue.hpp:20-63 | the returned nodes are a prefix of the user nodes in the order of their exchanges; the rest is in the chain |
| MpscQueue.PendingLinksAreLive | include/__ngr/__core/__intrusive_mpsc_queue.hpp:22-23 | a link still to be written goes into a node that is in the chain, never into a returned one |
| MpscQueue.StubQueuedOnce | include/__ngr/__core/__intrusive_mpsc_queue.hpp:46-52 | the stub is in the chain at most once, and not at all when the consumer re-pushes it |
| MpscQueue.NullNeedsExcuse | include/__ngr/__core/__intrusive_mpsc_queue.hpp:33-62 | a pop returns null only if at some moment of it no user node was queued or a push was between its exchange and its link |
| MpscQueue.GotIsNext | include/__ngr/__core/__intrusive_mpsc_queue.hpp:38-59 | a returned node is the first queued one |
| MpscQueue.QuietPop | include/__ngr/__core/__intrusive_mpsc_queue.hpp:27-63 | a pop that no push disturbs ends, with the first user node if there is one |
| MpscQueue.PushTellsStub | include/__ngr/__core/__intrusive_mpsc_queue.hpp:20-25 | a push returns true if and only if its node directly follows the stub in the order of the exchanges |
| MpscQueue.EmptyQueueIsTold | include/__ngr/__core/__intrusive_mpsc_queue.hpp:20-25 | a push whose exchange finds no user node queued returns true |
| MpscQueue.QuietPush | include/__ngr/__core/__intrusive_mpsc_queue.hpp:20-25 | an undisturbed push makes its node the head, linked behind the old head, and the last of the queued user nodes |
| AtomicQueue.StepKeepsInv | include/__ngr/__core/__atomic_intrusive_queue.hpp:17-53 | every atomic operation and every write to an owned node keeps the invariant |
| AtomicQueue.LinksLeadThroughContents | include/__ngr/__core/__atomic_intrusive_queue.hpp:17-53 | the links from the head lead through exactly what was pushed and not taken, newest first, whatever was reused in between |
| AtomicQueue.SwapLinksChain | include/__ngr/__core/__atomic_intrusive_queue.hpp:26-36 | after the exchange of a chain of any length, the links from the head lead through the whole chain and then through what the old head led through; the pusher owns none of it |
| AtomicQueue.PushReturnsStacked | include/__ngr/__core/__atomic_intrusive_queue.hpp:17-36 | a push or prepend that has returned has put its whole chain, in order, on top of the stack |
| AtomicQueue.StackedUntilReset | include/__ngr/__core/__atomic_intrusive_queue.hpp:46-53 | a node in the stack stays there until a reset takes it |
| AtomicQueue.PushSeesEmptiness | include/__ngr/__core/__atomic_intrusive_queue.hpp:17-24 | the pusher learns whether the stack was empty |
| AtomicQueue.ResetTakesAll | include/__ngr/__core/__atomic_intrusive_queue.hpp:46-53 | a reset returns the whole stack, linked to its end and owned by the caller |
| AtomicQueue.ResetReturnsAll | include/__ngr/__core/__atomic_intrusive_queue.hpp:46-53 | a reset that has returned owns all that was in the stack at its last step, linked from the head that it returns |
| AtomicQueue.QuietPush | include/__ngr/__core/__atomic_intrusive_queue.hpp:26-36 | an undisturbed push returns after two more steps with its chain on top |
| AtomicQueue.QuietReset | include/__ngr/__core/__atomic_intrusive_queue.hpp:46-53 | an undisturbed reset returns after one more step with the whole stack |
| AtomicQueue.OwnedUntouched | include/__ngr/__core/__atomic_intrusive_queue.hpp:38-44 | nobody else moves a taken node or writes its link |
| RequestStacks.PushSimulated | include/__ngr/__core/__scheduler.hpp:486-486 | the exchange that ends a push is the push of the submitter in the model of remote requests |
| RequestStacks.ResetSimulated | include/__ngr/__core/__atomic_intrusive_queue.hpp:42-53 | the exchange that ends a reset is the reset of the queue: the links of all its operations become the collector's, and their reverse is what the collection gains |
| RequestStacks.OthersSimulated | include/__ngr/__core/__atomic_intrusive_queue.hpp:17-53 | no other step of the shared stack shows in the model of remote requests |
| IntrusiveQueues.ChainUnique | include/__ngr/__core/__intrusive_queue.hpp:88-113 | a chain that ends is determined by its first link |
| IntrusiveQueues.IntrusiveQueue.PopFront | include/__ngr/__core/__intrusive_queue.hpp:41-46 | takes the first link, or none from an empty queue |
| IntrusiveQueues.IntrusiveQueue.PushFront | include/__ngr/__core/__intrusive_queue.hpp:48-53 | puts a link before the others |
| IntrusiveQueues.IntrusiveQueue.PushBack | include/__ngr/__core/__intrusive_queue.hpp:55-64 | puts a link behind the others |
| IntrusiveQueues.IntrusiveQueue.Append | include/__ngr/__core/__intrusive_queue.hpp:66-75 | concatenates, and leaves the other queue empty |
| IntrusiveQueues.IntrusiveQueue.Prepend | include/__ngr/__core/__intrusive_queue.hpp:77-86 | concatenates in front, also a prefix whose last link still points elsewhere |
| IntrusiveQueues.IntrusiveQueue.CreateReversed | include/__ngr/__core/__intrusive_queue.hpp:88-102 | turns a list around in place into a queue of the reversed list |
| IntrusiveQueues.IntrusiveQueue.Create | include/__ngr/__core/__intrusive_queue.hpp:104-113 | finds the tail: a queue of the same list |
| IntrusiveQueues.IntrusiveQueue.SplicePrefix | include/__ngr/__core/__intrusive_queue.hpp:165-186 | moves a prefix into an empty queue; only the prefix's last link points outside it, to what followed |
| SegmentArray.LocateIsBijection | include/__ngr/__core/__atomic_segment_array.hpp:39-43 | positions and locations correspond one to one by w = 2^n - 1 + pos with pos < 2^n, and positions below the bound use segments of the table |
| SegmentArray.Segments.Segment | include/__ngr/__core/__atomic_segment_array.hpp:45-56 | allocates a missing segment of its size and replaces none |
| SegmentArray.Segments.PushBack | include/__ngr/__core/__atomic_segment_array.hpp:58-70 | appends one item and returns its index |
| SegmentArray.Segments.FoldInplace | include/__ngr/__core/__atomic_segment_array.hpp:72-91 | equals the left fold over the items |
| SegmentPushes.StepKeepsInv | include/__ngr/__core/__atomic_segment_array.hpp:45-91 | every step of every push and of the reader keeps the invariant |
| SegmentPushes.PublishedAreWritten | include/__ngr/__core/__atomic_segment_array.hpp:58-70 | every slot below the published count holds the value of its ticket |
| SegmentPushes.FoldTakesPrefix | include/__ngr/__core/__atomic_segment_array.hpp:72-91 | a fold delimited in any run takes exactly the values of the tickets below the count at its first state, in order |
| SegmentPushes.NothingIsMissing | include/__ngr/__core/__atomic_segment_array.hpp:64-87 | no push and no fold meets a missing segment or an unwritten slot |
| SegmentPushes.InstalledForGood | include/__ngr/__core/__atomic_segment_array.hpp:45-56 | an installed segment is never replaced, and no step overwrites the slot of another ticket |
| SegmentPushes.QuietPush | include/__ngr/__core/__atomic_segment_array.hpp:58-70 | with no other push under way, a push returns after at most five more steps with its value published |
| SegmentPushes.QuietFold | include/__ngr/__core/__atomic_segment_array.hpp:72-91 | an undisturbed fold ends with the values of all published tickets, in order |
| RemoteRequests.StepKeepsInv | include/__ngr/__core/__scheduler.hpp:477-489 | every step of every submitter, registration and collection keeps the invariant |
| RemoteRequests.CounterCountsSubmitters | include/__ngr/__core/__scheduler.hpp:477-489 | the counter is the number of submitters between increment and decrement, or -1 with none inside |
| RemoteRequests.CollectedInPushOrder | include/__ngr/__core/__scheduler.hpp:390-424 | within a queue everything pushed is what was collected, in order, and then what waits in the stack |
| RequestCollection.CollectionAppends | include/__ngr/__core/__scheduler.hpp:387-424 | in every run one collection appends, in registration order, what it took out of each queue registered when it began: the next of its pushes, at least all made before the collection began |
| RequestCollection.TakeKeepsCollecting | include/__ngr/__core/__atomic_segment_array.hpp:72-91 | resetting the next queue adds exactly what is pending in it, behind what the queues before it gave |
| RemoteRequests.FoldAloneCollects | include/__ngr/__core/__scheduler.hpp:387-396 | a collection that no other thread disturbs appends the pending operations of each queue in push order, the queues in registration order |
| RequestRounds.CollectTakesAll | include/__ngr/__core/__scheduler.hpp:421-424 | in every run, from the accept of requests to the next state in which the loop runs, both pending lists grow by what was taken from the queues of their kind, in the order of registration; whatever had been pushed to a registered queue of either kind has been taken |
| RequestRounds.RoundCollectsAll | include/__ngr/__core/__scheduler.hpp:421-424 | the same of every round, also of the last one, after which the loop has stopped |
| RequestRounds.PushedIsPending | include/__ngr/__core/__scheduler.hpp:390-424 | an operation that is on a registered queue when the loop begins to accept is pending, for the kind of its queue, when the loop runs again |
| RequestCalls.QuietSubmit | include/__ngr/__core/__scheduler.hpp:477-489 | an undisturbed submission returns after at most four more steps: its operation is on top of its queue, or it is stopped, exactly if the counter is closed |
| RequestCalls.QuietCollect | include/__ngr/__core/__scheduler.hpp:421-424 | an undisturbed accept ends after a turn for every queue and one more for either kind |
| RequestCalls.QuietClose | include/__ngr/__core/__scheduler.hpp:538-544 | with no submitter inside, an undisturbed shutdown ends with the counter closed and every queue empty |
| RemoteRequests.NothingLostAtShutdown | include/__ngr/__core/__scheduler.hpp:538-544 | when the loop has stopped, every submitted operation was stopped by its submitter or collected exactly once |
| RemoteRequests.StoppedOnlyAfterClose | include/__ngr/__core/__scheduler.hpp:477-485 | a submitter stops its operation only after the close, and such an operation is never collected |
| SubmissionRing.PlacedAllAt | include/__ngr/__core/__scheduler.hpp:297-310 | operation i is in the entry that position tail + i names across the wrap, and every other entry is as before |
| SubmissionRing.SubmissionQueue.Submit | include/__ngr/__core/__scheduler.hpp:290-314 | takes as many operations as there is room for, in queue order, or stops all of them if there is any room |
| RingRuns.RoomIs | include/__ngr/__core/__scheduler.hpp:291-295 | the room is the lesser of what the completion ring can still take and of the free slots, whatever the positions have wrapped to |
| RingRuns.SubmitIsSteps | include/__ngr/__core/__scheduler.hpp:290-314 | the steps of the placing loop lead to the ring and the rest of the queue that the contract of Submit promises |
| RingRuns.StopIsSteps | include/__ngr/__core/__scheduler.hpp:302-304 | with the stop requested they stop every operation if there is any room, and none otherwise |
| RingRuns.FullRingStopsNothing | include/__ngr/__core/__scheduler.hpp:295-297 | a run in which the stop is requested with the ring full, and the waiting operation is not stopped |
| RingRuns.StepKeepsInv | include/__ngr/__core/__scheduler.hpp:290-344 | every step of the scheduler and the kernel keeps the invariant |
| RingRuns.NeverOverwrites | include/__ngr/__core/__scheduler.hpp:291-301 | placing an operation touches no entry that the kernel has yet to consume, even across the wrap |
| RingRuns.ConsumedInOrder | include/__ngr/__core/__scheduler.hpp:297-312 | the kernel finds the operations in the order in which they left the queue, each in the entry it prepared |
| RingRuns.CompletionsReachOperations | include/__ngr/__core/__scheduler.hpp:178-185 | each completion reaches its operation exactly once, and none follows an operation's last one while that waits |
| RingCalls.CompleteIsSteps | include/__ngr/__core/__scheduler.hpp:330-344 | an undisturbed completing call hands over every posted completion, releases the ring, and leaves the total at the number of operations without a last completion |
| RingCalls.EnterIsSteps | include/__ngr/__core/__scheduler.hpp:514-523 | an enter call finds as many entries as it is told of: if the kernel consumes them all, none is newly submitted any more |
| RingRuns.TotalCountsOutstanding | include/__ngr/__core/__scheduler.hpp:442-446 | the total is within 0 and the completion entries, and between calls it is the number of operations in the rings or with the kernel |
| RingRuns.NewlyCountsUnconsumed | include/__ngr/__core/__scheduler.hpp:519-523 | between calls the newly submitted count is what the kernel has yet to consume, if and only if no enter call so far timed out with entries to submit and none consumed |
| RingRuns.TimeOutForgets | include/__ngr/__core/__scheduler.hpp:519-520 | a run in which such a timeout leaves an entry in the ring and the count at 0 |
| RingRuns.RoomForCompletions | include/__ngr/__core/__scheduler.hpp:442-445 | the limit on submissions leaves room in the completion ring for the last completion of everything with the kernel |
| BlockMemory.LocalSource.Acquire | include/__ngr/__core/__memory_resource.hpp:225-232 | the span is inside its block, behind the last one if it fits there, or at 0 of the first free block, or of the first of a batch if there is none; every use count changes as stated, and no free block is lost or doubled |
| BlockMemory.AcquiredAcquires | include/__ngr/__core/__memory_resource.hpp:210-232 | the same of the function that the runs use |
| BlockMemory.DroppedFrees | include/__ngr/__core/__memory_resource.hpp:211-214 | the current block becomes the first free one if that was its last use, or is handed on, exactly if the list is full; the free blocks are conserved |
| BlockMemory.LocalSource.Release | include/__ngr/__core/__memory_resource.hpp:234-256 | one use less of that block only; exactly a block without uses goes to the front of the free list, or, exactly if that holds T blocks, is handed on; all other free blocks stay |
| BlockMemory.ReleasedReleases | include/__ngr/__core/__memory_resource.hpp:234-256 | the same of the function that the runs use |
| BlockRuns.StepKeepsInv | include/__ngr/__core/__memory_resource.hpp:210-256 | every part of an acquisition and every release, by any thread, keeps the invariant |
| BlockRuns.AcquireIsSteps | include/__ngr/__core/__memory_resource.hpp:210-232 | an acquisition is a sequence of enabled steps of its thread that leads to the result of Acquired, to one live span more, and leaves the other threads alone; a block handed on is in the shared source |
| BlockRuns.UsesAreCounted | include/__ngr/__core/__memory_resource.hpp:210-256 | a use count is the number of live spans, plus one for the one thread whose current block it is |
| BlockRuns.LiveSpansAreDisjoint | include/__ngr/__core/__memory_resource.hpp:225-232 | live spans lie inside their blocks and do not overlap |
| BlockRuns.FreeBlocksAreUnused | include/__ngr/__core/__memory_resource.hpp:234-256 | a free block has no use and no live span, and is in one place |
| BlockRuns.CountIsLength | include/__ngr/__core/__memory_resource.hpp:215-241 | the count is the length of the free list, at most T, with each block once |
| BlockRuns.NoBlockIsLost | include/__ngr/__core/__memory_resource.hpp:210-256 | a block without uses is in a free list or in the shared source |
| BlockRuns.HandedOnlyWhenFull | include/__ngr/__core/__memory_resource.hpp:234-241 | in every run a block that loses its last use joins its thread's list while that has fewer than T blocks, and exactly from a full list the shared source |
| RemoteBlocks.RemoteSource.Push | include/__ngr/__core/__memory_resource.hpp:139-160 | adds the block to the head slot, and hands the slot over when it is full |
| RemoteBlocks.RemoteSource.TryPop | include/__ngr/__core/__memory_resource.hpp:86-102 | takes the batch at the tail, turned around into the order of the pushes, or nothing |
| RemoteBlocks.RemoteSource.Prepend | include/__ngr/__core/__memory_resource.hpp:162-192 | hands slots over until the new blocks are used up, unless its index leaves their array |
| RemoteBlocks.PushKeepsValid | include/__ngr/__core/__memory_resource.hpp:139-160 | a push keeps whole batches between tail and head and adds exactly its block |
| RemoteBlocks.PopKeepsValid | include/__ngr/__core/__memory_resource.hpp:86-102 | so does a pop, which takes a whole batch out |
| RemoteBlocks.RefillFromEmpty | include/__ngr/__core/__memory_resource.hpp:162-192 | from an empty head slot a refill ends inside its array exactly if the rest makes whole batches |
| RemoteBlocks.RefillInRange | include/__ngr/__core/__memory_resource.hpp:162-192 | a refill stays inside its array if and only if it begins at an empty head slot, and then adds exactly the new blocks |
| RemoteBlocks.RefillOutOfRange | include/__ngr/__core/__memory_resource.hpp:181-186 | a run from the start in which one block has come back to a drained ring, so that any refill leaves its array |
| RemoteBlocks.BlocksConserved | include/__ngr/__core/__memory_resource.hpp:86-192 | each block is once in the ring or once outside |
| RemoteBlocks.PushNeverWaits | include/__ngr/__core/__memory_resource.hpp:51-55 | a push never finds the head slot full, because K slots of T are as many as N * M blocks |
| RemoteBlocks.BatchesAreWhole | include/__ngr/__core/__memory_resource.hpp:86-102 | slots from tail to head hold T blocks, every count is right, and a pop yields T blocks or none |
| BlockOrder.FirstInFirstOut | include/__ngr/__core/__memory_resource.hpp:86-192 | in every run what the pops have returned, and then what is inside, is what was pushed and refilled, in its order |
| BlockOrder.PushAppends | include/__ngr/__core/__memory_resource.hpp:139-160 | a push puts its block behind all others |
| BlockOrder.PopTakesFirst | include/__ngr/__core/__memory_resource.hpp:86-102 | a pop takes the oldest batch, oldest block first, and leaves the others in order |
| BlockOrder.RefillAppends | include/__ngr/__core/__memory_resource.hpp:162-192 | a refill from an empty head slot puts the new blocks behind all others, batch after batch |
| SharedBlocks.StepSimulated | include/__ngr/__core/__memory_resource.hpp:210-256 | a thread's hand-over, refill and growth are the push, pop and allocation of the ring, and keep the set of free blocks equal to the ring's contents |
| SharedBlocks.HandedIsOutside | include/__ngr/__core/__memory_resource.hpp:234-241 | a block that a thread hands over is one that the ring does not hold, so that it can be pushed |
| SharedBlocks.PoppedIsBatch | include/__ngr/__core/__memory_resource.hpp:215-218 | what the ring pops is a batch of T different free blocks, which a thread may take |
| SharedBlocks.OthersSimulated | include/__ngr/__core/__memory_resource.hpp:225-256 | the steps of threads that hand nothing over leave the ring and the set alone |
| FrameAllocator.RoundUp | include/__ngr/__core/__round_up.hpp:5-7 | the least multiple of the alignment that is not below the argument |
| FrameAllocator.FramesInOrder | include/__ngr/__core/__allocator.hpp:76-94 | a frame lies before every later one |
| FrameAllocator.FramesAreApart | include/__ngr/__core/__allocator.hpp:76-94 | live frames, with their prefixes, do not overlap |
| FrameAllocator.NewChunkFits | include/__ngr/__core/__allocator.hpp:36-50 | a new chunk has room for its frame exactly if the frame is below the next capacity; the one after it always has |
| FrameAllocator.FrameAllocator.AllocateChunk | include/__ngr/__core/__allocator.hpp:35-52 | appends one chunk of its own memory, doubles the next capacity, and has room for the frame that it is for exactly if the frame is below the old next capacity |
| FrameAllocator.FirstChunkTooSmall | include/__ngr/__core/__allocator.hpp:36-50 | a first frame for which the first chunk has no room |
| FrameAllocator.FrameAllocator.PushStackFrame | include/__ngr/__core/__allocator.hpp:64-95 | the frame goes behind the cursor if the current chunk has room, else to the first later chunk with room; new chunks, at most two, are added only if none has; it is aligned, as large as the rounded size exactly, and saves the old cursor |
| FrameAllocator.FrameAllocator.PopStackFrame | include/__ngr/__core/__allocator.hpp:97-101 | removes the last frame and puts the cursor where it was before its push |
| FrameAllocator.PrefixRestores | include/__ngr/__core/__allocator.hpp:97-101 | the prefix of the last frame still holds the cursor that the frames below it leave |
| ProvidedBuffers.AsyncReceive.constructor | source/main.cxx:96-127 | every buffer is in the ring once, none is due, and no receive is live |
| ProvidedBuffers.AsyncReceive.Replenish | source/main.cxx:86-94 | exactly the entry at the old tail becomes the whole buffer, and the tail moves by one of 16 bits |
| ProvidedBuffers.AsyncReceive.Complete | source/main.cxx:142-171 | the coroutine is given the bytes behind those of the slice before; a slice that ends its buffer resets the offset and makes the buffer due; without data no slice is given, and the ring is never touched |
| ProvidedBuffers.AsyncReceive.AwaitSuspend | source/main.cxx:197-214 | exactly a buffer that is due is put at the old tail, no buffer is due afterwards, and the slice is left alone |
| ReceiveStream.WrapIsHarmless | source/main.cxx:86-94 | 16-bit head and tail agree exactly if the ring is empty |
| ReceiveStream.RoomBehindReader | source/main.cxx:197-203 | what the kernel writes next overlaps no byte that is still to be read |
| ReceiveStream.StepKeepsInv | source/main.cxx:86-218 | every step of kernel, scheduler and receiver keeps the invariant |
| ReceiveStream.DeliveredIsReceived | source/main.cxx:142-218 | the slices read out of the memory, concatenated, are the received byte stream |
| ReceiveStream.SlicesAreConsecutive | source/main.cxx:155-169 | slices of a buffer follow each other inside its 4096 bytes, and the last one ends it |
| ReceiveStream.BuffersOnce | source/main.cxx:86-94 | no buffer is in the ring twice, and a filled-up buffer that is being read is not in it |
| ReceiveStream.ExhaustedRingIsFull | source/main.cxx:143-151 | when an exhausted ring is reported to the receiver, all its buffers are back, and the offset is 0 |
| ReceiveStream.QueuedOnce | source/main.cxx:131-140 | the receive is never queued while it is queued or while the kernel holds it |
| ReceiveStream.RequestNeverLost | source/main.cxx:131-214 | a waiting receiver is queued, or the kernel holds its request, or a completion is there to handle, if and only if it has handled no end of the stream so far |
| ReceiveStream.FirstAwaitQueues | source/main.cxx:197-214 | every run begins with an await that queues the receive |

## Left out

- System calls, mapped memory, sockets and printing. The kernel is an environment that consumes entries and posts
  completions; the system's allocator is a class whose contract promises aligned memory apart from all it gave before.
- Weak memory orders, membarrier, spin pauses and padding.
- Failing allocations, and arithmetic of `size_t`: sizes, addresses and the heap's size are unbounded.
- The cancellation path: `__ioring_stop_inplace`, completions of an operation with a cancel pending, and the stop flag
  that stays false once a cancel entry is seen. Runs are free of cancels.
- Progress of the run, sleep and notify states; the notification of a sleeping loop.
- Timer firing, and the timer commands: the loop shown never pops the heap.
- The destructors. A thread that ends keeps its free blocks from the others.
- Coroutine frames as such, `__task`, `__spawn`, `__circular_buffer`, the message structures and the third-party `.in` files.
- IntrusiveQueues.IntrusiveQueue.SplicePrefix: does not model the general splice, only the move of a prefix into an empty queue, the one way it is used.
- IntrusiveQueues.IntrusiveQueue.Append: queues are objects here, where the source moves them by value; that a moved queue is empty is stated, its destructor's check is not.
- StopSource.RemovedIsQuiet: a callback that deregisters itself is left out; a nested call made by a callback counts as another thread's.
- SegmentPushes.FoldTakesPrefix: pushes beyond the bound are left out, as the source does not check it.
- RemoteRequests.NothingLostAtShutdown: the pending lists keep what was collected, where the scheduler goes on to place or stop it; a timer request and a ring request are both only operations.
- RequestCollection.CollectionAppends: the reset and reversal of one queue are one step; RequestStacks and SegmentPushes show what happens inside it.
- RemoteRequests.FoldAloneCollects: only of a collection without interference; RequestCollection.CollectionAppends is the statement for every run.
- RingRuns.NewlyCountsUnconsumed: the kernel consumes entries only inside an enter call, as without a polling thread.
- RingRuns.RoomForCompletions: a completion with more to come is posted only while there is room; what the kernel does without room is its own.
- BlockMemory.LocalSource.Acquire: spans of 1 to 4096 bytes, as its callers ask for; the free list is a sequence, its links are modelled in IntrusiveQueues.
- BlockRuns.UsesAreCounted: the last decrement of a count and the return of its block are one step, as nobody else can reach the block in between.
- RemoteBlocks.BlocksConserved: push, pop and refill are single steps; fewer than 2^32 slots are handed over; a refill begins at an empty head slot.
- SharedBlocks.StepSimulated: the block queue of a slot is a sequence; that its links hold it is shown of AtomicQueue alone, and the join of the two is by reading.
- RemoteBlocks.RemoteSource.Push: the count, the push and the hand-over are one step.
- RemoteBlocks.RemoteSource.TryPop: the move of the tail, the reset and the store of the count are one step.
- RemoteBlocks.RemoteSource.Prepend: the rounds are one step; the array of new blocks has any length; the blocks spliced off are a prefix of a sequence.
- ReceiveStream.DeliveredIsReceived: after the end of the stream or an error the receive stays suspended, as in the source, and nothing is said of it.
- SubmissionRing.SubmissionQueue.Submit: operations that a callback queues during the loop are left out here; in RingRuns an operation may be queued between any two steps.
