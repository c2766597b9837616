# Shared-memory publish/subscribe: a verified model

This project models the shared-memory data plane of the middleware and the registry that governs it,
and proves what the two promise across processes. It is written for Dafny 4.11:
`dafny verify dfyconfig.toml` checks all of it.

## What is modelled

**The chunk protocol.** One publisher and any number of subscribers form a transition system
(`Protocol`). Its state is the publisher's pool, its connections (each with its ring, the
subscriber's views, the wake and release frames in flight and the publisher's outstanding list), its
loans, its tombstones, the sequence and the log of what was published. Its steps are the publisher's
shared-memory actions, one at a time, and everything the others can do between them: dequeue, read a
wake, release a view, drain, close, reset for a dead pool, disconnect, die inside a critical section,
subscribe and unsubscribe. One invariant (`ProtocolInvariant.Inv`) holds in every reachable state
(`ProtocolTheorems.ReachableInv`), and the main theorems are read off it. `WakeRisk` and `WakeRuns`
settle when a wake-up can be missed, with `HeldBack` and `ChunkReturns` showing that a chunk for the
publish can always be had back. Pool, ring and frames have their own specifications
(`PoolModel`, `RingModel`, `QueueProtocol`).

**The code behind it.** `MemoryPool.Allocator`, `SubscriberQueue.SharedQueue` and
`Publisher.PublisherImpl` are classes that update headers, slots, lists and counters in place, with
the source's loops. Each method is proved against those specifications. The publisher's methods carry
a ghost history: whatever happens at the yields inside them, the state they reach is reached by a run
of the transition system, so the theorems hold of the class between calls. `Meetings` says what a
publish reports in terms of the rings it met on the way. `Ownership` does the
same for the move-only `LoanedSample` and `SampleView`.

**The segment.** `SegmentLayout` computes the layout with checked 64-bit arithmetic, `SegmentCreate`
writes the image byte by byte, and `SegmentOpen` validates an arbitrary image and reads chunks from it.
`SegmentPool` says which pool an image stands for.

**The registry.** `RegistryModel` specifies the operations on the cross-linked maps,
`RegistryState.Registry` performs them in place, `RegistryRuns` follows runs in time, `RegistryCleanup`
characterises the plan for a dead node, and `RegistryServer.Server` adds clients, parked discovery
requests and death notices. `Leases` tells the life of a node by the history of operations alone,
`EndpointRecords` and `RegistryAnswers` say what the registry holds and answers in terms of what it was
given, and `DeathNotices` who is told of a death. `ServerRuns` is the server as a state machine, one event
at a time, and `RequestFates` follows every request over a whole run; `RequestExamples` are runs in which
one is lost.

**The streams.** `FrameProtocol` and `ControlProtocol` hold the codecs and the two resumable decoders, and
`ControlDivisions` says when the division of a client's bytes into reads matters. Every record is also
stated by the byte offsets of its fields.

## What turned out

- The wake is sent only when the ring was empty. A subscriber whose ring has been empty at some moment
  since the connect is never left waiting (`NoLostWake`). One that was connected with an earlier
  publisher's handle still queued can be: `WakeExact` and `WakeExactAtConnect` say exactly when, and
  `LostWakeInOneSlot` is an input.
- The PoolExhausted branch inside dispatch, the metadata overflow branch of the layout and the cancel
  after a failed copy can never be taken (`DispatchNeverBlocked`, `Metadata`, `CopyPublishes`).
- An old handle is rejected for every number of reuses of its chunk that is not a multiple of
  2^32-1, and matches again at every multiple (`StaleHandle`, `StaleAfterRun`).
- The wake decoder ignores the reserved bytes 48 to 79, so decoding is not injective
  (`WakeNotInjective`). It is exactly there that bytes and wakes can differ (`WakeCanonical`).
- How a client's bytes are cut into reads can matter to the registry. The buffer is refused as a whole when
  a read takes it past 65552 bytes, whatever complete requests it then holds, so a long request with
  something right behind it can be lost with it (`LongRequestLost`). `DivisionsExact` says exactly for which
  requests that cannot happen. After a bad header the client is read once more at every poll until its
  answer is flushed, and what comes then is served (`LateRequestServed`, `AfterBadHeader`).
- A parked discovery request can end without an answer while its client and its publisher are both
  there: an unadvertise that names its endpoint drops it, even one that is refused
  (`UnadvertisedReachable`), and so does a second resolve of the endpoint (`SupersededReachable`). It is
  then never answered (`DroppedNeverAnswered`). There is no other way (`StaysOrEnds`, `FatesHold`).
- A node that publishes and subscribes on one topic dies with two events for that pair, one for each
  role (`EventsExact`).

## Model

| member | source | states |
|---|---|---|
| `ProtocolTheorems.ReaderSafety` | middleware/src/publisher.cpp:486-583 | in every reachable state, whatever a tracked connection's ring, views and in-flight release frames hold of this pool they hold once, it is owed in the outstanding list (or is being recorded there), reading it succeeds, every view still shows the bytes and sequence that were published, and the head of the ring can be taken |
| `ProtocolTheorems.ReferenceConservation` | middleware/src/publisher.cpp:318-375 | in every reachable state a Published chunk's count is the number of connections that owe its handle, plus the guard and the tentative reference of the dispatch in progress; every owed handle names a live chunk of the current generation |
| `ProtocolTheorems.NoLeak` | middleware/src/detail/memory_pool.cpp:372-442 | between calls no chunk is Released; a Free one is in its own class's free list once and in no other; a Loaned one has exactly one loan; a Published one has a holder; allocations minus reclaims is the number of busy chunks |
| `ProtocolTheorems.DispatchNeverBlocked` | middleware/src/publisher.cpp:499-511 | at every dispatch the outstanding list has no duplicates and is shorter than the pool, so the PoolExhausted branch is dead, and the reference is refused exactly at the 32-bit limit, which fewer than 2^32-2 connections cannot reach |
| `ProtocolTheorems.NoLostWake` | middleware/src/detail/subscriber_queue.cpp:333-398 | a subscriber whose ring was empty at connect or at any moment since, and that is about to poll or has not mapped the pool, has an unread wake frame whenever its ring is not empty, under every policy, capacity and owner death |
| `WakeRuns.WakeExact` | middleware/src/detail/subscriber_queue.cpp:333-398 | between calls, some run leaves the connection's subscriber in its poll with a handle of this publisher queued and no wake frame, if and only if the connection is at risk: its ring has never been empty since the connect, it is not detached, and a handle of this pool is queued or can still be added. All that is asked of the pool is a chunk of the smallest class, be it free, on loan or owed; one not queued in that ring, where the subscriber is about to take the head |
| `WakeRuns.WakeExactAtConnect` | middleware/src/publisher.cpp:242-266 | what can be seen when the publisher connects decides it: such a run follows the connect if and only if the ring is not empty, is open, and has room, evicts, or can be given room by its subscriber while something else stays queued |
| `WakeRuns.LostWakeReachable` | middleware/src/detail/subscriber_queue.cpp:336-336 | for every unused pool and every such peer, connecting in a new session and publishing once reaches a state where the subscriber waits beside this publisher's handle without a wake |
| `WakeRuns.LostWakeInOneSlot` | middleware/src/detail/subscriber_queue.cpp:336-336 | a concrete input: a ring of one slot that holds an earlier publisher's handle, which the new handle evicts without a wake |
| `WakeRisk.NeverStranded` | middleware/src/detail/subscriber_queue.cpp:333-398 | from a reachable state in which the connection is not at risk, no run at all leaves its subscriber waiting beside a queued handle |
| `HeldBack.ReachableFine` | middleware/src/publisher.cpp:366-375 | in every reachable state, all that an attached subscriber with a ring never empty since the connect owes is in its ring, in its views or on its way back |
| `ChunkReturns.MakesRoom` | middleware/src/publisher.cpp:329-375 | so from between calls a run gives back any chunk of the smallest class that is not queued in a given ring, and leaves that ring and its subscriber as they were |
| `ProtocolTheorems.ReadsIncrease` | middleware/src/publisher.cpp:573-574 | each tracked subscriber reads a strictly increasing subsequence of the sequences dispatched |
| `ProtocolTheorems.LogAppends` | middleware/src/publisher.cpp:623-650 | over any run the sequence never falls and what was published under a sequence never changes |
| `ProtocolTheorems.OwnerDeathKeepsObligations` | middleware/src/detail/subscriber_queue.cpp:44-55 | if a process dies inside a critical section, the ring is empty and well formed for the next holder, pool and outstanding lists are untouched, and the whole invariant still holds |
| `ProtocolTheorems.StepKeeps` | middleware/src/publisher.cpp:486-583 | every step of publisher, subscribers and registry keeps the invariant |
| `ProtocolTheorems.ReachableInv` | middleware/src/publisher.cpp:486-583 | so it holds after every run, by induction on the run |
| `ProtocolTheorems.ConnectedOnce` | middleware/src/publisher.cpp:242-246 | an endpoint is given a connection at most once in a session |
| `ProtocolTheorems.OutstandingBound` | middleware/src/publisher.cpp:90-99 | distinct live handles, one more of which is about to be dispatched, are fewer than the chunks |
| `ProtocolTheorems.HoldersIsCount` | middleware/src/publisher.cpp:318-375 | the recursive holder count is the size of the set of connections that owe the handle |
| `ProtocolInvariant.InitHolds` | middleware/src/publisher.cpp:146-172 | a new session with an unused pool satisfies the invariant |
| `SubscriberSteps.SubscriberKeeps` | middleware/src/subscriber.cpp:354-385 | the subscriber's steps (dequeue, release, wake, reset, drain, death) keep the invariant |
| `SubscriberSteps.KeepOthersRises` | middleware/src/detail/subscriber_queue.cpp:459-479 | discarding a pool's handles keeps the rest in sequence order |
| `PublisherSteps.ReceiveReleaseKeeps` | middleware/src/publisher.cpp:377-407 | taking a release frame, owed or not, keeps the invariant |
| `PublisherSteps.RemoveNextKeeps` | middleware/src/publisher.cpp:329-348 | giving back one handle of a connection being removed, or erasing it, keeps the invariant |
| `PublisherSteps.ConnectNextKeeps` | middleware/src/publisher.cpp:242-266 | connecting, skipping or tombstoning the next listed endpoint keeps the invariant |
| `DispatchSteps.AddRefKeeps` | middleware/src/publisher.cpp:499-511 | taking the tentative reference keeps the invariant |
| `DispatchSteps.TryEnqueueKeeps` | middleware/src/publisher.cpp:513-570 | offering the handle, whatever the ring answers, keeps the invariant |
| `SettleSteps.SettleTakenKeeps` | middleware/src/publisher.cpp:529-537 | recording an accepted handle and releasing the one it evicted keeps the invariant |
| `SettleSteps.SettleRefusedKeeps` | middleware/src/publisher.cpp:539-570 | taking back a refused offer's reference keeps the invariant |
| `SettleSteps.DropGuardKeeps` | middleware/src/publisher.cpp:573-574 | dropping the guard, which frees a chunk nobody took, keeps the invariant |
| `LoanSteps.PublishCopyKeeps` | middleware/src/publisher.cpp:585-599 | starting to publish a copy keeps the invariant |
| `LoanSteps.PublishLoanKeeps` | middleware/src/publisher.cpp:623-650 | starting to publish a loan, or cancelling an oversized one, keeps the invariant |
| `LoanSteps.CopyPublishes` | middleware/src/publisher.cpp:586-597 | a chunk just allocated for a copy is always published, so the cancelling branch is dead |
| `MemoryPool.Allocator.constructor` | middleware/src/detail/memory_pool.cpp:229-242 | a new pool: all chunks Free with generation 0, each once in its class's free list |
| `MemoryPool.NewIsValid` | middleware/src/detail/memory_pool.cpp:229-242 | such a pool satisfies the pool invariant |
| `MemoryPool.Allocator.Allocate` | middleware/src/detail/memory_pool.cpp:250-287 | new state and result are those of the specification: best fitting class, last free chunk, next generation |
| `PoolLemmas.AllocateOutcome` | middleware/src/detail/memory_pool.cpp:250-272 | allocation succeeds exactly when the best fitting class has a free chunk, and otherwise changes nothing and says which of the two errors it was |
| `MemoryPool.Allocator.PublishLoaned` | middleware/src/detail/memory_pool.cpp:333-349 | new state and error are the specification's; the payload is left as written |
| `MemoryPool.Allocator.WriteAndPublish` | middleware/src/detail/memory_pool.cpp:306-331 | as PublishLoaned after copying the data |
| `PoolLemmas.PublishKeeps` | middleware/src/detail/memory_pool.cpp:306-349 | both ways of publishing keep the pool invariant |
| `MemoryPool.Allocator.AddReference` | middleware/src/detail/memory_pool.cpp:351-370 | one more reference on a Published chunk, refused at the 32-bit limit |
| `MemoryPool.Allocator.Release` | middleware/src/detail/memory_pool.cpp:372-399 | one reference fewer, Released at zero |
| `MemoryPool.Allocator.Reclaim` | middleware/src/detail/memory_pool.cpp:401-422 | a Released chunk goes back to its free list |
| `MemoryPool.Allocator.Cancel` | middleware/src/detail/memory_pool.cpp:424-442 | a Loaned chunk goes back to its free list |
| `MemoryPool.Allocator.ReleaseReference` | middleware/src/publisher.cpp:318-327 | release, and reclaim of what that released |
| `PoolLemmas.ReleaseReferenceFacts` | middleware/src/publisher.cpp:318-327 | on a live handle it succeeds, touches no other chunk, and frees this one exactly when the reference was the last |
| `MemoryPool.Allocator.WriteLoan` | middleware/src/detail/memory_pool.cpp:289-304 | the application may write the payload of a loaned chunk and of no other |
| `PoolLemmas.ApplyKeeps` | middleware/src/detail/memory_pool.cpp:250-442 | every pool operation with any arguments keeps the pool invariant |
| `PoolLemmas.FirstUseGeneration` | middleware/src/detail/memory_pool.cpp:274-278 | over any run of pool operations a chunk's generation after n allocations is ((n-1) mod (2^32-1))+1, and 0 only for n = 0 |
| `PoolLemmas.GenerationClosedForm` | middleware/src/detail/memory_pool.cpp:274-278 | the closed form of n generation steps from any nonzero generation |
| `PoolLemmas.StaleHandle` | middleware/src/detail/memory_pool.cpp:474-479 | after any run of pool operations a handle that was current matches exactly when its chunk has been allocated again a multiple of 2^32-1 times |
| `PoolLemmas.StaleAfterRun` | middleware/src/detail/memory_pool.cpp:474-499 | so an operation on it is refused as stale exactly when that number is not a multiple of 2^32-1, and then changes nothing and nothing can be read through it |
| `PoolLemmas.ReadsBack` | middleware/src/detail/memory_pool.cpp:306-331 | after any run in which the chunk is not allocated again, what is read through the handle is the data, the sequence and the timestamp given at publication |
| `PoolLemmas.LoanReadsBack` | middleware/src/detail/memory_pool.cpp:333-349 | the same for a loan, with the bytes it held when it was published |
| `PoolLemmas.ReleasedOnce` | middleware/src/detail/memory_pool.cpp:372-399 | a chunk published with n references can be released n times, the last of which makes it Released; any further release is answered DuplicateRelease and changes nothing |
| `PoolLemmas.PublishedOnce` | middleware/src/detail/memory_pool.cpp:306-349 | a loan is published exactly with the size lent and a nonzero sequence and count, by either way; after that publishing, cancelling or reclaiming it is InvalidState and changes nothing |
| `PoolLemmas.ReadAnswers` | middleware/src/detail/memory_pool.cpp:603-627 | what is read is there exactly while it is published under that handle and not larger than allowed, and which error is reported otherwise |
| `SubscriberQueue.SharedQueue.constructor` | middleware/src/detail/subscriber_queue.cpp:192-278 | a new ring is empty |
| `SubscriberQueue.SharedQueue.Lock` | middleware/src/detail/subscriber_queue.cpp:57-89 | the lock fails only when unrecoverable; after an owner's death the ring is reset to empty before use |
| `SubscriberQueue.SharedQueue.Abandon` | middleware/src/detail/subscriber_queue.cpp:508-519 | a process may die in its critical section leaving any indices, slots, counters and a queue closed or not; the ring then counts as empty |
| `SubscriberQueue.SharedQueue.Enqueue` | middleware/src/detail/subscriber_queue.cpp:322-398 | head, tail and size do exactly the abstract enqueue on a sequence, for each policy, with the wake inside the critical section and rolled back when it fails |
| `RingModel.EnqueueSettles` | middleware/src/detail/subscriber_queue.cpp:322-398 | an enqueue waits through wake-ups and deaths that leave the ring full, and is settled at the first event that ends the wait: at the deadline, by a lock that cannot be had, or by what the ring then calls for, with its contents and counters |
| `SubscriberQueue.SharedQueue.WaitUntilRoom` | middleware/src/detail/subscriber_queue.cpp:350-378 | the wait loop is the abstract wait: room, close, deadline (also one that passes just as room appears), lock error or owner death |
| `RingModel.WaitConserves` | middleware/src/detail/subscriber_queue.cpp:350-378 | waiting loses no handle unless an owner dies |
| `RingModel.RingConservation` | middleware/src/detail/subscriber_queue.cpp:322-479 | over any crash-free run: enqueued = dequeued + dropped_oldest + queued + drained or discarded |
| `SubscriberQueue.SharedQueue.TryDequeue` | middleware/src/detail/subscriber_queue.cpp:401-412 | takes the oldest handle, or nothing from an empty ring |
| `SubscriberQueue.SharedQueue.Peek` | middleware/src/detail/subscriber_queue.cpp:414-420 | shows the oldest handle and changes nothing |
| `SubscriberQueue.SharedQueue.Drain` | middleware/src/detail/subscriber_queue.cpp:422-457 | returns all handles in order and leaves the ring empty, closed or not |
| `SubscriberQueue.SharedQueue.DiscardPool` | middleware/src/detail/subscriber_queue.cpp:459-479 | keeps exactly the handles of other pools, in order |
| `SubscriberQueue.SharedQueue.Compact` | middleware/src/detail/subscriber_queue.cpp:463-476 | the in-place compaction is that stable filter |
| `SubscriberQueue.SharedQueue.RecoverAndClose` | middleware/src/detail/subscriber_queue.cpp:481-506 | closes and empties the queue of a dead node, unless it is busy or unrecoverable |
| `Publisher.PublisherImpl.constructor` | middleware/src/publisher.cpp:146-172 | a new publisher starts a run of the protocol machine |
| `Publisher.PublisherImpl.Yield` | middleware/src/subscriber.cpp:581-651 | whatever the other processes do between two of the publisher's actions is a run of the machine and leaves the outstanding lists alone |
| `Publisher.PublisherImpl.TakeReference` | middleware/src/publisher.cpp:499-511 | takes the tentative reference; the handle is new to the connection, and the only refusal is InvalidState, with the count at the 32-bit limit |
| `Publisher.PublisherImpl.Offer` | middleware/src/publisher.cpp:513-570 | one offer, with waiting and wake, is a step of the run that meets the connection's ring as it then is; the outcome is the one that ring and the environment call for: an open full DropNewest ring is QueueFull and a newest drop, one still full at the deadline QueueTimeout and a block timeout, a closed one QueueClosed, a failed wake ConnectionLost, a failed lock SharedMemoryError, no encoding InvalidState |
| `Publisher.PublisherImpl.SettleTaken` | middleware/src/publisher.cpp:529-537 | the connection now owes the handle besides what it owed, and no longer the one that was evicted |
| `Publisher.PublisherImpl.SettleRefused` | middleware/src/publisher.cpp:539-539 | the tentative reference is given back and the connection does not owe the handle |
| `Publisher.PublisherImpl.DispatchOne` | middleware/src/publisher.cpp:492-571 | one round: the connection owes the handle exactly when it was delivered, and is listed as broken exactly for the outcomes that break it |
| `Publisher.PublisherImpl.DispatchAll` | middleware/src/publisher.cpp:488-571 | the whole loop is a run of the machine; the counts and the remembered error summarise the outcomes, and exactly the connections that took the handle owe it |
| `Publisher.PublisherImpl.DispatchPublished` | middleware/src/publisher.cpp:486-583 | every connection's ring is met once during the call; the result counts the rings that took the handle, evicted for it, turned it away or ran out of time, and reports success, a timeout or the first failure accordingly; exactly the endpoints whose ring was closed or could not be woken are gone, tombstoned; the chunk lives exactly when somebody took it, with one reference per connection that did, and shows what was published under the new sequence |
| `Meetings.Reported` | middleware/src/publisher.cpp:486-583 | the running counts and the remembered failure are those numbers of rings and that error, said of rings and error codes alone |
| `Meetings.PlacedCalls` | middleware/src/publisher.cpp:525-570 | what the ring answers to an offer is turned into the outcome that its state calls for |
| `Meetings.BrokenAreLost` | middleware/src/publisher.cpp:552-563 | the endpoints given up are those whose ring was closed or empty without a wake |
| `Publisher.Tally` | middleware/src/publisher.cpp:529-570 | the bookkeeping of one outcome keeps the counts, the remembered error and the broken list right |
| `PublishOutcome.NoteSummarises` | middleware/src/publisher.cpp:529-570 | the running counts are the numbers of outcomes of each kind |
| `PublishOutcome.BrokenExact` | middleware/src/publisher.cpp:551-562 | the broken list names exactly the endpoints whose outcome breaks the connection |
| `Publisher.PublisherImpl.ReleaseOutstanding` | middleware/src/publisher.cpp:366-375 | gives back a handle that is owed and ignores any other |
| `Publisher.PublisherImpl.ReleaseAll` | middleware/src/publisher.cpp:329-335 | gives back everything a connection owes, one reference each, while the others act |
| `Publisher.PublisherImpl.ForgetEndpoint` | middleware/src/publisher.cpp:337-348 | takes the endpoint's connection out after giving back all it owes, and tombstones it |
| `Publisher.PublisherImpl.RemoveBroken` | middleware/src/publisher.cpp:575-577 | removing the broken endpoints takes nothing from the holders of the handle just dispatched |
| `Publisher.PublisherImpl.ReceiveOne` | middleware/src/publisher.cpp:377-407 | one release frame is taken; its handle is given back exactly if the connection owes it, and otherwise nothing changes |
| `Publisher.PublisherImpl.DrainReleases` | middleware/src/publisher.cpp:409-437 | every handle whose frame was waiting is given back, none of them is owed any longer, and exactly the hung-up endpoints go and are tombstoned |
| `Publisher.PublisherImpl.RemoveUnlisted` | middleware/src/publisher.cpp:225-232 | exactly the connections to endpoints no longer listed go, the others owe what they owed, and every chunk has one reference for each connection that still owes it |
| `Publisher.PublisherImpl.ConnectAll` | middleware/src/publisher.cpp:242-266 | every listed endpoint ends up connected or tombstoned, nothing else is connected, and connections and tombstones that were there stay |
| `Publisher.PublisherImpl.NegotiateLimit` | middleware/src/publisher.cpp:267-271 | the limit is at most the publisher's and each connection's, and is one of them |
| `Publisher.PublisherImpl.ConnectDiscovered` | middleware/src/publisher.cpp:220-275 | reconciliation is a run of the machine after which every listed endpoint is connected or tombstoned, no other is connected, and listed ones that were connected or tombstoned still are; the limit is then the smallest of the publisher's and its connections' |
| `Publisher.PublisherImpl.PublishCopy` | middleware/src/publisher.cpp:585-599 | too large or no free chunk: nothing changes; otherwise the data is published under the next sequence in the chunk that allocation gives, which lives exactly when somebody took it and then shows that sequence and those bytes |
| `Publisher.PublisherImpl.Publish` | middleware/src/publisher.cpp:686-714 | the whole call: releases are drained and connections reconciled with what the registry lists; then a message is refused as too large exactly when it exceeds the publisher's own limit or that of one of the connections, and without a connection ConnectionLost is reported; otherwise it is published and the result is that of the rings met, or no chunk was free and nothing is |
| `Publisher.PublisherImpl.AllocateLoan` | middleware/src/publisher.cpp:601-621 | one more active loan exactly when the size fits and its class has a free chunk, and nothing changes otherwise |
| `Publisher.PublisherImpl.FillLoan` | middleware/src/detail/memory_pool.cpp:289-304 | the application's write to a loaned chunk is a step like any other and lands at the front of that chunk's payload only |
| `Publisher.PublisherImpl.CancelLoan` | middleware/src/publisher.cpp:653-655 | the loan ends and the chunk it named is Free |
| `Publisher.PublisherImpl.PublishLoaned` | middleware/src/publisher.cpp:623-650 | the loan ends whatever happens; a fitting one is dispatched with the bytes the application wrote, and an oversized one leaves its chunk Free |
| `PublisherRun.LoanFits` | middleware/src/publisher.cpp:623-650 | an active loan names a chunk that is large enough for it |
| `PublisherRun.AfterDispatch` | middleware/src/publisher.cpp:529-571 | when the loop ends the holders number the deliveries and no broken endpoint holds the handle |
| `PublisherRun.HeldIsLive` | middleware/src/publisher.cpp:573-577 | between calls a handle is live exactly when somebody owes it, with that many references |
| `Ownership.LoanedSample.Borrow` | middleware/src/publisher.cpp:716-732 | a sample is active exactly when a loan was made for it, and samples and loans still correspond one to one |
| `Ownership.LoanedSample.Move` | middleware/src/loaned_sample.cpp:23-31 | the claim passes to the new object and the old one is inactive |
| `Ownership.LoanedSample.Assign` | middleware/src/loaned_sample.cpp:33-48 | the target's own loan is cancelled before it takes over the other's; self-assignment changes nothing |
| `Ownership.LoanedSample.Publish` | middleware/src/loaned_sample.cpp:61-72 | an active sample spends its claim whatever the outcome; an inactive one publishes nothing |
| `Ownership.LoanedSample.Cancel` | middleware/src/loaned_sample.cpp:74-82 | an active sample's loan ends once; any other cancel changes nothing |
| `Ownership.LoanedIsOwned` | middleware/src/loaned_sample.cpp:21-82 | across any moves a chunk is Loaned exactly when an active sample holds its handle, and then just one does |
| `Ownership.SampleView.constructor` | middleware/src/sample_view.cpp:12-23 | a view over a dequeued handle is one more reference to return |
| `Ownership.SampleView.Move` | middleware/src/sample_view.cpp:25-34 | the reference passes to the new object and the old one is inactive |
| `Ownership.SampleView.Assign` | middleware/src/sample_view.cpp:36-52 | the target's own reference is returned before it takes over the other's; self-assignment returns nothing |
| `Ownership.SampleView.Release` | middleware/src/sample_view.cpp:66-74 | an active view sends exactly one release frame for its handle, any other sends none |
| `SegmentLayout.MakeLayout` | middleware/src/detail/memory_pool.cpp:112-181 | succeeds exactly for valid configurations whose segment fits in 64 bits, and then yields the abstract layout; InvalidConfiguration exactly for invalid ones |
| `SegmentLayout.LayoutSound` | middleware/src/detail/memory_pool.cpp:112-181 | the layout's chunks are 64-aligned, pairwise disjoint, after the metadata and inside the segment, with the configured capacities |
| `SegmentLayout.CheckClasses` | middleware/src/detail/memory_pool.cpp:119-133 | accepts exactly the configurations with rising nonzero sizes and counts whose total fits, and returns the classes |
| `SegmentLayout.PlaceAll` | middleware/src/detail/memory_pool.cpp:148-166 | the nested loops place exactly the abstract directory or report overflow exactly when it does not fit |
| `SegmentLayout.Metadata` | middleware/src/detail/memory_pool.cpp:135-146 | with 32-bit counts the metadata never overflows, so that branch is dead |
| `SegmentCreate.Create` | middleware/src/detail/memory_pool.cpp:193-227 | writes header, classes, directory and chunk headers where the layout puts them, exactly for a matching descriptor |
| `SegmentOpen.Open` | middleware/src/detail/memory_pool.cpp:501-595 | accepts exactly the images that satisfy the stated shape and returns what they describe, the bounds of the tables being tested with the checked 64-bit arithmetic of the source |
| `SegmentOpen.CheckHeader` | middleware/src/detail/memory_pool.cpp:513-536 | the checked products and range tests accept exactly the headers whose tables, as unbounded numbers, lie inside the segment |
| `SegmentOpen.ValidatorSound` | middleware/src/detail/memory_pool.cpp:521-591 | every accepted image has aligned, pairwise disjoint chunk ranges inside the mapping |
| `SegmentOpen.AcceptedBytes` | middleware/src/detail/memory_pool.cpp:505-540 | the bytes that every accepted image begins with |
| `SegmentOpen.CreateOpens` | middleware/src/detail/memory_pool.cpp:193-227 | open accepts every segment create writes and recovers the same classes and directory |
| `SegmentOpen.Read` | middleware/src/detail/memory_pool.cpp:603-624 | succeeds exactly for a current published chunk's handle, and then yields its size, sequence and timestamp and a range inside that chunk and clear of every other; a handle that fits no entry and a chunk that does not agree are told apart |
| `SegmentPool.Read` | middleware/src/detail/memory_pool.cpp:603-624 | read returns from the bytes what the pool holds for the handle, or the same error, for every image that stands for the pool chunk by chunk |
| `SegmentPool.StoreMirrors` | middleware/src/detail/memory_pool.cpp:306-349 | writing one chunk's header and payload in its place changes that chunk of the pool the image stands for and no other |
| `SegmentPool.CreatedChunks` | middleware/src/detail/memory_pool.cpp:215-227 | in the image of a new segment every chunk is Free with generation 0 and no reference |
| `SegmentImage.HeaderRoundTrip` | middleware/src/detail/memory_pool.cpp:60-84 | decoding an encoded segment header gives it back |
| `SegmentImage.ClassRoundTrip` | middleware/src/detail/memory_pool.cpp:86-96 | the same for a size class |
| `SegmentImage.EntryRoundTrip` | middleware/src/detail/memory_pool.cpp:98-110 | the same for a directory entry |
| `SegmentImage.HeaderLayout` | middleware/src/detail/memory_pool.cpp:60-74 | the byte offset and width of every field of the segment header, and its padding |
| `SegmentImage.HeaderReading` | middleware/src/detail/memory_pool.cpp:76-84 | each field of a decoded segment header is the big-endian value of its bytes |
| `SegmentImage.ClassLayout` | middleware/src/detail/memory_pool.cpp:86-91 | the same offsets for a size class |
| `SegmentImage.ClassReading` | middleware/src/detail/memory_pool.cpp:93-96 | and what is read of it |
| `SegmentImage.EntryLayout` | middleware/src/detail/memory_pool.cpp:98-104 | the same offsets for a directory entry |
| `SegmentImage.EntryReading` | middleware/src/detail/memory_pool.cpp:106-110 | and what is read of it |
| `SegmentImage.ChunkLayout` | middleware/src/detail/memory_pool.hpp:59-71 | where the fields of a chunk header lie |
| `SegmentImage.ChunkReading` | middleware/src/detail/memory_pool.hpp:59-71 | and what is read of it |
| `BigEndian.EncodeInto` | middleware/src/detail/frame_protocol.cpp:9-14 | the shift loop writes the big-endian bytes in place and nothing else |
| `BigEndian.DecodeFrom` | middleware/src/detail/frame_protocol.cpp:16-23 | the accumulating loop computes the big-endian value |
| `BigEndian.DecodeEncode` | middleware/src/detail/frame_protocol.cpp:9-23 | decoding undoes encoding for every value that fits |
| `BigEndian.EncodeDecode` | middleware/src/detail/frame_protocol.cpp:9-23 | encoding undoes decoding for every byte string |
| `FrameProtocol.HeaderCanonical` | middleware/src/detail/frame_protocol.cpp:26-46 | bytes decode to a header exactly when they are its encoding |
| `FrameProtocol.HeaderLayout` | middleware/src/detail/frame_protocol.cpp:26-33 | the byte offset and width of every field of a frame header |
| `FrameProtocol.HeaderReading` | middleware/src/detail/frame_protocol.cpp:35-46 | each field of a decoded header is the big-endian value of its bytes |
| `FrameProtocol.FrontReading` | middleware/src/detail/frame_protocol.cpp:35-58 | what stands at the front of any stream, decided by its first 24 bytes: another transport, garbage, too large, incomplete, or a message with that payload, sequence and timestamp |
| `FrameProtocol.FrontOfEncoded` | middleware/src/subscriber.cpp:208-279 | the front of an encoded message followed by anything is that message and the rest |
| `FrameProtocol.MessagesOfEncoded` | middleware/src/subscriber.cpp:208-279 | a concatenation of encoded messages decodes to those messages, in order, with nothing left |
| `FrameProtocol.MessagesResume` | middleware/src/subscriber.cpp:208-279 | decoding may stop anywhere and resume with what was kept: the split does not matter |
| `FrameProtocol.Decoder.ReceiveAvailable` | middleware/src/subscriber.cpp:208-279 | the resumable decoder's answer is decided by the stream so far alone, however it was cut; truncated, foreign, malformed and oversized frames are told apart |
| `FrameProtocol.Decoder.ReceiveAll` | middleware/src/subscriber.cpp:208-279 | repeated calls yield exactly the messages the stream completes and keep the rest |
| `FrameProtocol.Decoder.Feed` | middleware/src/subscriber.cpp:208-279 | pieces arrive between the calls, cut anywhere: the messages are those of the whole stream, up to the first bad frame |
| `ControlProtocol.HeaderCanonical` | middleware/src/detail/control_protocol.cpp:86-109 | bytes decode to a control header exactly when they are its encoding |
| `ControlProtocol.HeaderLayout` | middleware/src/detail/control_protocol.cpp:86-96 | the byte offset and width of every field of a control header: the request id is at byte 8, the payload size at byte 12 |
| `ControlProtocol.HeaderReading` | middleware/src/detail/control_protocol.cpp:98-109 | each field of a decoded header is the big-endian value of its bytes |
| `ControlProtocol.ParseIsByOffsets` | registry/src/registry_server.cpp:213-257 | what the server makes of a client's bytes, said by byte offsets alone |
| `ControlProtocol.FieldBytes` | middleware/src/detail/control_protocol.cpp:10-41 | the bytes of each kind of payload field |
| `ControlProtocol.ResponseReading` | middleware/src/detail/control_protocol.cpp:158-177 | the response envelope by byte offsets |
| `ControlProtocol.FieldCanonical` | middleware/src/detail/control_protocol.cpp:31-84 | a field is read from bytes exactly when they start with what writing it produces |
| `ControlProtocol.PayloadWriter.Write` | middleware/src/detail/control_protocol.cpp:27-41 | appends the field's encoding |
| `ControlProtocol.PayloadReader.Read` | middleware/src/detail/control_protocol.cpp:43-84 | reads the next field exactly when the bytes hold one; a number that is not there does not move the offset |
| `ControlProtocol.PayloadRoundTrip` | middleware/src/detail/control_protocol.cpp:27-84 | any sequence of fields is read back, and the rest is left |
| `ControlProtocol.ResponseCanonical` | middleware/src/detail/control_protocol.cpp:158-177 | bytes decode to a response envelope exactly when they are its encoding |
| `ControlProtocol.ParseOfFrames` | registry/src/registry_server.cpp:213-257 | a concatenation of encoded requests is dispatched as those requests, in order, with nothing kept |
| `ControlProtocol.ParseResume` | registry/src/registry_server.cpp:213-257 | parsing in two pieces is parsing the whole, up to the first bad header, after which nothing more is parsed |
| `ControlProtocol.KeptIsPartial` | registry/src/registry_server.cpp:213-257 | what stays buffered is always less than one complete frame |
| `ControlProtocol.ClientInput.ParseFrames` | registry/src/registry_server.cpp:213-257 | the loop over the buffer computes exactly that parse, on a client that is to be closed as on any other |
| `ControlProtocol.ClientInput.ReadClient` | registry/src/registry_server.cpp:164-211 | reads pieces until none is there or the client is to be closed, with the limit on the buffer tested before each parse; a client that is to be closed already is read once more |
| `ControlProtocol.ClientInput.Serve` | registry/src/registry_server.cpp:103-140 | over any polls, arrivals and flushes: what is dispatched and answered is decided by the pieces read, all of them unless the client is to be closed |
| `ControlDivisions.FedExact` | registry/src/registry_server.cpp:164-257 | for every stream without a bad header and every division of it into reads, the server does what the parse of the whole says if and only if every read fits in 65552 bytes beside what is kept of the bytes before it |
| `ControlDivisions.DivisionsExact` | registry/src/registry_server.cpp:170-182 | for every sequence of requests, every division of their bytes into reads of up to 4096 is served as those requests if and only if none has a payload over 61441 bytes with more than 65552 bytes to read from it on |
| `ControlDivisions.AfterBadHeader` | registry/src/registry_server.cpp:164-257 | what is read after a bad header, before the client goes, is parsed from its own beginning, so the server does what the parse of the whole says if and only if nothing comes of it |
| `ControlDivisions.LongRequestLost` | registry/src/registry_server.cpp:176-182 | an input: a request with the largest payload and a short one right behind it, in full reads; both are lost and MessageTooLarge is answered under id 0 |
| `ControlDivisions.LateRequestServed` | registry/src/registry_server.cpp:164-195 | an input: a read with a bad header, then a request; the request is served before the client goes |
| `ControlDivisions.ZerosAreBad` | registry/src/registry_server.cpp:213-231 | and there is such a read: 4096 zero bytes |
| `QueueProtocol.ReleaseCanonical` | middleware/src/detail/queue_protocol.cpp:111-140 | bytes decode to a release of a handle exactly when they are its encoding and pool and generation are nonzero |
| `QueueProtocol.ReleaseLayout` | middleware/src/detail/queue_protocol.cpp:110-121 | the byte offset and width of every field of a release frame |
| `QueueProtocol.ReleaseReading` | middleware/src/detail/queue_protocol.cpp:123-140 | which frames are releases, and of what |
| `QueueProtocol.WakeRoundTrip` | middleware/src/detail/queue_protocol.cpp:46-96 | decoding an encoded wake gives it back |
| `QueueProtocol.WakeLayout` | middleware/src/detail/queue_protocol.cpp:45-66 | the byte offset and width of every field of a wake frame, its name and its padding |
| `QueueProtocol.WakeReading` | middleware/src/detail/queue_protocol.cpp:68-96 | which frames are wakes and what they say, byte by byte |
| `QueueProtocol.WakeAccepted` | middleware/src/detail/queue_protocol.cpp:98-108 | a subscriber acts on a frame exactly when it is a wake naming its queue and its topic, a pool of the known layout and a valid name |
| `QueueProtocol.WakeForAnother` | middleware/src/detail/queue_protocol.cpp:98-108 | so a wake sent to one queue is refused at any other queue or topic, and accepted at its own |
| `QueueProtocol.WakeCanonical` | middleware/src/detail/queue_protocol.cpp:68-96 | a decoded wake re-encodes to the same bytes exactly when bytes 48 to 79 are zero |
| `QueueProtocol.WakeNotInjective` | middleware/src/detail/queue_protocol.cpp:68-96 | every wake has two different encodings that decode to it, because the decoder ignores the reserved bytes |
| `QueueProtocol.ValidWakesAreEncodings` | middleware/src/detail/queue_protocol.cpp:98-109 | so a decoded and validated wake is an encoder's output exactly when those bytes are zero |
| `QueueProtocol.ReceiveWake` | middleware/src/detail/queue_protocol.cpp:68-96 | the decoder with its padding loop computes the specification |
| `RegistryModel.EmptyHolds` | registry/src/registry_state.cpp:44-48 | an empty registry is consistent |
| `RegistryRuns.ApplyKeeps` | registry/src/registry_state.cpp:50-289 | every operation with any arguments keeps the registry consistent: names inverse to records, endpoint sets in agreement with endpoint maps, one publisher per topic, no empty topic, every endpoint's type name, type hash and transport those of its topic, limit equal to the minimum, ids fresh |
| `RegistryLemmas.RegisterKeeps` | registry/src/registry_state.cpp:50-70 | registering keeps it consistent |
| `RegistryLemmas.AdvertiseKeeps` | registry/src/registry_state.cpp:175-213 | advertising keeps it consistent, the topic's limit included |
| `RegistryLemmas.SubscribeKeeps` | registry/src/registry_state.cpp:234-270 | subscribing keeps it consistent |
| `RegistryRemoval.PrunedKeeps` | registry/src/registry_state.cpp:411-437 | removing any set of endpoints, emptied topics included, keeps it consistent |
| `RegistryRemoval.PrunedTwice` | registry/src/registry_state.cpp:72-90 | removing endpoints in two rounds is removing them in one, recomputed limits included |
| `RegistryRemoval.PrunedNone` | registry/src/registry_state.cpp:72-90 | removing none changes nothing |
| `RegistryRemoval.WithoutKeeps` | registry/src/registry_state.cpp:72-90 | removing a node with all its endpoints keeps it consistent |
| `RegistryState.Registry.RegisterNode` | registry/src/registry_state.cpp:50-70 | the maps become the specification's; a new id and session, or the error |
| `RegistryState.Registry.AttachHeartbeat` | registry/src/registry_state.cpp:92-104 | accepted exactly for the current session, on a connection no other one holds |
| `RegistryState.Registry.ReceiveHeartbeat` | registry/src/registry_state.cpp:106-120 | renews the lease and clears suspicion exactly for node, session and connection that match |
| `RegistryState.Registry.FindOrCreateTopic` | registry/src/registry_state.cpp:387-409 | the named topic, new if there was none |
| `RegistryState.Registry.AdvertiseTopic` | registry/src/registry_state.cpp:175-213 | the new publisher's records in all four maps, or the first error that applies and no change |
| `RegistryState.Registry.SubscribeTopic` | registry/src/registry_state.cpp:234-270 | the new subscriber's records in all four maps, or the first error that applies and no change |
| `RegistryState.Registry.SmallestLimit` | registry/src/registry_state.cpp:411-427 | the recomputing loop finds the minimum over the topic's endpoints, if it has any |
| `RegistryState.Registry.SettleTopic` | registry/src/registry_state.cpp:411-437 | the topic has its limit recomputed, or goes with its name when it is empty |
| `RegistryState.Registry.UnadvertiseTopic` | registry/src/registry_state.cpp:215-232 | the registry without that publisher, or the error and no change |
| `RegistryState.Registry.UnsubscribeTopic` | registry/src/registry_state.cpp:272-288 | the registry without that subscriber, or the error and no change |
| `RegistryState.Registry.UnregisterNode` | registry/src/registry_state.cpp:72-90 | giving up the endpoints one by one and then the node yields the registry without that node |
| `RegistryState.Registry.CleanupDeadNode` | registry/src/registry_state.cpp:439-497 | a plan for the dead node, and the registry without it; a second cleanup finds nothing |
| `RegistryCleanup.EventsExact` | registry/src/registry_state.cpp:452-492 | the plan has an event exactly for each pair of a publisher and a subscriber of one topic of which one is the dead node's; it is addressed to the other's node and endpoint and names the dead endpoint, the topic and the dead one's pool or queue |
| `RegistryCleanup.EventsOnce` | registry/src/registry_state.cpp:452-492 | and none twice |
| `DeathNotices.PlansTell` | registry/src/registry_state.cpp:439-484 | when several nodes die one after the other, each pair of a dead endpoint and one on a node that is left is notified, and nothing else |
| `DeathNotices.PlansTellOnce` | registry/src/registry_state.cpp:439-484 | and no notification is made twice |
| `DeathNotices.NoticeWaits` | registry/src/registry_server.cpp:574-587 | so a notice is waiting for its node, unless as many others of the same deaths have taken its place |
| `RegistryCleanup.ResourcesExact` | registry/src/registry_state.cpp:452-492 | it lists exactly the node's named pools, named queues and socket paths |
| `RegistryCleanup.ResourcesOnce` | registry/src/registry_state.cpp:452-492 | and each as often as the node has endpoints with it |
| `RegistryState.Registry.EvaluateLiveness` | registry/src/registry_state.cpp:122-145 | suspects and plans are those of the nodes silent that long, and the registry is the one without the expired |
| `RegistryRuns.EvaluationExact` | registry/src/registry_state.cpp:122-145 | an evaluation removes exactly the nodes silent for the dead timeout, and of the others exactly those silent for the suspect timeout are suspected |
| `Leases.LivesExact` | registry/src/registry_state.cpp:50-174 | after every run from the empty registry the nodes are exactly those that live by the history of operations alone, each with the name, session, connections and time of last sign of life that the history gives it |
| `Leases.LastSign` | registry/src/registry_state.cpp:106-120 | the time kept for a node is that of the last operation that was its registration or a heartbeat for it under its session on its control or heartbeat connection |
| `Leases.LeaseSafety` | registry/src/registry_state.cpp:122-146 | in any run with time not running backwards, an evaluation removes a node exactly if that last sign of life is at least the dead timeout ago, and suspects it exactly if it is at least the suspect timeout ago |
| `Leases.KeptAlive` | registry/src/registry_state.cpp:106-146 | a node that neither unregisters nor loses its connection, and at every evaluation has been heard less than the dead timeout before, is still there at the end of the run |
| `Leases.AnswersFollow` | registry/src/registry_state.cpp:50-120 | what a registration, an attachment or a heartbeat is answered is decided by that history too |
| `RegistryAnswers.AdvertiseAnswers` | registry/src/registry_state.cpp:175-213 | the answer to an advertisement in terms of who owns the node, what was asked for and the endpoints that live on the topic of that name: their types, their transport and whether one is a publisher |
| `RegistryAnswers.SubscribeAnswers` | registry/src/registry_state.cpp:234-266 | the same for a subscription |
| `RegistryAnswers.EndpointAnswers` | registry/src/registry_state.cpp:72-91 | what unregister, unadvertise and unsubscribe are answered: success exactly for the owner of the node and its own endpoint |
| `RegistryRuns.RemovedForGood` | registry/src/registry_state.cpp:92-120 | after any further run a removed node's heartbeats and attachments are rejected, whatever session they name |
| `RegistryState.Registry.DisconnectConnection` | registry/src/registry_state.cpp:147-165 | the nodes the connection owns go, with a plan each in order, or else its heartbeats are detached |
| `RegistryState.Registry.DetachHeartbeat` | registry/src/registry_state.cpp:167-173 | the loop leaves no node beating through the connection and changes nothing else |
| `RegistryState.Registry.Resolve` | registry/src/registry_state.cpp:290-311 | the first error that applies, or exactly the topic's subscribers, each with its record |
| `EndpointRecords.SubscribedIsListed` | registry/src/registry_state.cpp:234-264 | a subscriber that was accepted, and is still there after any further run, is listed to the publisher of the topic it named with the path, limit and queue it gave |
| `EndpointRecords.AdvertisedIsKnown` | registry/src/registry_state.cpp:175-213 | a publisher that was accepted, and is still there after any further run, is its topic's publisher, with the pool it gave |
| `RegistryServer.Server.Resolve` | registry/src/registry_server.cpp:379-396 | answered at once, or parked exactly when the topic has no subscriber yet; parked requests stay valid |
| `RegistryServer.Server.CompletePending` | registry/src/registry_server.cpp:519-534 | of the parked requests exactly those that still cannot be answered stay, and each of the others is answered once, in endpoint order |
| `RegistryServer.Server.Subscribe` | registry/src/registry_server.cpp:333-367 | an accepted subscription answers whatever can now be answered, so no request that could be answered stays parked |
| `RegistryServer.Server.Advertise` | registry/src/registry_server.cpp:292-320 | advertising leaves every parked request rightly parked |
| `RegistryServer.Server.Unadvertise` | registry/src/registry_server.cpp:321-332 | the endpoint's parked request goes, even when the call fails; the rest stay rightly parked |
| `RegistryServer.Server.Unsubscribe` | registry/src/registry_server.cpp:368-378 | parked requests stay rightly parked |
| `RegistryServer.Server.Register` | registry/src/registry_server.cpp:265-277 | parked requests and waiting notices are untouched and still valid |
| `RegistryServer.Server.Heartbeat` | registry/src/registry_server.cpp:483-512 | an accepted heartbeat collects and clears the node's notices; a rejected one neither |
| `RegistryServer.Server.Attach` | registry/src/registry_server.cpp:472-482 | parked requests and notices are untouched and still valid |
| `RegistryServer.Server.Unregister` | registry/src/registry_server.cpp:278-291 | requests of publishers that went with the node are forgotten, the rest stay rightly parked |
| `RegistryServer.Server.CleanupPending` | registry/src/registry_server.cpp:536-544 | exactly the requests whose publisher is gone are forgotten |
| `RegistryServer.Server.DeliverNotices` | registry/src/registry_server.cpp:575-586 | each live target's list becomes the latest 1024 of what waited and the events meant for it, and the dead node's list goes |
| `RegistryServer.Server.ApplyAll` | registry/src/registry_server.cpp:563-611 | over all plans: every live node's list is the latest 1024 of what waited and all events meant for it; exactly the clients on the dead nodes' connections go; exactly the requests that still have their client and their publisher stay parked |
| `RegistryServer.Server.RemoveClient` | registry/src/registry_server.cpp:689-711 | the client's nodes die with it; every node left is told, after what it had not collected, of exactly the deaths that concern it, once each; exactly that client and those on the dead nodes' connections go, and exactly the requests that still have client and publisher stay parked |
| `RegistryServer.Server.Expire` | registry/src/registry_server.cpp:613-619 | the same for the nodes whose lease ran out |
| `ServerRuns.Handle` | registry/src/registry_server.cpp:103-146 | whatever reaches the server, it does what one step of the state machine says and stays consistent |
| `ServerRuns.Dispatch` | registry/src/registry_server.cpp:259-517 | the same for each request, by opcode |
| `ServerRuns.Launch` | registry/src/registry_server.cpp:86-101 | a new server is in the state all runs start from |
| `ServerRuns.Serve` | registry/src/registry_server.cpp:103-140 | run on any events, the server passes through the states of a run |
| `ServerRuns.NextKeeps` | registry/src/registry_server.cpp:103-146 | every step keeps the invariant: the registry consistent, connection ids distinct, every parked request its publisher's own, from a client still there, and still without a subscriber |
| `RequestFates.StaysOrEnds` | registry/src/registry_server.cpp:321-396 | in any step a parked request stays, unchanged, exactly when none of five things happens: it is answered, its client goes, its publisher goes, an unadvertise names its endpoint, or another resolve of that endpoint is parked over it |
| `RequestFates.FatesHold` | registry/src/registry_server.cpp:259-534 | over every run, with each request numbered: a request waits exactly while it is parked, it has an answer exactly when its fate is an answer, every answer goes to the client and bears the id of one request, and no request has two |
| `RequestFates.FateIsFinal` | registry/src/registry_server.cpp:259-534 | a fate once met never changes |
| `RequestFates.DroppedNeverAnswered` | registry/src/registry_server.cpp:321-396 | a request that ended otherwise, by an unadvertise or a second resolve in particular, is answered neither before nor at any time after; an answer that bears its id goes back to another request of that id |
| `RequestFates.StrangerUnadvertises` | registry/src/registry_server.cpp:321-332 | for any state and any client that does not own the endpoint, its unadvertise is refused and still ends the parked request, whose client and publisher are both there |
| `RequestExamples.UnadvertisedReachable` | registry/src/registry_server.cpp:321-332 | a run from the start for anything a publisher may advertise: a second client that owns nothing unadvertises the endpoint, and the first one's request has ended so, with client and publisher there |
| `RequestExamples.SupersededReachable` | registry/src/registry_server.cpp:379-396 | the same where the client itself asks a second time |
| `RequestFates.BooksExist` | registry/src/registry_server.cpp:259-534 | every run of the server can be numbered in this way |
| `RequestFates.ServeAccounted` | registry/src/registry_server.cpp:103-140 | so all of this holds of the server run on any events |

## Left out

- Sockets, epoll, poll, mmap, shared-memory names, file descriptors and unlinking: channels deliver whole frames in order and memory is owned bytes; what connecting, sending or opening yields is a parameter.
- The pthread mutex and condition variable, memory ordering and atomics: each critical section is one step, and a timed wait returns for whatever reason the environment picks, including an owner's death.
- Clocks: time is a parameter.
- Subscriber::take and the waitAndTakeView loop are not a class: the loop's actions (drain wakes, look at the ring, poll, read a wake, take a handle) are the subscriber's steps in the transition system, in any order the loop allows. The Unix-socket decoder is a class.
- The rings inside the publisher class are values of the ring specification, to which the ring class is separately proved equal, because another process shares the object.
- Publish: reconciles on every call; the source's periodic refresh and the comparison of descriptors, which skip that when nothing has changed, are not modelled.
- PublishLoaned: starts once the connections are up to date; when that fails the source cancels the loan, which is CancelLoan.
- processPeerEvents: a death notice reaches the publisher as the removal of the endpoint and the subscriber as a reset.
- An application's writes to a loaned chunk are not interleaved inside the publisher's own calls in the class; in the transition system they happen at any point.
- The pool's chunk headers are laid out with the big-endian field codec of the other records; the source leaves them in host order.
- ValidatorSound: states nothing about the metadata regions, because open does not check the chunk ranges against them.
- 64-bit ids, sequences and counters are unbounded; the 32-bit generation, reference count, sizes and counts are not.
- A failure to make a mutex consistent after its owner died is the unrecoverable lock of the model.
- Publisher teardown and its wait for outstanding releases: the source waits for a fixed time and then goes on, so it promises nothing about what has come back by then.
- Two sessions of a publisher one after the other: the second meets the first's handles only as handles of another pool, which is how the rings of the model may start.
- publishUds, the older notification protocol and the registry client: they send what the codecs modelled here encode and keep no state of their own that the model would add to.
- The tools, listings, statistics, blocked times and high-water marks, demos, benchmarks and the ROS adapter: they report or use what is modelled and change none of it.
- The byte contents of a new segment's payloads: the model says nothing of them before they are written.
- A reply too long for a frame, which the source replaces by MessageTooLarge: the answers of the model carry no body.
- A client whose connection fails or ends while it is read: it goes, as when it hangs up.
- Request numbers in RequestFates are kept beside the run; the server itself has only the ids its clients choose.
