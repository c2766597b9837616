/**
A subscriber's queue as a bounded sequence of handles: the abstract form of
middleware/src/detail/subscriber_queue.cpp. The class in SubscriberQueue.dfy implements it
with head, tail and size over a fixed array.
*/
module RingModel {
  import opened Basics
  import opened PoolModel

  datatype OverflowPolicy = DropNewest | DropOldest | BlockWithTimeout

  datatype EnqueueStatus =
    Accepted | DroppedNewest | TimedOut | Closed | NotificationFailed | SynchronizationError

  datatype EnqueueResult = EnqueueResult(
    status: EnqueueStatus, dropped: Option<ChunkHandle>, notified: bool)

  /** What the wake callback does: there is none, it sends the frame, or sending fails. */
  datatype Notify = NoCallback | Sends | Fails

  /**
  What a producer waiting for room can observe when it gets the lock back, and what consumers did
  meanwhile. A wait that ends at its deadline has timed out even if there is room by then.
  */
  datatype WaitEvent =
    | Woken(taken: nat, closing: bool)
    | DeadlinePassed(taken: nat, closing: bool)
    | OwnerDied
    | LockError

  datatype Ring = Ring(
    items: seq<ChunkHandle>,
    capacity: nat,
    policy: OverflowPolicy,
    closed: bool,
    enqueued: nat,
    dequeued: nat,
    droppedNewest: nat,
    droppedOldest: nat)

  ghost predicate ValidRing(r: Ring) {
    0 < r.capacity && |r.items| <= r.capacity
  }

  function Rejected(status: EnqueueStatus): EnqueueResult {
    EnqueueResult(status, None, false)
  }

  /** Appends to a ring with room; a wake is due exactly when the ring was empty. */
  function Append(r: Ring, h: ChunkHandle, notify: Notify): (Ring, EnqueueResult) {
    if r.items == [] && notify == Fails then (r, Rejected(NotificationFailed))
    else
      (r.(items := r.items + [h], enqueued := r.enqueued + 1),
       EnqueueResult(Accepted, None, r.items == [] && notify == Sends))
  }

  /** Evicts the oldest handle for the new one; never sends a wake. */
  function Replace(r: Ring, h: ChunkHandle): (Ring, EnqueueResult)
    requires r.items != []
  {
    (r.(items := r.items[1..] + [h], enqueued := r.enqueued + 1, droppedOldest := r.droppedOldest + 1),
     EnqueueResult(Accepted, Some(r.items[0]), false))
  }

  /** The part of enqueue that never waits: everything except a full ring under BlockWithTimeout. */
  function EnqueueNow(r: Ring, h: ChunkHandle, notify: Notify): (Ring, EnqueueResult)
    requires ValidRing(r)
    requires |r.items| == r.capacity ==> r.closed || r.policy != BlockWithTimeout
  {
    if r.closed then (r, Rejected(Closed))
    else if |r.items| < r.capacity then Append(r, h, notify)
    else if r.policy == DropNewest then
      (r.(droppedNewest := r.droppedNewest + 1), Rejected(DroppedNewest))
    else Replace(r, h)
  }

  /** A producer has to wait for this ring. */
  predicate Waits(r: Ring) {
    !r.closed && |r.items| == r.capacity && r.policy == BlockWithTimeout
  }

  /** What other processes did to the ring while the producer waited. */
  function During(r: Ring, e: WaitEvent): Ring {
    match e
    case Woken(taken, closing) => Consumed(r, taken, closing)
    case DeadlinePassed(taken, closing) => Consumed(r, taken, closing)
    case OwnerDied => r.(items := [])
    case LockError => r
  }

  /** Consumers have taken up to `taken` handles, and perhaps closed the queue. */
  function Consumed(r: Ring, taken: nat, closing: bool): Ring {
    var n := Min(taken, |r.items|);
    r.(items := r.items[n..], dequeued := r.dequeued + n, closed := r.closed || closing)
  }

  lemma ConsumedNext(r: Ring, k: nat)
    requires k < |r.items|
    ensures var c := Consumed(r, k, false);
            c.items != [] && Consumed(r, k + 1, false) == c.(items := c.items[1..], dequeued := c.dequeued + 1)
  {
  }

  /** The timed wait: the ring when it ends, and the status when it ends in failure. */
  function WaitForRoom(r: Ring, waits: seq<WaitEvent>): (Ring, Option<EnqueueStatus>)
    decreases |waits|
  {
    if |r.items| < r.capacity || r.closed then (r, None)
    else if waits == [] then (r, Some(TimedOut))
    else if waits[0].DeadlinePassed? then (During(r, waits[0]), Some(TimedOut))
    else if waits[0] == LockError then (r, Some(SynchronizationError))
    else WaitForRoom(During(r, waits[0]), waits[1..])
  }

  function Enqueue(r: Ring, h: ChunkHandle, waits: seq<WaitEvent>, notify: Notify): (Ring, EnqueueResult)
    requires ValidRing(r)
  {
    if |r.items| < r.capacity || r.closed || r.policy != BlockWithTimeout then EnqueueNow(r, h, notify)
    else
      WaitKeeps(r, waits);
      var (r', failure) := WaitForRoom(r, waits);
      if failure.Some? then (r', Rejected(failure.value))
      else EnqueueNow(r', h, notify)
  }

  lemma {:induction false} WaitKeeps(r: Ring, waits: seq<WaitEvent>)
    requires ValidRing(r)
    ensures var (q, f) := WaitForRoom(r, waits);
            && ValidRing(q) && q.capacity == r.capacity && q.policy == r.policy
            && q.enqueued == r.enqueued && q.droppedOldest == r.droppedOldest
            && (f == None ==> |q.items| < q.capacity || q.closed)
            && (f != None ==> f.value in {TimedOut, SynchronizationError})
    decreases |waits|
  {
    if |r.items| < r.capacity || r.closed || waits == [] || waits[0].DeadlinePassed? || waits[0].LockError? {
    } else {
      WaitKeeps(During(r, waits[0]), waits[1..]);
    }
  }

  function TryDequeue(r: Ring): (Ring, Option<ChunkHandle>) {
    if r.items == [] then (r, None)
    else (r.(items := r.items[1..], dequeued := r.dequeued + 1), Some(r.items[0]))
  }

  function Drain(r: Ring): (Ring, seq<ChunkHandle>) {
    (r.(items := []), r.items)
  }

  /** The handles kept by discardPool; pool id zero discards them all. */
  function KeepOthers(items: seq<ChunkHandle>, poolId: nat): (kept: seq<ChunkHandle>)
    ensures |kept| <= |items|
    ensures forall h :: h in kept <==> h in items && poolId != 0 && h.poolId != poolId
  {
    if items == [] then []
    else
      var front := KeepOthers(items[..|items| - 1], poolId);
      var last := items[|items| - 1];
      assert items == items[..|items| - 1] + [last];
      if poolId != 0 && last.poolId != poolId then front + [last] else front
  }

  function DiscardPool(r: Ring, poolId: nat): Ring {
    r.(items := KeepOthers(r.items, poolId))
  }

  // ---- conservation ----

  datatype RingOp =
    | DoEnqueue(handle: ChunkHandle, waits: seq<WaitEvent>, notify: Notify)
    | DoDequeue
    | DoDrain
    | DoCloseAndDrain
    | DoDiscard(poolId: nat)

  predicate CrashFree(op: RingOp) {
    op.DoEnqueue? ==> OwnerDied !in op.waits
  }

  function ApplyRing(r: Ring, op: RingOp): Ring
    requires ValidRing(r)
  {
    match op
    case DoEnqueue(h, waits, notify) => Enqueue(r, h, waits, notify).0
    case DoDequeue => TryDequeue(r).0
    case DoDrain => Drain(r).0
    case DoCloseAndDrain => Drain(r).0.(closed := true)
    case DoDiscard(id) => DiscardPool(r, id)
  }

  /** How many handles an operation takes out without counting them as dequeued or evicted. */
  function Removed(r: Ring, op: RingOp): nat {
    match op
    case DoEnqueue(_, _, _) => 0
    case DoDequeue => 0
    case DoDrain => |r.items|
    case DoCloseAndDrain => |r.items|
    case DoDiscard(id) => |r.items| - |KeepOthers(r.items, id)|
  }

  lemma {:induction false} WaitConserves(r: Ring, waits: seq<WaitEvent>)
    requires ValidRing(r) && OwnerDied !in waits
    ensures var q := WaitForRoom(r, waits).0; q.dequeued + |q.items| == r.dequeued + |r.items|
    decreases |waits|
  {
    if |r.items| < r.capacity || r.closed || waits == [] || waits[0].DeadlinePassed? || waits[0].LockError? {
    } else {
      assert waits[0] in waits;
      WaitConserves(During(r, waits[0]), waits[1..]);
    }
  }

  ghost function RunRing(r: Ring, ops: seq<RingOp>): (q: Ring)
    requires ValidRing(r)
    ensures ValidRing(q)
    decreases |ops|
  {
    if ops == [] then r
    else RingOpKeeps(r, ops[0]); RunRing(ApplyRing(r, ops[0]), ops[1..])
  }

  ghost function TotalRemoved(r: Ring, ops: seq<RingOp>): nat
    requires ValidRing(r)
    decreases |ops|
  {
    if ops == [] then 0
    else RingOpKeeps(r, ops[0]); Removed(r, ops[0]) + TotalRemoved(ApplyRing(r, ops[0]), ops[1..])
  }

  lemma RingOpKeeps(r: Ring, op: RingOp)
    requires ValidRing(r)
    ensures ValidRing(ApplyRing(r, op))
  {
    if op.DoEnqueue? { WaitKeeps(r, op.waits); }
  }

  /** In every crash-free run, what was enqueued is still queued or was taken out exactly once. */
  lemma {:induction false} RingConservation(r: Ring, ops: seq<RingOp>)
    requires ValidRing(r)
    requires forall op :: op in ops ==> CrashFree(op)
    ensures var q := RunRing(r, ops);
            q.enqueued + r.dequeued + r.droppedOldest + |r.items|
            == r.enqueued + q.dequeued + q.droppedOldest + |q.items| + TotalRemoved(r, ops)
    decreases |ops|
  {
    if ops != [] {
      assert ops[0] in ops;
      RingOpKeeps(r, ops[0]);
      if ops[0].DoEnqueue? { WaitConserves(r, ops[0].waits); WaitKeeps(r, ops[0].waits); }
      RingConservation(ApplyRing(r, ops[0]), ops[1..]);
    }
  }

  // ---- what an enqueue answers ----

  /** The ring after the first `k` events of a wait. */
  function AfterEvents(r: Ring, waits: seq<WaitEvent>, k: nat): Ring
    requires k <= |waits|
  {
    if k == 0 then r else During(AfterEvents(r, waits, k - 1), waits[k - 1])
  }

  /** The wait goes on through the first `k` events: they are wake-ups and deaths, and leave the ring full. */
  ghost predicate WaitsThrough(r: Ring, waits: seq<WaitEvent>, k: nat) {
    k <= |waits| && forall j {:trigger GoesOn(r, waits, j)} :: 0 <= j < k ==> GoesOn(r, waits, j)
  }

  ghost predicate GoesOn(r: Ring, waits: seq<WaitEvent>, j: nat) {
    j < |waits| && Waits(AfterEvents(r, waits, j)) && (waits[j].Woken? || waits[j].OwnerDied?)
  }

  /** What a ring that need not be waited for makes of an offer. */
  ghost predicate Decides(w: Ring, h: ChunkHandle, notify: Notify, q: Ring, x: EnqueueResult) {
    && (w.closed ==> x.status == Closed && q == w)
    && (!w.closed && |w.items| == w.capacity && w.policy == DropNewest ==>
          x.status == DroppedNewest && q == w.(droppedNewest := w.droppedNewest + 1))
    && (!w.closed && |w.items| == w.capacity && w.policy == DropOldest ==>
          && w.items != [] && x == EnqueueResult(Accepted, Some(w.items[0]), false) && q.items == w.items[1..] + [h]
          && q.droppedOldest == w.droppedOldest + 1 && q.enqueued == w.enqueued + 1)
    && (!w.closed && w.items == [] && notify == Fails ==> x.status == NotificationFailed && q == w)
    && (!w.closed && |w.items| < w.capacity && !(w.items == [] && notify == Fails) ==>
          && x == EnqueueResult(Accepted, None, w.items == [] && notify == Sends) && q.items == w.items + [h]
          && q.droppedOldest == w.droppedOldest && q.enqueued == w.enqueued + 1)
  }

  /** How a wait that has come to event `k` ends, with the ring `w` that it found there. */
  ghost predicate Ends(w: Ring, waits: seq<WaitEvent>, k: nat, h: ChunkHandle, notify: Notify, q: Ring,
                       x: EnqueueResult) {
    if !Waits(w) then Decides(w, h, notify, q, x)
    else if k >= |waits| then x == Rejected(TimedOut) && q == w
    else if waits[k].DeadlinePassed? then x == Rejected(TimedOut) && q == During(w, waits[k])
    else waits[k].LockError? && x == Rejected(SynchronizationError) && q == w
  }

  /** The result of an enqueue is settled at the first event that ends its wait, or at once. */
  ghost predicate Settles(r: Ring, h: ChunkHandle, waits: seq<WaitEvent>, notify: Notify, q: Ring, x: EnqueueResult) {
    exists k :: WaitsThrough(r, waits, k) && Ends(AfterEvents(r, waits, k), waits, k, h, notify, q, x)
  }

  lemma {:induction false} AfterFirst(r: Ring, waits: seq<WaitEvent>, k: nat)
    requires 0 < k <= |waits|
    ensures AfterEvents(r, waits, k) == AfterEvents(During(r, waits[0]), waits[1..], k - 1)
  {
    if k > 1 { AfterFirst(r, waits, k - 1); }
  }

  lemma DecidesNow(w: Ring, h: ChunkHandle, notify: Notify)
    requires ValidRing(w) && !Waits(w)
    ensures var (q, x) := EnqueueNow(w, h, notify); Decides(w, h, notify, q, x)
  {
  }

  lemma EnqueueGoesOn(r: Ring, h: ChunkHandle, waits: seq<WaitEvent>, notify: Notify)
    requires ValidRing(r) && Waits(r) && waits != [] && (waits[0].Woken? || waits[0].OwnerDied?)
    ensures ValidRing(During(r, waits[0]))
    ensures Enqueue(r, h, waits, notify) == Enqueue(During(r, waits[0]), h, waits[1..], notify)
  {
    WaitKeeps(r, waits);
  }

  lemma ThroughNext(r: Ring, waits: seq<WaitEvent>, k: nat)
    requires waits != [] && GoesOn(r, waits, 0) && WaitsThrough(During(r, waits[0]), waits[1..], k)
    ensures WaitsThrough(r, waits, k + 1)
  {
    forall j | 0 <= j < k + 1 ensures GoesOn(r, waits, j) {
      if j > 0 {
        assert GoesOn(During(r, waits[0]), waits[1..], j - 1);
        AfterFirst(r, waits, j);
      }
    }
  }

  lemma EndsNext(w: Ring, waits: seq<WaitEvent>, k: nat, h: ChunkHandle, notify: Notify, q: Ring, x: EnqueueResult)
    requires waits != [] && Ends(w, waits[1..], k, h, notify, q, x)
    ensures Ends(w, waits, k + 1, h, notify, q, x)
  {
    if k < |waits[1..]| { assert waits[1..][k] == waits[k + 1]; }
  }

  lemma {:induction false} WaitEnds(r: Ring, h: ChunkHandle, waits: seq<WaitEvent>, notify: Notify) returns (k: nat)
    requires ValidRing(r)
    ensures WaitsThrough(r, waits, k)
    ensures var (q, x) := Enqueue(r, h, waits, notify); Ends(AfterEvents(r, waits, k), waits, k, h, notify, q, x)
    decreases |waits|
  {
    if !Waits(r) {
      k := 0;
      DecidesNow(r, h, notify);
    } else if waits == [] || waits[0].DeadlinePassed? || waits[0].LockError? {
      k := 0;
    } else {
      var next := During(r, waits[0]);
      var j := WaitEnds(next, h, waits[1..], notify);
      k := j + 1;
      EnqueueGoesOn(r, h, waits, notify);
      var (q, x) := Enqueue(next, h, waits[1..], notify);
      assert GoesOn(r, waits, 0);
      ThroughNext(r, waits, j);
      AfterFirst(r, waits, k);
      EndsNext(AfterEvents(next, waits[1..], j), waits, j, h, notify, q, x);
    }
  }

  /** Whatever happens while it waits, an enqueue answers what the ring it ends up with calls for. */
  lemma EnqueueSettles(r: Ring, h: ChunkHandle, waits: seq<WaitEvent>, notify: Notify)
    requires ValidRing(r)
    ensures var (q, x) := Enqueue(r, h, waits, notify); Settles(r, h, waits, notify, q, x)
  {
    var k := WaitEnds(r, h, waits, notify);
  }
}
