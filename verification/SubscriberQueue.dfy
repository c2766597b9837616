/**
The shared subscriber queue as it is updated in place: head, tail and size over a fixed array of
slots, under a robust mutex. Every method is proved against its operation in RingModel. A process
that dies inside a critical section leaves the indices arbitrary; the next one to lock the mutex
resets them before it looks at anything.
*/
module SubscriberQueue {
  import opened Basics
  import opened PoolModel
  import opened RingModel

  /** What the next locker of the robust mutex is told. */
  datatype Mutex = Healthy | OwnerDead | NotRecoverable

  /** The slot `k` places after `head` in a ring of `capacity` slots. */
  function Slot(head: nat, k: nat, capacity: nat): (r: nat)
    requires head < capacity && k <= capacity
    ensures r < capacity
  {
    if head + k < capacity then head + k else head + k - capacity
  }

  /** Slots are numbered modulo the capacity. */
  lemma SlotIsModulo(head: nat, k: nat, capacity: nat)
    requires head < capacity && k <= capacity
    ensures (head + k) % capacity == Slot(head, k, capacity)
  {
    var x := head + k;
    if x >= capacity {
      assert x == capacity * 1 + (x - capacity);
      assert x / capacity == 1;
    } else {
      assert x / capacity == 0;
    }
  }

  /** The queued handles, oldest first. */
  function Window(slots: seq<ChunkHandle>, head: nat, size: nat): (r: seq<ChunkHandle>)
    requires head < |slots| && size <= |slots|
    ensures |r| == size
    ensures forall k :: 0 <= k < size ==> r[k] == slots[Slot(head, k, |slots|)]
  {
    seq(size, k requires 0 <= k < size => slots[Slot(head, k, |slots|)])
  }

  lemma WindowPush(slots: seq<ChunkHandle>, head: nat, size: nat, h: ChunkHandle)
    requires head < |slots| && size < |slots|
    ensures var t := Slot(head, size, |slots|);
            && Window(slots[t := h], head, size + 1) == Window(slots, head, size) + [h]
            && Window(slots[t := h], head, size) == Window(slots, head, size)
            && Slot(t, 1, |slots|) == Slot(head, size + 1, |slots|)
  {
  }

  lemma WindowPop(slots: seq<ChunkHandle>, head: nat, size: nat)
    requires head < |slots| && 0 < size <= |slots|
    ensures var next := Slot(head, 1, |slots|);
            && Window(slots, next, size - 1) == Window(slots, head, size)[1..]
            && Slot(next, size - 1, |slots|) == Slot(head, size, |slots|)
            && Window(slots, head, size)[0] == slots[head]
  {
    var next := Slot(head, 1, |slots|);
    forall k | 0 <= k < size - 1
      ensures Window(slots, next, size - 1)[k] == Window(slots, head, size)[1..][k]
    {
      assert Slot(next, k, |slots|) == Slot(head, k + 1, |slots|);
    }
  }

  /** The stable filter behind discardPool, one handle at a time. */
  lemma KeepNext(items: seq<ChunkHandle>, index: nat, poolId: nat)
    requires index < |items|
    ensures KeepOthers(items[..index + 1], poolId)
         == if poolId != 0 && items[index].poolId != poolId then KeepOthers(items[..index], poolId) + [items[index]]
            else KeepOthers(items[..index], poolId)
  {
    assert items[..index + 1][..index] == items[..index];
  }

  /** The first `index` handles have been looked at and the survivors moved to the front. */
  ghost predicate Compacted(
    slots: seq<ChunkHandle>, head: nat, items: seq<ChunkHandle>, poolId: nat, kept: nat, index: nat)
    requires head < |slots| && kept <= index <= |items| <= |slots|
  {
    forall n {:trigger CompactedAt(slots, head, items, poolId, kept, n)} ::
      n == index ==> CompactedAt(slots, head, items, poolId, kept, n)
  }

  ghost predicate CompactedAt(
    slots: seq<ChunkHandle>, head: nat, items: seq<ChunkHandle>, poolId: nat, kept: nat, index: nat)
    requires head < |slots| && kept <= index <= |items| <= |slots|
  {
    && Window(slots, head, kept) == KeepOthers(items[..index], poolId)
    && forall j :: index <= j < |items| ==> slots[Slot(head, j, |slots|)] == items[j]
  }

  lemma CompactStarts(slots: seq<ChunkHandle>, head: nat, items: seq<ChunkHandle>, poolId: nat)
    requires head < |slots| && |items| <= |slots| && items == Window(slots, head, |items|)
    ensures Compacted(slots, head, items, poolId, 0, 0)
  {
  }

  lemma CompactEnds(slots: seq<ChunkHandle>, head: nat, items: seq<ChunkHandle>, poolId: nat, kept: nat)
    requires head < |slots| && kept <= |items| <= |slots| && Compacted(slots, head, items, poolId, kept, |items|)
    ensures Window(slots, head, kept) == KeepOthers(items, poolId)
  {
    assert CompactedAt(slots, head, items, poolId, kept, |items|);
    assert items[..|items|] == items;
  }

  /** One round of the compaction loop. */
  lemma CompactNext(
    slots: seq<ChunkHandle>, head: nat, items: seq<ChunkHandle>, poolId: nat, kept: nat, index: nat)
    requires head < |slots| && kept <= index < |items| <= |slots|
    requires Compacted(slots, head, items, poolId, kept, index)
    ensures var h := slots[Slot(head, index, |slots|)];
            if poolId != 0 && h.poolId != poolId then
              Compacted(slots[Slot(head, kept, |slots|) := h], head, items, poolId, kept + 1, index + 1)
            else Compacted(slots, head, items, poolId, kept, index + 1)
  {
    assert CompactedAt(slots, head, items, poolId, kept, index);
    KeepNext(items, index, poolId);
    WindowPush(slots, head, kept, slots[Slot(head, index, |slots|)]);
  }

  class SharedQueue {
    const capacity: nat
    const policy: OverflowPolicy
    const slots: array<ChunkHandle>
    var head: nat
    var tail: nat
    var size: nat
    var closed: bool
    var enqueued: nat
    var dequeued: nat
    var droppedNewest: nat
    var droppedOldest: nat
    var mutex: Mutex

    /** `tail` is `head + size` modulo the capacity, unless a dead owner left the ring in pieces. */
    ghost predicate Valid()
      reads this
    {
      && 0 < capacity == slots.Length
      && (mutex == Healthy ==> head < capacity && size <= capacity && tail == Slot(head, size, capacity))
    }

    /** The ring as whoever locks it next will find it. */
    ghost function State(): (r: Ring)
      requires Valid()
      reads this, slots
      ensures ValidRing(r)
    {
      Ring(if mutex == Healthy then Window(slots[..], head, size) else [],
           capacity, policy, closed, enqueued, dequeued, droppedNewest, droppedOldest)
    }

    constructor (capacity: nat, policy: OverflowPolicy)
      requires 0 < capacity
      ensures Valid() && fresh(slots) && mutex == Healthy
      ensures State() == Ring([], capacity, policy, false, 0, 0, 0, 0)
    {
      this.capacity, this.policy := capacity, policy;
      slots := new ChunkHandle[capacity](_ => NO_HANDLE);
      head, tail, size, closed := 0, 0, 0, false;
      enqueued, dequeued, droppedNewest, droppedOldest := 0, 0, 0, 0;
      mutex := Healthy;
    }

    method Wrap(start: nat, k: nat) returns (r: nat)
      requires start < capacity && k <= capacity
      ensures r == Slot(start, k, capacity)
    {
      SlotIsModulo(start, k, capacity);
      r := (start + k) % capacity;
    }

    /** PthreadLock: a dead owner's ring is emptied before the lock is handed out. */
    method Lock() returns (locked: bool)
      requires Valid()
      modifies this`head, this`tail, this`size, this`mutex
      ensures Valid() && State() == old(State())
      ensures locked <==> old(mutex) != NotRecoverable
      ensures mutex == if locked then Healthy else NotRecoverable
    {
      if mutex == OwnerDead {
        head, tail, size := 0, 0, 0;
        mutex := Healthy;
      }
      locked := mutex == Healthy;
    }

    /**
    A process dies holding the mutex, having left indices, counters and slots as they are given; it
    may have set the closed flag, which nothing ever clears.
    */
    method Abandon(head: nat, tail: nat, size: nat, closing: bool, enqueued: nat, dequeued: nat,
                   droppedNewest: nat, droppedOldest: nat, contents: seq<ChunkHandle>)
      requires Valid() && mutex == Healthy && |contents| == slots.Length
      modifies this, slots
      ensures Valid() && mutex == OwnerDead && slots[..] == contents
      ensures State() == Ring([], capacity, policy, old(closed) || closing, enqueued, dequeued,
                              droppedNewest, droppedOldest)
    {
      this.head, this.tail, this.size, this.closed := head, tail, size, closed || closing;
      this.enqueued, this.dequeued := enqueued, dequeued;
      this.droppedNewest, this.droppedOldest := droppedNewest, droppedOldest;
      forall k | 0 <= k < slots.Length { slots[k] := contents[k]; }
      mutex := OwnerDead;
    }

    method Enqueue(h: ChunkHandle, waits: seq<WaitEvent>, notify: Notify) returns (r: EnqueueResult)
      requires Valid()
      modifies this, slots
      ensures Valid() && (old(mutex) != NotRecoverable ==> mutex == Healthy)
      ensures old(mutex) != NotRecoverable ==> (State(), r) == RingModel.Enqueue(old(State()), h, waits, notify)
      ensures old(mutex) == NotRecoverable ==> State() == old(State()) && r == Rejected(SynchronizationError)
      ensures old(mutex) != NotRecoverable ==> Settles(old(State()), h, waits, notify, State(), r)
    {
      r := EnqueueLocked(h, waits, notify);
      if old(mutex) != NotRecoverable { EnqueueSettles(old(State()), h, waits, notify); }
    }

    method EnqueueLocked(h: ChunkHandle, waits: seq<WaitEvent>, notify: Notify) returns (r: EnqueueResult)
      requires Valid()
      modifies this, slots
      ensures Valid() && (old(mutex) != NotRecoverable ==> mutex == Healthy)
      ensures old(mutex) != NotRecoverable ==> (State(), r) == RingModel.Enqueue(old(State()), h, waits, notify)
      ensures old(mutex) == NotRecoverable ==> State() == old(State()) && r == Rejected(SynchronizationError)
    {
      var locked := Lock();
      if !locked { return Rejected(SynchronizationError); }
      if closed { return Rejected(Closed); }
      if size == capacity {
        r := EnqueueFull(h, waits, notify);
      } else {
        r := Place(h, size == 0, notify);
      }
    }

    /** The overflow policies. */
    method EnqueueFull(h: ChunkHandle, waits: seq<WaitEvent>, notify: Notify) returns (r: EnqueueResult)
      requires Valid() && mutex == Healthy && size == capacity && !closed
      modifies this, slots
      ensures Valid() && mutex == Healthy
      ensures (State(), r) == RingModel.Enqueue(old(State()), h, waits, notify)
    {
      if policy == DropNewest {
        droppedNewest := droppedNewest + 1;
        r := Rejected(DroppedNewest);
      } else if policy == DropOldest {
        var dropped := Evict();
        r := Place(h, false, notify);
        r := r.(dropped := Some(dropped));
      } else {
        r := EnqueueWhenRoom(h, waits, notify);
      }
    }

    method EnqueueWhenRoom(h: ChunkHandle, waits: seq<WaitEvent>, notify: Notify) returns (r: EnqueueResult)
      requires Valid() && mutex == Healthy && size == capacity && !closed && policy == BlockWithTimeout
      modifies this, slots
      ensures Valid() && mutex == Healthy
      ensures (State(), r) == RingModel.Enqueue(old(State()), h, waits, notify)
    {
      WaitKeeps(State(), waits);
      var failure := WaitUntilRoom(waits);
      if failure.Some? {
        r := Rejected(failure.value);
      } else {
        r := PlaceUnlessClosed(h, notify);
      }
    }

    /** The end of a successful wait. */
    method PlaceUnlessClosed(h: ChunkHandle, notify: Notify) returns (r: EnqueueResult)
      requires Valid() && mutex == Healthy && (size < capacity || closed)
      modifies this`tail, this`size, this`enqueued, slots
      ensures Valid() && mutex == Healthy
      ensures (State(), r) == EnqueueNow(old(State()), h, notify)
    {
      if closed {
        r := Rejected(Closed);
      } else {
        r := Place(h, size == 0, notify);
      }
    }

    method Evict() returns (oldest: ChunkHandle)
      requires Valid() && mutex == Healthy && 0 < size
      modifies this`head, this`size, this`droppedOldest
      ensures Valid()
      ensures var s := old(State());
              oldest == s.items[0] && State() == s.(items := s.items[1..], droppedOldest := s.droppedOldest + 1)
    {
      WindowPop(slots[..], head, size);
      oldest := slots[head];
      head := Wrap(head, 1);
      size := size - 1;
      droppedOldest := droppedOldest + 1;
    }

    /** The wait loop of enqueue; `waits` says what each return from the timed wait observes. */
    method WaitUntilRoom(waits: seq<WaitEvent>) returns (failure: Option<EnqueueStatus>)
      requires Valid() && mutex == Healthy
      modifies this`head, this`tail, this`size, this`closed, this`dequeued
      ensures Valid() && mutex == Healthy
      ensures (State(), failure) == WaitForRoom(old(State()), waits)
    {
      var next := 0;
      while size == capacity && !closed
        invariant Valid() && mutex == Healthy && next <= |waits|
        invariant WaitForRoom(State(), waits[next..]) == WaitForRoom(old(State()), waits)
        decreases |waits| - next
      {
        ghost var before := State();
        if next == |waits| { return Some(TimedOut); }
        match waits[next] {
          case DeadlinePassed(taken, closing) =>
            Consume(Min(taken, size), closing);
            return Some(TimedOut);
          case LockError => return Some(SynchronizationError);
          case Woken(taken, closing) => Consume(Min(taken, size), closing);
          case OwnerDied => head, tail, size := 0, 0, 0;
        }
        assert State() == During(before, waits[next]);
        assert waits[next..][1..] == waits[next + 1..];
        next := next + 1;
      }
      failure := None;
    }

    /** What consumers do while a producer waits: take `n` handles, and perhaps close the queue. */
    method Consume(n: nat, closing: bool)
      requires Valid() && mutex == Healthy && n <= size
      modifies this`head, this`size, this`closed, this`dequeued
      ensures Valid()
      ensures State() == Consumed(old(State()), n, closing)
    {
      ghost var first := State();
      var k := 0;
      while k < n
        invariant 0 <= k <= n && Valid() && size == old(size) - k
        invariant State() == Consumed(first, k, false)
      {
        ConsumedNext(first, k);
        Pop();
        k := k + 1;
      }
      closed := closed || closing;
    }

    method Pop()
      requires Valid() && mutex == Healthy && size > 0
      modifies this`head, this`size, this`dequeued
      ensures Valid() && size == old(size) - 1
      ensures State() == old(State()).(items := old(State()).items[1..], dequeued := old(dequeued) + 1)
    {
      WindowPop(slots[..], head, size);
      head := Wrap(head, 1);
      size := size - 1;
      dequeued := dequeued + 1;
    }

    /** Writes the slot at `tail`; a wake that is due and fails takes the write back. */
    method Place(h: ChunkHandle, needsNotification: bool, notify: Notify) returns (r: EnqueueResult)
      requires Valid() && mutex == Healthy && size < capacity
      modifies this`tail, this`size, this`enqueued, slots
      ensures Valid()
      ensures var s := old(State());
              if needsNotification && notify == Fails then
                State() == s && r == Rejected(NotificationFailed)
              else
                && State() == s.(items := s.items + [h], enqueued := s.enqueued + 1)
                && r == EnqueueResult(Accepted, None, needsNotification && notify == Sends)
    {
      WindowPush(slots[..], head, size, h);
      slots[tail] := h;
      assert slots[..] == old(slots[..])[tail := h];
      tail := Wrap(tail, 1);
      size := size + 1;
      enqueued := enqueued + 1;
      if needsNotification && notify == Fails {
        tail := if tail == 0 then capacity - 1 else tail - 1;
        size := size - 1;
        enqueued := enqueued - 1;
        return Rejected(NotificationFailed);
      }
      r := EnqueueResult(Accepted, None, needsNotification && notify == Sends);
    }

    method TryDequeue() returns (r: Option<ChunkHandle>)
      requires Valid()
      modifies this
      ensures Valid() && (old(mutex) != NotRecoverable ==> mutex == Healthy)
      ensures (State(), r) == RingModel.TryDequeue(old(State()))
    {
      var locked := Lock();
      if !locked || size == 0 { return None; }
      WindowPop(slots[..], head, size);
      r := Some(slots[head]);
      Pop();
    }

    method Peek() returns (r: Option<ChunkHandle>)
      requires Valid()
      modifies this
      ensures Valid() && (old(mutex) != NotRecoverable ==> mutex == Healthy)
      ensures State() == old(State())
      ensures r == if State().items == [] then None else Some(State().items[0])
    {
      var locked := Lock();
      if !locked || size == 0 { return None; }
      WindowPop(slots[..], head, size);
      r := Some(slots[head]);
    }

    /** The common loop of drain and closeAndDrain. */
    method Empty() returns (handles: seq<ChunkHandle>)
      requires Valid() && mutex == Healthy
      modifies this`head, this`tail, this`size
      ensures Valid()
      ensures (State(), handles) == RingModel.Drain(old(State()))
    {
      handles := [];
      ghost var items := State().items;
      while size != 0
        invariant Valid() && |handles| + size == |items|
        invariant handles == items[..|handles|]
        invariant Window(slots[..], head, size) == items[|handles|..]
        decreases size
      {
        WindowPop(slots[..], head, size);
        handles := handles + [slots[head]];
        head := Wrap(head, 1);
        size := size - 1;
      }
      tail := head;
      assert handles == items;
    }

    /** Drain, and with `closing` closeAndDrain: a failure means the mutex is beyond recovery. */
    method Drain(closing: bool) returns (handles: Option<seq<ChunkHandle>>)
      requires Valid()
      modifies this
      ensures Valid() && (old(mutex) != NotRecoverable ==> mutex == Healthy)
      ensures handles.None? <==> old(mutex) == NotRecoverable
      ensures handles.None? ==> State() == old(State())
      ensures handles.Some? ==>
                && handles.value == old(State()).items
                && State() == RingModel.Drain(old(State())).0.(closed := old(closed) || closing)
    {
      var locked := Lock();
      if !locked { return None; }
      if closing { closed := true; }
      var taken := Empty();
      handles := Some(taken);
    }

    /** Removes one pool's handles by compacting the survivors in place, in their order. */
    method DiscardPool(poolId: nat)
      requires Valid()
      modifies this, slots
      ensures Valid() && (old(mutex) != NotRecoverable ==> mutex == Healthy)
      ensures State() == RingModel.DiscardPool(old(State()), poolId)
    {
      var locked := Lock();
      if !locked { return; }
      var kept := Compact(poolId);
      tail := Wrap(head, kept);
      size := kept;
    }

    method Compact(poolId: nat) returns (kept: nat)
      requires Valid() && mutex == Healthy
      modifies slots
      ensures kept <= size
      ensures Window(slots[..], head, kept) == KeepOthers(old(State()).items, poolId)
    {
      ghost var items := Window(slots[..], head, size);
      CompactStarts(slots[..], head, items, poolId);
      kept := 0;
      var index := 0;
      while index < size
        invariant 0 <= kept <= index <= size
        invariant Compacted(slots[..], head, items, poolId, kept, index)
      {
        kept := CompactAt(poolId, kept, index, items);
        index := index + 1;
      }
      CompactEnds(slots[..], head, items, poolId, kept);
    }

    method CompactAt(poolId: nat, kept: nat, index: nat, ghost items: seq<ChunkHandle>) returns (next: nat)
      requires Valid() && mutex == Healthy && kept <= index < size == |items|
      requires Compacted(slots[..], head, items, poolId, kept, index)
      modifies slots
      ensures next <= index + 1 && Compacted(slots[..], head, items, poolId, next, index + 1)
    {
      CompactNext(slots[..], head, items, poolId, kept, index);
      next := kept;
      var from := Wrap(head, index);
      if poolId != 0 && slots[from].poolId != poolId {
        var to := Wrap(head, kept);
        CopySlot(from, to);
        next := kept + 1;
      }
    }

    method CopySlot(from: nat, to: nat)
      requires from < slots.Length && to < slots.Length
      modifies slots
      ensures slots[..] == old(slots[..])[to := old(slots[from])]
    {
      slots[to] := slots[from];
    }

    /** The registry closes the queue of a node that has died; `busy` when another process holds it. */
    method RecoverAndClose(busy: bool) returns (ok: bool)
      requires Valid()
      modifies this
      ensures Valid()
      ensures ok <==> !busy && old(mutex) != NotRecoverable
      ensures ok ==> mutex == Healthy && State() == old(State()).(items := [], closed := true)
      ensures !ok ==> State() == old(State())
    {
      if busy { return false; }
      ok := Lock();
      if ok {
        head, tail, size := 0, 0, 0;
        closed := true;
      }
    }
  }
}
