/** What every pool operation keeps, and how long a stale handle stays rejected. */
module PoolLemmas {
  import opened Basics
  import opened PoolModel

  /** All chunks other than `i` are the same in both pools, and so is everything fixed at creation. */
  ghost predicate SameExcept(p: Pool, q: Pool, i: nat) {
    && q.id == p.id && q.offsets == p.offsets && q.classes == p.classes
    && |q.chunks| == |p.chunks|
    && forall j {:trigger q.chunks[j]} {:trigger p.chunks[j]} ::
         0 <= j < |p.chunks| && j != i ==> q.chunks[j] == p.chunks[j]
  }

  /** Rewriting a chunk that is and stays in use keeps the pool well formed. */
  lemma SetChunkKeeps(p: Pool, i: nat, c: Chunk)
    requires ValidPool(p) && i < |p.chunks|
    requires p.chunks[i].state != Free && c.state != Free
    requires ChunkOk(SetChunk(p, i, c), i)
    ensures ValidPool(SetChunk(p, i, c))
  {
    BusyUpdate(p.chunks, i, c);
    var q := SetChunk(p, i, c);
    forall k | 0 <= k < |q.free| ensures FreeListOk(q, k) { assert FreeListOk(p, k); }
    forall j | 0 <= j < |q.chunks| ensures ChunkOk(q, j) { assert j != i ==> ChunkOk(p, j); }
  }

  /** Returning a chunk to its free list keeps the pool well formed. */
  lemma PutBackKeeps(p: Pool, i: nat, c: Chunk)
    requires ValidPool(p) && i < |p.chunks|
    requires p.chunks[i].state != Free && c.state == Free
    requires c.classIndex == p.chunks[i].classIndex && c.classIndex < |p.free|
    requires ChunkOk(PutBack(p, i, c), i)
    ensures ValidPool(PutBack(p, i, c))
  {
    BusyUpdate(p.chunks, i, c);
    var q := PutBack(p, i, c);
    forall k | 0 <= k < |q.free| ensures FreeListOk(q, k) {
      assert FreeListOk(p, k);
    }
    forall j | 0 <= j < |q.chunks| ensures ChunkOk(q, j) { assert j != i ==> ChunkOk(p, j); }
  }

  lemma TakeFreeKeeps(p: Pool, k: nat, size: nat)
    requires ValidPool(p) && k < |p.free| && p.free[k] != [] && size <= p.classes[k]
    ensures ValidPool(TakeFree(p, k, size))
  {
    var q := TakeFree(p, k, size);
    var last := |p.free[k]| - 1;
    var i := p.free[k][last];
    assert FreeListOk(p, k);
    assert ChunkOk(p, i);
    BusyUpdate(p.chunks, i, q.chunks[i]);
    forall m | 0 <= m < |q.free| ensures FreeListOk(q, m) { assert FreeListOk(p, m); }
    assert p.free[k] == p.free[k][..last] + [i];
    forall j | 0 <= j < |q.chunks| ensures ChunkOk(q, j) { assert ChunkOk(p, j); }
  }

  /** Allocation fails only for want of a class or of a free chunk, and then changes nothing. */
  lemma AllocateOutcome(p: Pool, size: nat)
    requires ValidPool(p)
    ensures var (q, a) := Allocate(p, size);
            && (a.error == Ok <==> CanAllocate(p, size))
            && (a.error != Ok ==>
                  q == p && a.error == if ClassFor(p.classes, size) == |p.classes| then MessageTooLarge
                    else PoolExhausted)
  {
    var k := ClassFor(p.classes, size);
    if k < |p.classes| && p.free[k] != [] {
      assert FreeListOk(p, k);
      assert ChunkOk(p, p.free[k][|p.free[k]| - 1]);
    }
  }

  lemma AllocateFacts(p: Pool, size: nat)
    requires ValidPool(p)
    ensures var (q, r) := Allocate(p, size);
            var k := ClassFor(p.classes, size);
            && ValidPool(q)
            && (r.error == MessageTooLarge <==> forall j :: 0 <= j < |p.classes| ==> p.classes[j] < size)
            && (r.error == PoolExhausted <==> k < |p.classes| && p.free[k] == [])
            && r.error in {Ok, MessageTooLarge, PoolExhausted}
            && (r.error != Ok ==> q == p)
            && (r.error == Ok ==>
                  && var i := r.handle.chunk;
                  && i < |p.chunks| && Matches(q, r.handle)
                  && p.chunks[i].state == Free
                  && q.chunks[i] == p.chunks[i].(generation := NextGeneration(p.chunks[i].generation),
                                                 payloadSize := size, sequence := 0, timestamp := 0,
                                                 state := Loaned)
                  && p.chunks[i].classIndex == k && size <= r.capacity == p.classes[k]
                  && SameExcept(p, q, i)
                  && q.allocations == p.allocations + 1 && q.reclaims == p.reclaims)
  {
    var k := ClassFor(p.classes, size);
    if k < |p.classes| && p.free[k] != [] {
      assert FreeListOk(p, k);
      assert ChunkOk(p, p.free[k][|p.free[k]| - 1]);
      TakeFreeKeeps(p, k, size);
    }
  }

  /** Dropping one reference frees the chunk exactly when it was the last one. */
  lemma ReleaseReferenceFacts(p: Pool, h: ChunkHandle)
    requires ValidPool(p)
    requires Matches(p, h) && p.chunks[h.chunk].state == Published
    ensures var (q, e) := ReleaseReference(p, h);
            var c := p.chunks[h.chunk];
            && e == Ok && ValidPool(q)
            && SameExcept(p, q, h.chunk)
            && q.chunks[h.chunk] ==
               (if c.refs == 1 then c.(refs := 0, payloadSize := 0, sequence := 0, timestamp := 0, state := Free)
                else c.(refs := c.refs - 1))
            && q.allocations == p.allocations
            && q.reclaims == p.reclaims + (if c.refs == 1 then 1 else 0)
  {
    var c := p.chunks[h.chunk];
    var p1 := Release(p, h).0;
    assert ChunkOk(p, h.chunk);
    SetChunkKeeps(p, h.chunk, p1.chunks[h.chunk]);
    if c.refs == 1 {
      var freed := c.(refs := 0, payloadSize := 0, sequence := 0, timestamp := 0, state := Free);
      PutBackKeeps(p1, h.chunk, freed);
    }
  }

  lemma PublishKeeps(p: Pool, h: ChunkHandle, data: seq<Byte>, sequence: nat, timestamp: nat, refs: nat)
    requires ValidPool(p) && refs < U32_LIMIT
    ensures ValidPool(WriteAndPublish(p, h, data, sequence, timestamp, refs).0)
    ensures ValidPool(PublishLoaned(p, h, |data|, sequence, timestamp, refs).0)
  {
    var (q, e) := WriteAndPublish(p, h, data, sequence, timestamp, refs);
    if e == Ok {
      assert ChunkOk(p, h.chunk);
      SetChunkKeeps(p, h.chunk, q.chunks[h.chunk]);
    }
    var (r, f) := PublishLoaned(p, h, |data|, sequence, timestamp, refs);
    if f == Ok {
      assert ChunkOk(p, h.chunk);
      SetChunkKeeps(p, h.chunk, r.chunks[h.chunk]);
    }
  }

  // ---- runs of arbitrary operations ----

  datatype PoolOp =
    | OpAllocate(size: nat)
    | OpWriteAndPublish(handle: ChunkHandle, data: seq<Byte>, sequence: nat, timestamp: nat, refs: nat)
    | OpPublishLoaned(handle: ChunkHandle, payloadSize: nat, sequence: nat, timestamp: nat, refs: nat)
    | OpAddReference(handle: ChunkHandle)
    | OpRelease(handle: ChunkHandle)
    | OpReclaim(handle: ChunkHandle)
    | OpCancel(handle: ChunkHandle)

  /** Reference counts passed in are 32-bit values. */
  predicate Fits(op: PoolOp) {
    (op.OpWriteAndPublish? || op.OpPublishLoaned?) ==> op.refs < U32_LIMIT
  }

  function Apply(p: Pool, op: PoolOp): (Pool, ErrorCode)
    requires Shaped(p)
  {
    match op
    case OpAllocate(size) => var (q, r) := Allocate(p, size); (q, r.error)
    case OpWriteAndPublish(h, data, s, t, n) => WriteAndPublish(p, h, data, s, t, n)
    case OpPublishLoaned(h, size, s, t, n) => PublishLoaned(p, h, size, s, t, n)
    case OpAddReference(h) => AddReference(p, h)
    case OpRelease(h) => var (q, r) := Release(p, h); (q, r.error)
    case OpReclaim(h) => Reclaim(p, h)
    case OpCancel(h) => Cancel(p, h)
  }

  /** Whether `op` allocates chunk `i` when run on `p`. */
  predicate Allocates(p: Pool, op: PoolOp, i: nat)
    requires Shaped(p)
  {
    op.OpAllocate? && Allocate(p, op.size).1.error == Ok && Allocate(p, op.size).1.handle.chunk == i
  }

  lemma InUseOpKeeps(p: Pool, op: PoolOp)
    requires ValidPool(p) && Fits(op)
    requires op.OpPublishLoaned? || op.OpAddReference? || op.OpRelease?
    ensures ValidPool(Apply(p, op).0)
  {
    var (q, e) := Apply(p, op);
    if e == Ok {
      assert ChunkOk(p, op.handle.chunk);
      SetChunkKeeps(p, op.handle.chunk, q.chunks[op.handle.chunk]);
    }
  }

  lemma FreeingOpKeeps(p: Pool, op: PoolOp)
    requires ValidPool(p)
    requires op.OpReclaim? || op.OpCancel?
    ensures ValidPool(Apply(p, op).0)
  {
    var (q, e) := Apply(p, op);
    if e == Ok {
      assert ChunkOk(p, op.handle.chunk);
      PutBackKeeps(p, op.handle.chunk, q.chunks[op.handle.chunk]);
    }
  }

  /** Every operation, on any handle whatever, keeps the pool well formed. */
  lemma ApplyKeeps(p: Pool, op: PoolOp)
    requires ValidPool(p) && Fits(op)
    ensures ValidPool(Apply(p, op).0)
  {
    match op
    case OpAllocate(size) => AllocateFacts(p, size);
    case OpWriteAndPublish(h, data, s, t, n) => PublishKeeps(p, h, data, s, t, n);
    case OpPublishLoaned(_, _, _, _, _) => InUseOpKeeps(p, op);
    case OpAddReference(_) => InUseOpKeeps(p, op);
    case OpRelease(_) => InUseOpKeeps(p, op);
    case OpReclaim(_) => FreeingOpKeeps(p, op);
    case OpCancel(_) => FreeingOpKeeps(p, op);
  }

  /** Only allocation moves a generation, and only that of the chunk it hands out. */
  lemma ApplyGeneration(p: Pool, op: PoolOp, i: nat)
    requires ValidPool(p) && i < |p.chunks|
    ensures var q := Apply(p, op).0;
            && q.id == p.id && q.offsets == p.offsets && |q.chunks| == |p.chunks|
            && q.chunks[i].generation ==
               if Allocates(p, op, i) then NextGeneration(p.chunks[i].generation) else p.chunks[i].generation
  {
    if op.OpAllocate? { AllocateFacts(p, op.size); }
  }

  ghost function RunOps(p: Pool, ops: seq<PoolOp>): (q: Pool)
    requires ValidPool(p)
    requires forall op :: op in ops ==> Fits(op)
    ensures ValidPool(q)
    ensures q.id == p.id && q.offsets == p.offsets && |q.chunks| == |p.chunks|
    decreases |ops|
  {
    if ops == [] then p
    else
      assert ops[0] in ops;
      ApplyKeeps(p, ops[0]);
      RunOps(Apply(p, ops[0]).0, ops[1..])
  }

  /** How often chunk `i` is allocated in the run. */
  ghost function Allocations(p: Pool, ops: seq<PoolOp>, i: nat): nat
    requires ValidPool(p)
    requires forall op :: op in ops ==> Fits(op)
    decreases |ops|
  {
    if ops == [] then 0
    else
      assert ops[0] in ops;
      ApplyKeeps(p, ops[0]);
      (if Allocates(p, ops[0], i) then 1 else 0) + Allocations(Apply(p, ops[0]).0, ops[1..], i)
  }

  function GenerationAfter(g: nat, n: nat): nat
    decreases n
  {
    if n == 0 then g else GenerationAfter(NextGeneration(g), n - 1)
  }

  const PERIOD: nat := 0xFFFF_FFFF

  lemma {:induction false} GenerationClosedForm(g: nat, n: nat)
    requires 1 <= g < U32_LIMIT
    ensures GenerationAfter(g, n) == (g - 1 + n) % PERIOD + 1
    decreases n
  {
    if n > 0 {
      var g' := NextGeneration(g);
      assert g' == if g == PERIOD then 1 else g + 1;
      GenerationClosedForm(g', n - 1);
      if g == PERIOD { ModStep(n - 1); }
    }
  }

  lemma {:induction false} RunGeneration(p: Pool, ops: seq<PoolOp>, i: nat)
    requires ValidPool(p) && i < |p.chunks|
    requires forall op :: op in ops ==> Fits(op)
    ensures RunOps(p, ops).chunks[i].generation
         == GenerationAfter(p.chunks[i].generation, Allocations(p, ops, i))
    decreases |ops|
  {
    if ops != [] {
      assert ops[0] in ops;
      ApplyKeeps(p, ops[0]);
      ApplyGeneration(p, ops[0], i);
      RunGeneration(Apply(p, ops[0]).0, ops[1..], i);
    }
  }

  lemma GenerationFromZero(n: nat)
    ensures GenerationAfter(0, n) == if n == 0 then 0 else (n - 1) % PERIOD + 1
  {
    if n > 0 {
      assert NextGeneration(0) == 1;
      GenerationClosedForm(1, n - 1);
    }
  }

  /**
  From a chunk never used before, the generation after n allocations is
  ((n - 1) mod (2^32 - 1)) + 1: never zero again, whatever else the run does.
  */
  lemma FirstUseGeneration(p: Pool, ops: seq<PoolOp>, i: nat, q: Pool, n: nat)
    requires ValidPool(p) && i < |p.chunks| && p.chunks[i].generation == 0
    requires forall op :: op in ops ==> Fits(op)
    requires q == RunOps(p, ops) && n == Allocations(p, ops, i)
    ensures i < |q.chunks| && q.chunks[i].generation == if n == 0 then 0 else (n - 1) % PERIOD + 1
  {
    RunGeneration(p, ops, i);
    GenerationFromZero(n);
  }

  /**
  A handle taken before k further allocations of its chunk is stale for every k that is not a
  multiple of 2^32 - 1, and matches again for every k that is.
  */
  lemma StaleHandle(p: Pool, ops: seq<PoolOp>, h: ChunkHandle)
    requires ValidPool(p) && Matches(p, h) && h.generation != 0
    requires forall op :: op in ops ==> Fits(op)
    ensures Matches(RunOps(p, ops), h) <==> Allocations(p, ops, h.chunk) % PERIOD == 0
  {
    RunGeneration(p, ops, h.chunk);
    assert ChunkOk(p, h.chunk);
    GenerationRecurs(h.generation, Allocations(p, ops, h.chunk));
  }

  lemma {:induction false} GenerationRecurs(g: nat, k: nat)
    requires 1 <= g < U32_LIMIT
    ensures GenerationAfter(g, k) == g <==> k % PERIOD == 0
    decreases k
  {
    GenerationClosedForm(g, k);
    if k >= PERIOD {
      GenerationClosedForm(g, k - PERIOD);
      ModStep(g - 1 + k - PERIOD);
      ModStep(k - PERIOD);
      GenerationRecurs(g, k - PERIOD);
    } else if g - 1 + k >= PERIOD {
      ModStep(g - 1 + k - PERIOD);
    }
  }

  lemma ModStep(x: nat)
    ensures (x + PERIOD) % PERIOD == x % PERIOD
  {
  }

  /**
  Over any run: an operation on a handle that was current is refused as stale exactly when its chunk has been
  allocated again some number of times that is not a multiple of 2^32 - 1, and then nothing can be read through it.
  */
  lemma StaleAfterRun(p: Pool, ops: seq<PoolOp>, op: PoolOp, viewId: nat, maxSize: nat)
    requires ValidPool(p) && !op.OpAllocate? && Matches(p, op.handle) && op.handle.generation != 0
    requires forall o :: o in ops ==> Fits(o)
    ensures var q := RunOps(p, ops);
            && (Apply(q, op).1 == InvalidChunkHandle <==> Allocations(p, ops, op.handle.chunk) % PERIOD != 0)
            && (Allocations(p, ops, op.handle.chunk) % PERIOD != 0 ==>
                  Apply(q, op).0 == q && Read(q, viewId, op.handle, maxSize).error != Ok)
  {
    StaleHandle(p, ops, op.handle);
    RefusedAsStale(RunOps(p, ops), op, viewId, maxSize);
  }

  lemma RefusedAsStale(q: Pool, op: PoolOp, viewId: nat, maxSize: nat)
    requires ValidPool(q) && !op.OpAllocate?
    ensures Apply(q, op).1 == InvalidChunkHandle <==> !Matches(q, op.handle)
    ensures !Matches(q, op.handle) ==> Apply(q, op).0 == q && Read(q, viewId, op.handle, maxSize).error != Ok
  {
  }

  // ---- what is read is what was published ----

  /** The chunk has not been lent out since, and while it is published it says what `c` says. */
  predicate SinceThen(c: Chunk, now: Chunk) {
    && now.state != Loaned && now.generation == c.generation && now.capacity == c.capacity
    && (now.state == Published ==>
          && now.payload == c.payload && now.payloadSize == c.payloadSize
          && now.sequence == c.sequence && now.timestamp == c.timestamp)
  }

  lemma StepSince(p: Pool, op: PoolOp, i: nat, c: Chunk)
    requires ValidPool(p) && i < |p.chunks| && !Allocates(p, op, i) && SinceThen(c, p.chunks[i])
    ensures |Apply(p, op).0.chunks| == |p.chunks| && SinceThen(c, Apply(p, op).0.chunks[i])
  {
    if op.OpAllocate? { AllocateFacts(p, op.size); }
  }

  lemma {:induction false} RunSince(p: Pool, ops: seq<PoolOp>, i: nat, c: Chunk)
    requires ValidPool(p) && i < |p.chunks| && (forall op :: op in ops ==> Fits(op))
    requires Allocations(p, ops, i) == 0 && SinceThen(c, p.chunks[i])
    ensures SinceThen(c, RunOps(p, ops).chunks[i])
    decreases |ops|
  {
    if ops != [] {
      assert ops[0] in ops;
      ApplyKeeps(p, ops[0]);
      StepSince(p, ops[0], i, c);
      RunSince(Apply(p, ops[0]).0, ops[1..], i, c);
    }
  }

  lemma ReadIs(q: Pool, h: ChunkHandle, c: Chunk, maxSize: nat)
    requires ValidPool(q) && Matches(q, h) && h.generation != 0 && c.payloadSize <= maxSize
    requires SinceThen(c, q.chunks[h.chunk]) && q.chunks[h.chunk].state == Published
    ensures c.payloadSize <= |c.payload|
    ensures Read(q, q.id, h, maxSize) == ChunkView(Ok, c.payload[..c.payloadSize], c.sequence, c.timestamp)
  {
    assert ChunkOk(q, h.chunk);
  }

  /**
  After any run in which the chunk is not allocated again, what can be read through the handle are the data, the
  sequence and the timestamp given at publication, for either way of publishing.
  */
  lemma ReadsBack(p: Pool, h: ChunkHandle, data: seq<Byte>, sequence: nat, timestamp: nat, refs: nat,
                  ops: seq<PoolOp>, maxSize: nat)
    requires ValidPool(p) && refs < U32_LIMIT && |data| <= maxSize && forall op :: op in ops ==> Fits(op)
    requires WriteAndPublish(p, h, data, sequence, timestamp, refs).1 == Ok
    ensures ValidPool(WriteAndPublish(p, h, data, sequence, timestamp, refs).0)
    ensures var q := WriteAndPublish(p, h, data, sequence, timestamp, refs).0;
            Allocations(q, ops, h.chunk) == 0 && RunOps(q, ops).chunks[h.chunk].state == Published ==>
              Read(RunOps(q, ops), p.id, h, maxSize) == ChunkView(Ok, data, sequence, timestamp)
  {
    PublishKeeps(p, h, data, sequence, timestamp, refs);
    assert ChunkOk(p, h.chunk);
    ReadsAfter(WriteAndPublish(p, h, data, sequence, timestamp, refs).0, h, ops, maxSize);
  }

  lemma LoanReadsBack(p: Pool, h: ChunkHandle, size: nat, sequence: nat, timestamp: nat, refs: nat,
                      ops: seq<PoolOp>, maxSize: nat)
    requires ValidPool(p) && refs < U32_LIMIT && size <= maxSize && forall op :: op in ops ==> Fits(op)
    requires PublishLoaned(p, h, size, sequence, timestamp, refs).1 == Ok
    ensures ValidPool(PublishLoaned(p, h, size, sequence, timestamp, refs).0)
    ensures size <= |p.chunks[h.chunk].payload|
    ensures var q := PublishLoaned(p, h, size, sequence, timestamp, refs).0;
            Allocations(q, ops, h.chunk) == 0 && RunOps(q, ops).chunks[h.chunk].state == Published ==>
              Read(RunOps(q, ops), p.id, h, maxSize)
              == ChunkView(Ok, p.chunks[h.chunk].payload[..size], sequence, timestamp)
  {
    InUseOpKeeps(p, OpPublishLoaned(h, size, sequence, timestamp, refs));
    assert ChunkOk(p, h.chunk);
    ReadsAfter(PublishLoaned(p, h, size, sequence, timestamp, refs).0, h, ops, maxSize);
  }

  lemma ReadsAfter(q: Pool, h: ChunkHandle, ops: seq<PoolOp>, maxSize: nat)
    requires ValidPool(q) && Matches(q, h) && q.chunks[h.chunk].state == Published
    requires q.chunks[h.chunk].payloadSize <= maxSize && forall op :: op in ops ==> Fits(op)
    ensures var c := q.chunks[h.chunk];
            && c.payloadSize <= |c.payload|
            && (Allocations(q, ops, h.chunk) == 0 && RunOps(q, ops).chunks[h.chunk].state == Published ==>
                  Read(RunOps(q, ops), q.id, h, maxSize)
                  == ChunkView(Ok, c.payload[..c.payloadSize], c.sequence, c.timestamp))
  {
    var c := q.chunks[h.chunk];
    assert ChunkOk(q, h.chunk);
    if Allocations(q, ops, h.chunk) == 0 && RunOps(q, ops).chunks[h.chunk].state == Published {
      RunSince(q, ops, h.chunk, c);
      ReadIs(RunOps(q, ops), h, c, maxSize);
    }
  }

  // ---- what the operations answer ----

  /** The pool after `k` releases of the handle. */
  ghost function Releases(p: Pool, h: ChunkHandle, k: nat): (q: Pool)
    requires Shaped(p)
    ensures Shaped(q)
  {
    if k == 0 then p else Release(Releases(p, h, k - 1), h).0
  }

  /**
  A chunk published with n references can be released n times, the last of which makes it Released; after that
  a release is answered as a duplicate and changes nothing.
  */
  lemma {:induction false} ReleasedOnce(p: Pool, h: ChunkHandle, k: nat)
    requires ValidPool(p) && Matches(p, h) && p.chunks[h.chunk].state == Published
    ensures var n, (q, r) := p.chunks[h.chunk].refs, Release(Releases(p, h, k), h);
            && (k < n ==> r == ReleaseResult(Ok, n - k - 1, k + 1 == n))
            && (k >= n ==> r == ReleaseResult(DuplicateRelease, 0, false) && q == Releases(p, h, k))
    ensures Matches(Releases(p, h, k), h)
    ensures var n, c := p.chunks[h.chunk].refs, Releases(p, h, k).chunks[h.chunk];
            if k < n then c == p.chunks[h.chunk].(refs := n - k)
              else c == p.chunks[h.chunk].(refs := 0, state := Released)
  {
    assert ChunkOk(p, h.chunk);
    if k > 0 { ReleasedOnce(p, h, k - 1); }
  }

  /** A loan is published once, by either way, and then neither again nor cancelled nor reclaimed. */
  lemma PublishedOnce(p: Pool, h: ChunkHandle, data: seq<Byte>, sequence: nat, timestamp: nat, refs: nat,
                      again: seq<Byte>)
    requires ValidPool(p) && Matches(p, h) && p.chunks[h.chunk].state == Loaned
    ensures var (q, e), (q', e') := WriteAndPublish(p, h, data, sequence, timestamp, refs),
                                    PublishLoaned(p, h, |data|, sequence, timestamp, refs);
            var good := |data| == p.chunks[h.chunk].payloadSize && sequence > 0 && refs > 0
                          && |data| <= p.chunks[h.chunk].capacity;
            && e == e' == (if good then Ok else InvalidArgument)
            && (!good ==> q == p && q' == p)
            && (good ==>
                  && WriteAndPublish(q, h, again, sequence, timestamp, refs) == (q, InvalidState)
                  && PublishLoaned(q', h, |again|, sequence, timestamp, refs) == (q', InvalidState)
                  && Cancel(q, h) == (q, InvalidState) && Cancel(q', h) == (q', InvalidState)
                  && Reclaim(q, h) == (q, InvalidState) && Reclaim(q', h) == (q', InvalidState))
  {
    assert ChunkOk(p, h.chunk);
  }

  /** What is read is there exactly while it is published; a handle that is not of this pool names nothing. */
  lemma ReadAnswers(p: Pool, viewId: nat, h: ChunkHandle, maxSize: nat)
    requires ValidPool(p)
    ensures var r := Read(p, viewId, h, maxSize);
            && (r.error == Ok <==>
                  && viewId == p.id && Matches(p, h) && p.chunks[h.chunk].state == Published
                  && p.chunks[h.chunk].payloadSize <= maxSize
                     && p.chunks[h.chunk].payloadSize <= p.chunks[h.chunk].capacity)
            && (viewId == p.id && Matches(p, h) && h.generation != 0 && r.error != Ok ==>
               r.error == InvalidSharedMemory)
            && (h.poolId != p.id || h.chunk >= |p.chunks| ==> r.error == InvalidChunkHandle)
  {
    if h.chunk < |p.chunks| { assert ChunkOk(p, h.chunk); }
  }
}
