/**
The publisher's chunk pool as a value: chunk headers, per-class free lists and the
lifecycle operations of middleware/src/detail/memory_pool.cpp. The class in
MemoryPool.dfy implements these operations in place.
*/
module PoolModel {
  import opened Basics

  datatype ChunkState = Free | Loaned | Published | Released

  datatype ChunkHandle = ChunkHandle(poolId: nat, chunk: nat, generation: nat, offset: nat)

  /** A chunk header together with the bytes of its payload area. */
  datatype Chunk = Chunk(
    refs: nat,
    state: ChunkState,
    payloadSize: nat,
    capacity: nat,
    classIndex: nat,
    generation: nat,
    sequence: nat,
    timestamp: nat,
    payload: seq<Byte>)

  /** `offsets[i]` is the payload offset of chunk `i`; `classes[k]` the capacity of class `k`. */
  datatype Pool = Pool(
    id: nat,
    offsets: seq<nat>,
    classes: seq<nat>,
    chunks: seq<Chunk>,
    free: seq<seq<nat>>,
    allocations: nat,
    reclaims: nat)

  datatype AllocationResult = AllocationResult(error: ErrorCode, handle: ChunkHandle, capacity: nat)

  datatype ReleaseResult = ReleaseResult(error: ErrorCode, remaining: nat, becameReleased: bool)

  datatype ChunkView = ChunkView(error: ErrorCode, payload: seq<Byte>, sequence: nat, timestamp: nat)

  const NO_HANDLE: ChunkHandle := ChunkHandle(0, 0, 0, 0)

  /** The 32-bit generation counter skips zero when it wraps. */
  function NextGeneration(g: nat): (r: nat) {
    var bumped := (g + 1) % U32_LIMIT;
    if bumped == 0 then 1 else bumped
  }

  // ---- well-formedness ----

  ghost predicate ChunkOk(p: Pool, i: nat)
    requires i < |p.chunks|
  {
    var c := p.chunks[i];
    && c.classIndex < |p.classes|
    && c.capacity == p.classes[c.classIndex]
    && c.capacity < U32_LIMIT
    && |c.payload| == c.capacity
    && c.payloadSize <= c.capacity
    && c.generation < U32_LIMIT
    && c.refs < U32_LIMIT
    && (c.state != Free ==> c.generation != 0)
    && (c.state == Published <==> c.refs != 0)
    && (c.state == Published ==> c.sequence != 0)
    && (c.state == Free ==> c.classIndex < |p.free| && i in p.free[c.classIndex])
  }

  ghost predicate FreeListOk(p: Pool, k: nat)
    requires k < |p.free|
  {
    && NoDup(p.free[k])
    && forall j :: 0 <= j < |p.free[k]| ==>
                     && p.free[k][j] < |p.chunks|
                     && p.chunks[p.free[k][j]].state == Free
                     && p.chunks[p.free[k][j]].classIndex == k
  }

  /** The vectors line up, so that no index used by an operation is out of range. */
  ghost predicate Shaped(p: Pool) {
    && |p.offsets| == |p.chunks|
    && |p.free| == |p.classes|
    && (forall k, j :: 0 <= k < |p.free| && 0 <= j < |p.free[k]| ==> p.free[k][j] < |p.chunks|)
    && (forall i :: 0 <= i < |p.chunks| ==>
                      p.chunks[i].classIndex < |p.free| && |p.chunks[i].payload| == p.chunks[i].capacity)
  }

  ghost predicate ValidPool(p: Pool) {
    && p.id != 0
    && Shaped(p)
    && (forall i :: 0 <= i < |p.chunks| ==> ChunkOk(p, i))
    && (forall k :: 0 <= k < |p.free| ==> FreeListOk(p, k))
    && p.allocations == p.reclaims + Busy(p.chunks)
  }

  /** The number of chunks that are not Free. */
  function Busy(chunks: seq<Chunk>): (n: nat)
    ensures n <= |chunks|
  {
    if chunks == [] then 0
    else Busy(chunks[..|chunks| - 1]) + (if chunks[|chunks| - 1].state == Free then 0 else 1)
  }

  lemma {:induction false} BusyUpdate(chunks: seq<Chunk>, i: nat, c: Chunk)
    requires i < |chunks|
    ensures Busy(chunks[i := c]) + (if chunks[i].state == Free then 0 else 1)
         == Busy(chunks) + (if c.state == Free then 0 else 1)
  {
    var last := |chunks| - 1;
    if i == last {
      assert chunks[i := c][..last] == chunks[..last];
    } else {
      assert chunks[i := c][..last] == chunks[..last][i := c];
      BusyUpdate(chunks[..last], i, c);
    }
  }

  // ---- handles ----

  function HandleOf(p: Pool, i: nat): ChunkHandle
    requires Shaped(p) && i < |p.chunks|
  {
    ChunkHandle(p.id, i, p.chunks[i].generation, p.offsets[i])
  }

  /** The index check and handleMatches together: the handle names its chunk's current use. */
  predicate Matches(p: Pool, h: ChunkHandle)
    requires Shaped(p)
  {
    && h.chunk < |p.chunks|
    && h.poolId == p.id
    && h.generation == p.chunks[h.chunk].generation
    && h.offset == p.offsets[h.chunk]
  }

  function SetChunk(p: Pool, i: nat, c: Chunk): Pool
    requires i < |p.chunks|
  {
    p.(chunks := p.chunks[i := c])
  }

  // ---- operations ----

  /** The first class whose capacity holds `size`, or the class count. */
  function ClassFor(classes: seq<nat>, size: nat): (k: nat)
    ensures k <= |classes|
    ensures k < |classes| ==> classes[k] >= size
    ensures forall j :: 0 <= j < k ==> classes[j] < size
  {
    if classes == [] || classes[0] >= size then 0 else 1 + ClassFor(classes[1..], size)
  }

  function Allocate(p: Pool, size: nat): (r: (Pool, AllocationResult))
    requires Shaped(p)
    ensures Shaped(r.0)
  {
    var k := ClassFor(p.classes, size);
    if k == |p.classes| then (p, AllocationResult(MessageTooLarge, NO_HANDLE, 0))
    else if p.free[k] == [] then (p, AllocationResult(PoolExhausted, NO_HANDLE, 0))
    else
      var i := p.free[k][|p.free[k]| - 1];
      var c := p.chunks[i];
      if c.state != Free || c.refs != 0 then (p, AllocationResult(InvalidState, NO_HANDLE, 0))
      else
        var p' := TakeFree(p, k, size);
        (p', AllocationResult(Ok, HandleOf(p', i), c.capacity))
  }

  /** The smallest class that is large enough has a free chunk. */
  predicate CanAllocate(p: Pool, size: nat)
    requires Shaped(p)
  {
    var k := ClassFor(p.classes, size);
    k < |p.classes| && p.free[k] != []
  }

  /** Pops the last free chunk of class `k` and puts it on loan. */
  function TakeFree(p: Pool, k: nat, size: nat): (q: Pool)
    requires Shaped(p) && k < |p.free| && p.free[k] != []
    ensures Shaped(q)
  {
    var last := |p.free[k]| - 1;
    var i := p.free[k][last];
    var c := p.chunks[i];
    SetChunk(p, i, c.(generation := NextGeneration(c.generation), payloadSize := size % U32_LIMIT,
                      sequence := 0, timestamp := 0, state := Loaned))
    .(free := p.free[k := p.free[k][..last]], allocations := p.allocations + 1)
  }

  /** The checks shared by both publish paths. */
  function PublishCheck(p: Pool, h: ChunkHandle, size: nat, sequence: nat, refs: nat): ErrorCode
    requires Shaped(p)
  {
    if !Matches(p, h) then InvalidChunkHandle
    else
      var c := p.chunks[h.chunk];
      if c.state != Loaned then InvalidState
      else if size != c.payloadSize || size > c.capacity || sequence == 0 || refs == 0 then InvalidArgument
      else Ok
  }

  function PublishLoaned(p: Pool, h: ChunkHandle, size: nat, sequence: nat, timestamp: nat, refs: nat)
    : (r: (Pool, ErrorCode))
    requires Shaped(p)
    ensures Shaped(r.0)
  {
    var e := PublishCheck(p, h, size, sequence, refs);
    if e != Ok then (p, e)
    else
      (SetChunk(p, h.chunk, p.chunks[h.chunk].(sequence := sequence, timestamp := timestamp,
                                               refs := refs, state := Published)), Ok)
  }

  /** Overwrites the front of a payload area, as memcpy into it does. */
  function Overwrite(area: seq<Byte>, data: seq<Byte>): (r: seq<Byte>)
    requires |data| <= |area|
    ensures |r| == |area| && r[..|data|] == data && r[|data|..] == area[|data|..]
  {
    data + area[|data|..]
  }

  function WriteAndPublish(p: Pool, h: ChunkHandle, data: seq<Byte>, sequence: nat, timestamp: nat, refs: nat)
    : (r: (Pool, ErrorCode))
    requires Shaped(p)
    ensures Shaped(r.0)
  {
    var e := PublishCheck(p, h, |data|, sequence, refs);
    if e != Ok then (p, e)
    else
      var c := p.chunks[h.chunk];
      (SetChunk(p, h.chunk, c.(payload := Overwrite(c.payload, data), sequence := sequence,
                               timestamp := timestamp, refs := refs, state := Published)), Ok)
  }

  function AddReference(p: Pool, h: ChunkHandle): (r: (Pool, ErrorCode))
    requires Shaped(p)
    ensures Shaped(r.0)
  {
    if !Matches(p, h) then (p, InvalidChunkHandle)
    else
      var c := p.chunks[h.chunk];
      if c.state != Published then (p, InvalidState)
      else if c.refs == 0 || c.refs == U32_LIMIT - 1 then (p, InvalidState)
      else (SetChunk(p, h.chunk, c.(refs := c.refs + 1)), Ok)
  }

  function Release(p: Pool, h: ChunkHandle): (r: (Pool, ReleaseResult))
    requires Shaped(p)
    ensures Shaped(r.0)
  {
    if !Matches(p, h) then (p, ReleaseResult(InvalidChunkHandle, 0, false))
    else
      var c := p.chunks[h.chunk];
      if c.state != Published then (p, ReleaseResult(DuplicateRelease, c.refs, false))
      else if c.refs == 0 then (p, ReleaseResult(DuplicateRelease, 0, false))
      else if c.refs == 1 then
        (SetChunk(p, h.chunk, c.(refs := 0, state := Released)), ReleaseResult(Ok, 0, true))
      else
        (SetChunk(p, h.chunk, c.(refs := c.refs - 1)), ReleaseResult(Ok, c.refs - 1, false))
  }

  /** Puts chunk `i` back on the free list of its class. */
  function PutBack(p: Pool, i: nat, c: Chunk): Pool
    requires i < |p.chunks| && c.classIndex < |p.free|
  {
    SetChunk(p, i, c).(free := p.free[c.classIndex := p.free[c.classIndex] + [i]],
                       reclaims := p.reclaims + 1)
  }

  function Reclaim(p: Pool, h: ChunkHandle): (r: (Pool, ErrorCode))
    requires Shaped(p)
    ensures Shaped(r.0)
  {
    if !Matches(p, h) then (p, InvalidChunkHandle)
    else
      var c := p.chunks[h.chunk];
      if c.state != Released || c.refs != 0 then (p, InvalidState)
      else (PutBack(p, h.chunk, c.(payloadSize := 0, sequence := 0, timestamp := 0, state := Free)), Ok)
  }

  function Cancel(p: Pool, h: ChunkHandle): (r: (Pool, ErrorCode))
    requires Shaped(p)
    ensures Shaped(r.0)
  {
    if !Matches(p, h) then (p, InvalidChunkHandle)
    else
      var c := p.chunks[h.chunk];
      if c.state != Loaned then (p, InvalidState)
      else (PutBack(p, h.chunk, c.(payloadSize := 0, state := Free)), Ok)
  }

  /** Publisher::Impl::releaseReference: drop one reference and reclaim after the last. */
  function ReleaseReference(p: Pool, h: ChunkHandle): (r: (Pool, ErrorCode))
    requires Shaped(p)
    ensures Shaped(r.0)
  {
    var (p1, r) := Release(p, h);
    if r.error != Ok then (p1, r.error)
    else if r.becameReleased then Reclaim(p1, h)
    else (p1, Ok)
  }

  /** The application fills the front of a chunk it has on loan. */
  function WriteLoan(p: Pool, h: ChunkHandle, data: seq<Byte>): (r: Pool)
    requires Shaped(p)
    ensures Shaped(r)
  {
    if Matches(p, h) && p.chunks[h.chunk].state == Loaned && |data| <= p.chunks[h.chunk].capacity then
      var c := p.chunks[h.chunk];
      SetChunk(p, h.chunk, c.(payload := Overwrite(c.payload, data)))
    else p
  }

  /** MemoryPoolView::read by a view opened on pool `viewId`. */
  function Read(p: Pool, viewId: nat, h: ChunkHandle, maxSize: nat): ChunkView
    requires Shaped(p)
  {
    if h.poolId != viewId || viewId != p.id || h.chunk >= |p.chunks| || h.generation == 0
       || h.offset != p.offsets[h.chunk] then
      ChunkView(InvalidChunkHandle, [], 0, 0)
    else
      var c := p.chunks[h.chunk];
      if c.state != Published || c.generation != h.generation || c.payloadSize > c.capacity
         || c.payloadSize > maxSize || c.refs == 0 || c.sequence == 0 then
        ChunkView(InvalidSharedMemory, [], 0, 0)
      else
        ChunkView(Ok, c.payload[..c.payloadSize], c.sequence, c.timestamp)
  }
}
