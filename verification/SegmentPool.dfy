/**
The pool's chunks as they lie in the segment: which pool an image stands for, and that what a view
reads from the bytes is what the pool holds.
*/
module SegmentPool {
  import opened Basics
  import opened BigEndian
  import opened SegmentLayout
  import opened SegmentImage
  import SC = SegmentCreate
  import SO = SegmentOpen
  import PM = PoolModel

  function StateOf(n: nat): PM.ChunkState {
    if n == 0 then PM.Free else if n == 1 then PM.Loaned else if n == 2 then PM.Published else PM.Released
  }

  function NumberOf(s: PM.ChunkState): nat {
    match s
    case Free => 0
    case Loaned => 1
    case Published => 2
    case Released => 3
  }

  /** Entry `e` describes a chunk that lies inside `b`. */
  predicate Inside(b: seq<Byte>, e: Entry) {
    e.payload == e.header + CHUNK_HEADER_SIZE && ChunkEnd(e) <= |b|
  }

  /** The chunk that the bytes at `e` stand for. */
  function ChunkAt(b: seq<Byte>, e: Entry): PM.Chunk
    requires Inside(b, e)
  {
    var c := SO.ChunkIn(b, e.header);
    PM.Chunk(c.refs, StateOf(c.state), c.payloadSize, c.capacity, c.classIndex, c.generation, c.sequence, c.timestamp,
             ReadAt(b, e.payload, e.capacity))
  }

  /** The image stands for the pool, chunk by chunk. */
  ghost predicate Mirrors(b: seq<Byte>, directory: seq<Entry>, p: PM.Pool) {
    && WellPlaced(directory, 0, |b|) && |p.chunks| == |p.offsets| == |directory|
    && forall i :: 0 <= i < |directory| ==>
       p.offsets[i] == directory[i].payload && p.chunks[i] == ChunkAt(b, directory[i])
  }

  /** MemoryPoolView::read returns from the bytes what the pool holds, or the same error. */
  method Read(b: seq<Byte>, d: SO.Descriptor, v: SO.View, h: PM.ChunkHandle, maxSize: nat, ghost p: PM.Pool)
    returns (r: SO.ReadResult)
    requires Mirrors(b, v.directory, p) && SO.ChunksOk(b, d, v.directory) && p.id == d.poolId && PM.Shaped(p)
    ensures var q := PM.Read(p, d.poolId, h, maxSize);
            && r.error == q.error
            && (r.error == Ok ==>
                  && r.offset + r.size <= |b| && q.payload == ReadAt(b, r.offset, r.size)
                  && q.sequence == r.sequence && q.timestamp == r.timestamp)
  {
    r := SO.Read(b, d, v, h.poolId, h.chunk, h.generation, h.offset, maxSize);
    if h.chunk < |v.directory| {
      ghost var e := v.directory[h.chunk];
      assert SO.ChunkOk(b, d, e) && p.chunks[h.chunk] == ChunkAt(b, e);
      if r.error == Ok { assert ReadAt(b, e.payload, e.capacity)[..r.size] == ReadAt(b, e.payload, r.size); }
    }
  }

  // ---- what the pool changes in the image ----

  function HeaderFor(c: PM.Chunk, topicId: nat, poolId: nat): ChunkHeader {
    ChunkHeader(c.refs, NumberOf(c.state), c.payloadSize, c.capacity, c.classIndex, c.generation, c.sequence,
                c.timestamp, topicId, poolId, 0)
  }

  ghost predicate Storable(c: PM.Chunk, e: Entry, topicId: nat, poolId: nat) {
    Fits(CHUNK_WIDTHS, ChunkFields(HeaderFor(c, topicId, poolId))) && |c.payload| == e.capacity
  }

  /** The image with chunk `c` in the place of entry `e`. */
  function Store(b: seq<Byte>, e: Entry, c: PM.Chunk, topicId: nat, poolId: nat): (r: seq<Byte>)
    requires Inside(b, e) && |c.payload| == e.capacity
    ensures |r| == |b|
  {
    WriteAt(WriteAt(b, e.header, EncodeChunk(HeaderFor(c, topicId, poolId))), e.payload, c.payload)
  }

  lemma StoredHere(b: seq<Byte>, e: Entry, c: PM.Chunk, topicId: nat, poolId: nat)
    requires Inside(b, e) && Storable(c, e, topicId, poolId)
    ensures ChunkAt(Store(b, e, c, topicId, poolId), e) == c
  {
    var data := EncodeChunk(HeaderFor(c, topicId, poolId));
    var m := WriteAt(b, e.header, data);
    ReadBack(b, e.header, data);
    ReadElsewhere(m, e.payload, c.payload, e.header, CHUNK_HEADER_SIZE);
    ReadBack(m, e.payload, c.payload);
    ChunkRoundTrip(HeaderFor(c, topicId, poolId));
  }

  lemma StoredElsewhere(b: seq<Byte>, e: Entry, c: PM.Chunk, topicId: nat, poolId: nat, other: Entry)
    requires Inside(b, e) && |c.payload| == e.capacity && Inside(b, other)
    requires ChunkEnd(e) <= other.header || ChunkEnd(other) <= e.header
    ensures ChunkAt(Store(b, e, c, topicId, poolId), other) == ChunkAt(b, other)
  {
    var data := EncodeChunk(HeaderFor(c, topicId, poolId));
    var m := WriteAt(b, e.header, data);
    ReadElsewhere(b, e.header, data, other.header, CHUNK_HEADER_SIZE);
    ReadElsewhere(b, e.header, data, other.payload, other.capacity);
    ReadElsewhere(m, e.payload, c.payload, other.header, CHUNK_HEADER_SIZE);
    ReadElsewhere(m, e.payload, c.payload, other.payload, other.capacity);
  }

  /** Storing one chunk in its place changes that chunk of the pool and no other. */
  lemma StoreMirrors(b: seq<Byte>, directory: seq<Entry>, p: PM.Pool, i: nat, c: PM.Chunk, topicId: nat)
    requires Mirrors(b, directory, p) && i < |directory| && Storable(c, directory[i], topicId, p.id)
    ensures Inside(b, directory[i])
    ensures Mirrors(Store(b, directory[i], c, topicId, p.id), directory, p.(chunks := p.chunks[i := c]))
  {
    StoredHere(b, directory[i], c, topicId, p.id);
    forall j | 0 <= j < |directory| && j != i
      ensures ChunkAt(Store(b, directory[i], c, topicId, p.id), directory[j]) == ChunkAt(b, directory[j])
    {
      StoredElsewhere(b, directory[i], c, topicId, p.id, directory[j]);
    }
  }

  /** In the image of a new segment every chunk is free and has never been used. */
  lemma CreatedChunks(b: seq<Byte>, id: Identity, l: Layout, i: nat)
    requires SC.Sane(l) && |b| == l.segmentSize && SC.Written(b, id, l, |l.classes|, |l.directory|, |l.directory|)
    requires i < |l.directory| && SO.FitsU64(id) && l.directory[i].capacity < U32_LIMIT
             && l.directory[i].classIndex < U32_LIMIT
    ensures Inside(b, l.directory[i])
    ensures var e, c := l.directory[i], ChunkAt(b, l.directory[i]);
            c == PM.Chunk(0, PM.Free, 0, e.capacity, e.classIndex, 0, 0, 0, c.payload)
  {
    SO.ChunkReadsBack(id, l.directory[i]);
    assert ReadAt(b, l.directory[i].header, CHUNK_HEADER_SIZE) == EncodeChunk(SC.NewChunk(id, l.directory[i]));
  }
}
