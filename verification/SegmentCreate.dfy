/** MemoryPool::create: the bytes of a new segment. */
module SegmentCreate {
  import opened Basics
  import opened BigEndian
  import opened SegmentLayout
  import opened SegmentImage

  function HeaderOf(id: Identity, l: Layout): Header {
    Header(MAGIC, VERSION, HEADER_SIZE, l.segmentSize, id.poolId, id.topicId, id.ownerPid,
           |l.classes|, |l.directory|, HEADER_SIZE, l.directoryOffset, l.storage)
  }

  function NewChunk(id: Identity, e: Entry): ChunkHeader {
    ChunkHeader(0, 0, 0, e.capacity, e.classIndex, 0, 0, 0, id.topicId, id.poolId, 0)
  }

  /** The regions of the layout do not overlap and lie inside the segment. */
  ghost predicate Sane(l: Layout) {
    && WellPlaced(l.directory, l.storage, l.segmentSize)
    && l.directoryOffset == HEADER_SIZE + |l.classes| * CLASS_SIZE
    && l.directoryOffset + |l.directory| * ENTRY_SIZE <= l.storage <= l.segmentSize
  }

  function ClassRegion(k: nat): nat {
    HEADER_SIZE + k * CLASS_SIZE
  }

  function EntryRegion(directoryOffset: nat, j: nat): nat {
    directoryOffset + j * ENTRY_SIZE
  }

  /** The header, the first `nc` classes, the first `ne` entries and `nh` chunk headers are in place. */
  ghost predicate Written(b: seq<Byte>, id: Identity, l: Layout, nc: nat, ne: nat, nh: nat)
    requires Sane(l) && |b| == l.segmentSize && nc <= |l.classes| && ne <= |l.directory| && nh <= |l.directory|
  {
    && ReadAt(b, 0, HEADER_SIZE) == EncodeHeader(HeaderOf(id, l))
    && (forall k :: 0 <= k < nc ==> ReadAt(b, ClassRegion(k), CLASS_SIZE) == EncodeClass(l.classes[k]))
    && (forall j :: 0 <= j < ne ==>
                      ReadAt(b, EntryRegion(l.directoryOffset, j), ENTRY_SIZE) == EncodeEntry(l.directory[j]))
    && (forall j :: 0 <= j < nh ==>
                      ReadAt(b, l.directory[j].header, CHUNK_HEADER_SIZE) == EncodeChunk(NewChunk(id, l.directory[j])))
  }

  /** A write clear of everything in place leaves it in place. */
  lemma WriteKeeps(b: seq<Byte>, id: Identity, l: Layout, nc: nat, ne: nat, nh: nat, at: nat, data: seq<Byte>)
    requires Sane(l) && |b| == l.segmentSize && nc <= |l.classes| && ne <= |l.directory| && nh <= |l.directory|
    requires Written(b, id, l, nc, ne, nh) && at + |data| <= |b|
    requires ClassRegion(nc) <= at && (ne > 0 ==> EntryRegion(l.directoryOffset, ne) <= at)
    requires forall j :: 0 <= j < nh ==>
                           at + |data| <= l.directory[j].header || l.directory[j].payload <= at
    ensures Written(WriteAt(b, at, data), id, l, nc, ne, nh)
  {
    ReadElsewhere(b, at, data, 0, HEADER_SIZE);
    forall k | 0 <= k < nc
      ensures ReadAt(WriteAt(b, at, data), ClassRegion(k), CLASS_SIZE) == EncodeClass(l.classes[k])
    {
      ReadElsewhere(b, at, data, ClassRegion(k), CLASS_SIZE);
    }
    forall j | 0 <= j < ne
      ensures ReadAt(WriteAt(b, at, data), EntryRegion(l.directoryOffset, j), ENTRY_SIZE) == EncodeEntry(l.directory[j])
    {
      ReadElsewhere(b, at, data, EntryRegion(l.directoryOffset, j), ENTRY_SIZE);
    }
    forall j | 0 <= j < nh
      ensures ReadAt(WriteAt(b, at, data), l.directory[j].header, CHUNK_HEADER_SIZE)
           == EncodeChunk(NewChunk(id, l.directory[j]))
    {
      ReadElsewhere(b, at, data, l.directory[j].header, CHUNK_HEADER_SIZE);
    }
  }

  method WriteClasses(image: seq<Byte>, id: Identity, l: Layout) returns (b: seq<Byte>)
    requires Sane(l) && |image| == l.segmentSize && Written(image, id, l, 0, 0, 0)
    ensures |b| == l.segmentSize && Written(b, id, l, |l.classes|, 0, 0)
  {
    b := image;
    var k := 0;
    while k < |l.classes|
      invariant 0 <= k <= |l.classes| && |b| == l.segmentSize && Written(b, id, l, k, 0, 0)
    {
      WriteClassKeeps(b, id, l, k);
      b := WriteAt(b, ClassRegion(k), EncodeClass(l.classes[k]));
      k := k + 1;
    }
  }

  lemma WriteClassKeeps(b: seq<Byte>, id: Identity, l: Layout, k: nat)
    requires Sane(l) && |b| == l.segmentSize && k < |l.classes| && Written(b, id, l, k, 0, 0)
    ensures ClassRegion(k) + CLASS_SIZE <= |b| && |EncodeClass(l.classes[k])| == CLASS_SIZE
    ensures Written(WriteAt(b, ClassRegion(k), EncodeClass(l.classes[k])), id, l, k + 1, 0, 0)
  {
    ClassFits(l, k);
    var data := EncodeClass(l.classes[k]);
    WriteKeeps(b, id, l, k, 0, 0, ClassRegion(k), data);
    ReadBack(b, ClassRegion(k), data);
    OneMoreClass(WriteAt(b, ClassRegion(k), data), id, l, k);
  }

  lemma ClassFits(l: Layout, k: nat)
    requires Sane(l) && k < |l.classes|
    ensures ClassRegion(k) + CLASS_SIZE <= l.segmentSize
  {
  }

  lemma OneMoreClass(b: seq<Byte>, id: Identity, l: Layout, k: nat)
    requires Sane(l) && |b| == l.segmentSize && k < |l.classes| && Written(b, id, l, k, 0, 0)
    requires ClassRegion(k) + CLASS_SIZE <= |b| && ReadAt(b, ClassRegion(k), CLASS_SIZE) == EncodeClass(l.classes[k])
    ensures Written(b, id, l, k + 1, 0, 0)
  {
  }

  /** One round of the directory loop: the entry, then the header of its chunk. */
  method WriteEntry(image: seq<Byte>, id: Identity, l: Layout, j: nat) returns (b: seq<Byte>)
    requires Sane(l) && |image| == l.segmentSize && j < |l.directory| && Written(image, id, l, |l.classes|, j, j)
    ensures |b| == l.segmentSize && Written(b, id, l, |l.classes|, j + 1, j + 1)
  {
    var e := l.directory[j];
    var at := EntryRegion(l.directoryOffset, j);
    WriteKeeps(image, id, l, |l.classes|, j, j, at, EncodeEntry(e));
    ReadBack(image, at, EncodeEntry(e));
    b := WriteAt(image, at, EncodeEntry(e));
    assert Written(b, id, l, |l.classes|, j + 1, j);
    WriteKeeps(b, id, l, |l.classes|, j + 1, j, e.header, EncodeChunk(NewChunk(id, e)));
    ReadBack(b, e.header, EncodeChunk(NewChunk(id, e)));
    b := WriteAt(b, e.header, EncodeChunk(NewChunk(id, e)));
  }

  /** The image of a new segment, or nothing when descriptor and configuration do not agree. */
  method Create(id: Identity, version: nat, segmentSize: nat, config: seq<ClassConfig>) returns (r: Option<seq<Byte>>)
    ensures r.Some? <==>
              && id.poolId != 0 && id.topicId != 0 && version == VERSION
              && ValidConfig(config) && LayoutOf(config).segmentSize < U64_LIMIT
              && segmentSize == LayoutOf(config).segmentSize
    ensures r.Some? ==>
              var l := LayoutOf(config);
              Sane(l) && |r.value| == l.segmentSize
                && Written(r.value, id, l, |l.classes|, |l.directory|, |l.directory|)
  {
    if id.poolId == 0 || id.topicId == 0 || version != VERSION { return None; }
    var made := MakeLayout(config);
    if made.Failure? || segmentSize != made.layout.segmentSize { return None; }
    var l := made.layout;
    LayoutSound(config);
    var zero := seq(l.segmentSize, _ => 0);
    ReadBack(zero, 0, EncodeHeader(HeaderOf(id, l)));
    var b := WriteAt(zero, 0, EncodeHeader(HeaderOf(id, l)));
    b := WriteClasses(b, id, l);
    var j := 0;
    while j < |l.directory|
      invariant 0 <= j <= |l.directory| && |b| == l.segmentSize && Written(b, id, l, |l.classes|, j, j)
    {
      b := WriteEntry(b, id, l, j);
      j := j + 1;
    }
    r := Some(b);
  }
}
