/** MemoryPoolView: which images open accepts, and what read returns from them. */
module SegmentOpen {
  import opened Basics
  import opened BigEndian
  import opened SegmentLayout
  import opened SegmentImage
  import opened SegmentCreate

  datatype Descriptor = Descriptor(poolId: nat, topicId: nat, version: nat, segmentSize: nat)

  datatype View = View(classes: seq<SizeClass>, directory: seq<Entry>)

  // ---- what the image says ----

  function HeaderIn(b: seq<Byte>): Header
    requires |b| >= HEADER_SIZE
  {
    DecodeHeader(ReadAt(b, 0, HEADER_SIZE))
  }

  function ClassIn(b: seq<Byte>, k: nat): SizeClass
    requires ClassRegion(k + 1) <= |b|
  {
    DecodeClass(ReadAt(b, ClassRegion(k), CLASS_SIZE))
  }

  function EntryIn(b: seq<Byte>, directoryOffset: nat, j: nat): Entry
    requires EntryRegion(directoryOffset, j + 1) <= |b|
  {
    DecodeEntry(ReadAt(b, EntryRegion(directoryOffset, j), ENTRY_SIZE))
  }

  function ChunkIn(b: seq<Byte>, at: nat): ChunkHeader
    requires at + CHUNK_HEADER_SIZE <= |b|
  {
    DecodeChunk(ReadAt(b, at, CHUNK_HEADER_SIZE))
  }

  /** The first `n` classes, and the first `n` directory entries. */
  function ClassesIn(b: seq<Byte>, n: nat): (r: seq<SizeClass>)
    requires ClassRegion(n) <= |b|
    ensures |r| == n
  {
    if n == 0 then [] else ClassesIn(b, n - 1) + [ClassIn(b, n - 1)]
  }

  function EntriesIn(b: seq<Byte>, directoryOffset: nat, n: nat): (r: seq<Entry>)
    requires EntryRegion(directoryOffset, n) <= |b|
    ensures |r| == n
  {
    if n == 0 then [] else EntriesIn(b, directoryOffset, n - 1) + [EntryIn(b, directoryOffset, n - 1)]
  }

  // ---- acceptance ----

  predicate DescriptorOk(d: Descriptor, topic: nat, size: nat) {
    d.poolId != 0 && HEADER_SIZE <= d.segmentSize == size && d.topicId == topic && d.version == VERSION
  }

  ghost predicate HeaderOk(h: Header, d: Descriptor, size: nat) {
    && h.magic == MAGIC && h.version == VERSION && h.headerSize == HEADER_SIZE && h.segmentSize == size
    && h.poolId == d.poolId && h.topicId == d.topicId && h.classCount != 0 && h.chunkCount != 0
    && h.classOffset == HEADER_SIZE
    && ClassRegion(h.classCount) <= size && EntryRegion(h.directoryOffset, h.chunkCount) <= size
    && h.storageOffset <= size && h.storageOffset % ALIGNMENT == 0
  }

  function CountTo(classes: seq<SizeClass>, n: nat): nat
    requires n <= |classes|
  {
    if n == 0 then 0 else CountTo(classes, n - 1) + classes[n - 1].count
  }

  /** Capacities rise, the classes partition the chunks in order, and none is empty. */
  ghost predicate ClassOk(classes: seq<SizeClass>, chunkCount: nat, k: nat)
    requires k < |classes|
  {
    && classes[k].capacity > (if k == 0 then 0 else classes[k - 1].capacity)
    && classes[k].first == CountTo(classes, k) && classes[k].count != 0 && CountTo(classes, k + 1) <= chunkCount
  }

  ghost predicate ClassesOk(classes: seq<SizeClass>, chunkCount: nat) {
    && (forall k :: 0 <= k < |classes| ==> ClassOk(classes, chunkCount, k))
    && CountTo(classes, |classes|) == chunkCount
  }

  /** Entry `j` may begin here at the earliest. */
  function Floor(storage: nat, directory: seq<Entry>, j: nat): nat
    requires j <= |directory|
  {
    if j == 0 then storage else ChunkEnd(directory[j - 1])
  }

  predicate EntryOk(classes: seq<SizeClass>, e: Entry, floor: nat, size: nat) {
    && e.classIndex < |classes| && e.capacity == classes[e.classIndex].capacity
    && e.header % ALIGNMENT == 0 && e.payload == e.header + CHUNK_HEADER_SIZE
    && floor <= e.header && ChunkEnd(e) <= size
  }

  /** The header of the chunk agrees with its directory entry and the descriptor. */
  predicate ChunkOk(b: seq<Byte>, d: Descriptor, e: Entry) {
    e.header + CHUNK_HEADER_SIZE <= |b|
    && var c := ChunkIn(b, e.header);
       && c.capacity == e.capacity && c.classIndex == e.classIndex
       && c.topicId == d.topicId && c.poolId == d.poolId
  }

  ghost predicate DirectoryOk(classes: seq<SizeClass>, storage: nat, directory: seq<Entry>, size: nat) {
    forall j {:trigger Floor(storage, directory, j)} ::
      0 <= j < |directory| ==> EntryOk(classes, directory[j], Floor(storage, directory, j), size)
  }

  ghost predicate ChunksOk(b: seq<Byte>, d: Descriptor, directory: seq<Entry>) {
    forall j {:trigger ChunkOk(b, d, directory[j])} :: 0 <= j < |directory| ==> ChunkOk(b, d, directory[j])
  }

  ghost function ViewIn(b: seq<Byte>, h: Header): View
    requires ClassRegion(h.classCount) <= |b| && EntryRegion(h.directoryOffset, h.chunkCount) <= |b|
  {
    View(ClassesIn(b, h.classCount), EntriesIn(b, h.directoryOffset, h.chunkCount))
  }

  /** The images that open accepts, stated without reference to how it goes about it. */
  ghost predicate Accepts(b: seq<Byte>, d: Descriptor, topic: nat) {
    && DescriptorOk(d, topic, |b|)
    && var h := HeaderIn(b);
       && HeaderOk(h, d, |b|)
       && var v := ViewIn(b, h);
          && ClassesOk(v.classes, h.chunkCount)
          && DirectoryOk(v.classes, h.storageOffset, v.directory, |b|) && ChunksOk(b, d, v.directory)
  }

  // ---- open ----

  method ReadClass(b: seq<Byte>, n: nat, k: nat, ghost all: seq<SizeClass>) returns (c: SizeClass)
    requires k < n && ClassRegion(n) <= |b| && all == ClassesIn(b, n)
    ensures c == all[k]
  {
    ClassesInAt(b, n, k);
    c := DecodeClass(ReadAt(b, ClassRegion(k), CLASS_SIZE));
  }

  lemma {:induction false} ClassesInAt(b: seq<Byte>, n: nat, k: nat)
    requires k < n && ClassRegion(n) <= |b|
    ensures ClassesIn(b, n)[k] == ClassIn(b, k)
  {
    if k < n - 1 { ClassesInAt(b, n - 1, k); }
  }

  method OpenClasses(b: seq<Byte>, classCount: nat, chunkCount: nat, ghost all: seq<SizeClass>)
    returns (ok: bool, classes: seq<SizeClass>)
    requires ClassRegion(classCount) <= |b| && all == ClassesIn(b, classCount)
    ensures ok <==> ClassesOk(all, chunkCount)
    ensures ok ==> classes == all
  {
    classes := [];
    var previous, expected, k := 0, 0, 0;
    while k < classCount
      invariant 0 <= k <= classCount && classes == all[..k]
      invariant forall i :: 0 <= i < k ==> ClassOk(all, chunkCount, i)
      invariant expected == CountTo(all, k) && previous == if k == 0 then 0 else all[k - 1].capacity
    {
      var c := ReadClass(b, classCount, k, all);
      if c.capacity == 0 || c.capacity <= previous || c.first != expected || c.count == 0
         || c.count > chunkCount || expected > chunkCount - c.count
      {
        assert !ClassOk(all, chunkCount, k);
        return false, [];
      }
      expected := expected + c.count;
      previous := c.capacity;
      classes := classes + [c];
      k := k + 1;
    }
    ok := expected == chunkCount;
  }

  method CheckEntry(b: seq<Byte>, d: Descriptor, classes: seq<SizeClass>, e: Entry, floor: nat) returns (ok: bool)
    requires |b| < U64_LIMIT
    ensures ok <==> EntryOk(classes, e, floor, |b|) && ChunkOk(b, d, e)
  {
    ok := false;
    if e.classIndex >= |classes| || e.capacity != classes[e.classIndex].capacity { return; }
    if e.header > U64_LIMIT - 1 - CHUNK_HEADER_SIZE { return; }
    if e.capacity >= U64_LIMIT || e.payload > U64_LIMIT - 1 - e.capacity { return; }
    if e.header % ALIGNMENT != 0 || e.payload != e.header + CHUNK_HEADER_SIZE { return; }
    if e.payload % ALIGNMENT != 0 { return; }
    if e.header < floor || !RangeInside(e.payload, e.capacity, |b|) { return; }
    var c := ChunkIn(b, e.header);
    ok := c.capacity == e.capacity && c.classIndex == e.classIndex && c.topicId == d.topicId && c.poolId == d.poolId;
  }

  predicate RangeInside(offset: nat, size: nat, limit: nat) {
    offset <= limit && size <= limit - offset
  }

  lemma {:induction false} EntriesInAt(b: seq<Byte>, directoryOffset: nat, n: nat, j: nat)
    requires j < n && EntryRegion(directoryOffset, n) <= |b|
    ensures EntriesIn(b, directoryOffset, n)[j] == EntryIn(b, directoryOffset, j)
  {
    if j < n - 1 { EntriesInAt(b, directoryOffset, n - 1, j); }
  }

  method ReadEntry(b: seq<Byte>, directoryOffset: nat, n: nat, j: nat, ghost all: seq<Entry>) returns (e: Entry)
    requires j < n && EntryRegion(directoryOffset, n) <= |b| && all == EntriesIn(b, directoryOffset, n)
    ensures e == all[j]
  {
    EntriesInAt(b, directoryOffset, n, j);
    e := DecodeEntry(ReadAt(b, EntryRegion(directoryOffset, j), ENTRY_SIZE));
  }

  lemma HeaderWidths(b: seq<Byte>)
    requires |b| == HEADER_SIZE
    ensures var h := DecodeHeader(b);
            h.classCount < U32_LIMIT && h.chunkCount < U32_LIMIT && h.directoryOffset < U64_LIMIT
  {
    HeaderTotal();
    Widths();
    UnpackFits(HEADER_WIDTHS, b);
    var v := Unpack(HEADER_WIDTHS, b);
    assert v[7] < Pow256(HEADER_WIDTHS[7]) && v[8] < Pow256(HEADER_WIDTHS[8]) && v[10] < Pow256(HEADER_WIDTHS[10]);
  }

  /** The header's fields and the bounds of its tables, as the checked arithmetic of size_t sees them. */
  method CheckHeader(h: Header, d: Descriptor, size: nat) returns (ok: bool)
    requires size < U64_LIMIT && h.classCount < U32_LIMIT && h.chunkCount < U32_LIMIT && h.directoryOffset < U64_LIMIT
    ensures ok <==> HeaderOk(h, d, size)
  {
    ok := false;
    if h.magic != MAGIC || h.version != VERSION || h.headerSize != HEADER_SIZE || h.segmentSize != size { return; }
    if h.poolId != d.poolId || h.topicId != d.topicId || h.classCount == 0 || h.chunkCount == 0 { return; }
    if h.classOffset != HEADER_SIZE { return; }
    var classBytes := CheckedMultiply(h.classCount, CLASS_SIZE);
    var directoryBytes := CheckedMultiply(h.chunkCount, ENTRY_SIZE);
    if classBytes.None? || directoryBytes.None? { return; }
    if !RangeInside(h.classOffset, classBytes.value, size) { return; }
    if !RangeInside(h.directoryOffset, directoryBytes.value, size) { return; }
    ok := h.storageOffset <= size && h.storageOffset % ALIGNMENT == 0;
  }

  method OpenDirectory(b: seq<Byte>, d: Descriptor, classes: seq<SizeClass>, h: Header, ghost all: seq<Entry>)
    returns (ok: bool, directory: seq<Entry>)
    requires |b| < U64_LIMIT && EntryRegion(h.directoryOffset, h.chunkCount) <= |b|
    requires all == EntriesIn(b, h.directoryOffset, h.chunkCount)
    ensures ok <==> DirectoryOk(classes, h.storageOffset, all, |b|) && ChunksOk(b, d, all)
    ensures ok ==> directory == all
  {
    directory := [];
    var floor, j := h.storageOffset, 0;
    while j < h.chunkCount
      invariant 0 <= j <= h.chunkCount && directory == all[..j] && floor == Floor(h.storageOffset, all, j)
      invariant forall i {:trigger Floor(h.storageOffset, all, i)} ::
                  0 <= i < j ==> EntryOk(classes, all[i], Floor(h.storageOffset, all, i), |b|)
      invariant forall i {:trigger ChunkOk(b, d, all[i])} :: 0 <= i < j ==> ChunkOk(b, d, all[i])
    {
      var e := ReadEntry(b, h.directoryOffset, h.chunkCount, j, all);
      ok := CheckEntry(b, d, classes, e, floor);
      if !ok { return false, []; }
      directory := directory + [e];
      floor := e.payload + e.capacity;
      j := j + 1;
    }
    ok := true;
  }

  method Open(b: seq<Byte>, d: Descriptor, topic: nat) returns (r: Option<View>)
    requires |b| < U64_LIMIT
    ensures r.Some? <==> Accepts(b, d, topic)
    ensures r.Some? ==> r.value == ViewIn(b, HeaderIn(b))
  {
    if !DescriptorOk(d, topic, |b|) { return None; }
    var h := DecodeHeader(ReadAt(b, 0, HEADER_SIZE));
    HeaderWidths(ReadAt(b, 0, HEADER_SIZE));
    var ok := CheckHeader(h, d, |b|);
    if !ok { return None; }
    ghost var v := ViewIn(b, h);
    var classes, directory;
    ok, classes := OpenClasses(b, h.classCount, h.chunkCount, v.classes);
    if !ok { return None; }
    ok, directory := OpenDirectory(b, d, classes, h, v.directory);
    if !ok { return None; }
    r := Some(View(classes, directory));
  }

  // ---- soundness of the validator ----

  lemma {:induction false} InOrder(classes: seq<SizeClass>, storage: nat, directory: seq<Entry>, size: nat, i: nat,
                                   j: nat)
    requires DirectoryOk(classes, storage, directory, size) && i < j < |directory|
    ensures ChunkEnd(directory[i]) <= directory[j].header
  {
    assert Floor(storage, directory, j) == ChunkEnd(directory[j - 1]);
    assert j > 1 ==> Floor(storage, directory, j - 1) == ChunkEnd(directory[j - 2]);
    if i < j - 1 { InOrder(classes, storage, directory, size, i, j - 1); }
  }

  lemma {:induction false} AboveStorage(classes: seq<SizeClass>, storage: nat, directory: seq<Entry>, size: nat, j: nat)
    requires DirectoryOk(classes, storage, directory, size) && j < |directory|
    ensures storage <= directory[j].header
  {
    assert Floor(storage, directory, j) <= directory[j].header;
    if j > 0 {
      assert Floor(storage, directory, j - 1) <= directory[j - 1].header;
      AboveStorage(classes, storage, directory, size, j - 1);
    }
  }

  /** Every accepted image has aligned, pairwise disjoint chunks inside the mapping. */
  lemma ValidatorSound(b: seq<Byte>, d: Descriptor, topic: nat)
    requires Accepts(b, d, topic)
    ensures var h := HeaderIn(b);
            WellPlaced(ViewIn(b, h).directory, h.storageOffset, |b|)
  {
    var h := HeaderIn(b);
    var v := ViewIn(b, h);
    forall j | 0 <= j < |v.directory|
      ensures v.directory[j].header % ALIGNMENT == 0
      ensures v.directory[j].payload == v.directory[j].header + CHUNK_HEADER_SIZE
      ensures h.storageOffset <= v.directory[j].header && ChunkEnd(v.directory[j]) <= |b|
    {
      assert Floor(h.storageOffset, v.directory, j) <= v.directory[j].header;
      AboveStorage(v.classes, h.storageOffset, v.directory, |b|, j);
    }
    forall i, j | 0 <= i < j < |v.directory| ensures ChunkEnd(v.directory[i]) <= v.directory[j].header {
      InOrder(v.classes, h.storageOffset, v.directory, |b|, i, j);
    }
  }

  // ---- read ----

  datatype ReadResult = ReadResult(error: ErrorCode, offset: nat, size: nat, sequence: nat, timestamp: nat)

  /** MemoryPoolView::read: on success the range returned lies inside the payload of its own chunk. */
  method Read(b: seq<Byte>, d: Descriptor, v: View, poolId: nat, chunk: nat, generation: nat, offset: nat, maxSize: nat)
    returns (r: ReadResult)
    requires WellPlaced(v.directory, 0, |b|)
    ensures r.error == Ok <==>
              && poolId == d.poolId && chunk < |v.directory| && generation != 0
              && offset == v.directory[chunk].payload
              && var e := v.directory[chunk];
                 var c := ChunkIn(b, e.header);
                 && c.state == 2 && c.generation == generation && c.poolId == d.poolId && c.topicId == d.topicId
                 && c.capacity == e.capacity && c.classIndex == e.classIndex
                 && c.payloadSize <= c.capacity && c.payloadSize <= maxSize && c.refs != 0 && c.sequence != 0
    ensures r.error != Ok ==>
              r.error == if poolId != d.poolId || chunk >= |v.directory| || generation == 0
                            || offset != v.directory[chunk].payload then InvalidChunkHandle else InvalidSharedMemory
    ensures r.error == Ok ==>
              var c := ChunkIn(b, v.directory[chunk].header);
              r == ReadResult(Ok, v.directory[chunk].payload, c.payloadSize, c.sequence, c.timestamp)
    ensures r.error == Ok ==>
              && r.offset + r.size <= ChunkEnd(v.directory[chunk]) <= |b|
              && r.size <= maxSize
              && (forall j :: 0 <= j < |v.directory| && j != chunk ==>
                                r.offset + r.size <= v.directory[j].header || ChunkEnd(v.directory[j]) <= r.offset)
  {
    if poolId != d.poolId || chunk >= |v.directory| || generation == 0 || offset != v.directory[chunk].payload {
      return ReadResult(InvalidChunkHandle, 0, 0, 0, 0);
    }
    var e := v.directory[chunk];
    var c := ChunkIn(b, e.header);
    if c.state != 2 || c.generation != generation || c.poolId != d.poolId || c.topicId != d.topicId
       || c.capacity != e.capacity || c.classIndex != e.classIndex
       || c.payloadSize > c.capacity || c.payloadSize > maxSize || c.refs == 0 || c.sequence == 0
    {
      return ReadResult(InvalidSharedMemory, 0, 0, 0, 0);
    }
    r := ReadResult(Ok, e.payload, c.payloadSize, c.sequence, c.timestamp);
  }

  // ---- create, then open ----

  ghost predicate FitsU64(id: Identity) {
    id.poolId < U64_LIMIT && id.topicId < U64_LIMIT && id.ownerPid < U64_LIMIT
  }

  lemma HeaderReadsBack(id: Identity, l: Layout)
    requires FitsU64(id) && l.segmentSize < U64_LIMIT && |l.classes| < U32_LIMIT && |l.directory| < U32_LIMIT
    requires l.directoryOffset < U64_LIMIT && l.storage < U64_LIMIT
    ensures DecodeHeader(EncodeHeader(HeaderOf(id, l))) == HeaderOf(id, l)
  {
    Widths();
    assert Fits(HEADER_WIDTHS, HeaderFields(HeaderOf(id, l)));
    HeaderRoundTrip(HeaderOf(id, l));
  }

  lemma ChunkReadsBack(id: Identity, e: Entry)
    requires FitsU64(id) && e.capacity < U32_LIMIT && e.classIndex < U32_LIMIT
    ensures DecodeChunk(EncodeChunk(NewChunk(id, e))) == NewChunk(id, e)
  {
    Widths();
    assert Fits(CHUNK_WIDTHS, ChunkFields(NewChunk(id, e)));
    ChunkRoundTrip(NewChunk(id, e));
  }

  lemma {:induction false} ClassesReadBack(b: seq<Byte>, classes: seq<SizeClass>, n: nat)
    requires n <= |classes| && ClassRegion(n) <= |b|
    requires forall k :: 0 <= k < n ==> ReadAt(b, ClassRegion(k), CLASS_SIZE) == EncodeClass(classes[k])
    requires forall k :: 0 <= k < n ==>
                           classes[k].capacity < U64_LIMIT && classes[k].first < U32_LIMIT
                             && classes[k].count < U32_LIMIT
    ensures ClassesIn(b, n) == classes[..n]
  {
    if n > 0 {
      ClassesReadBack(b, classes, n - 1);
      ClassRoundTrip(classes[n - 1]);
    }
  }

  lemma {:induction false} EntriesReadBack(b: seq<Byte>, at: nat, directory: seq<Entry>, n: nat)
    requires n <= |directory| && EntryRegion(at, n) <= |b|
    requires forall j :: 0 <= j < n ==> ReadAt(b, EntryRegion(at, j), ENTRY_SIZE) == EncodeEntry(directory[j])
    requires forall j :: 0 <= j < n ==>
                           && directory[j].header < U64_LIMIT && directory[j].payload < U64_LIMIT
                           && directory[j].capacity < U64_LIMIT && directory[j].classIndex < U32_LIMIT
    ensures EntriesIn(b, at, n) == directory[..n]
  {
    if n > 0 {
      EntriesReadBack(b, at, directory, n - 1);
      EntryRoundTrip(directory[n - 1]);
    }
  }

  lemma {:induction false} ClassesOf(config: seq<ClassConfig>, k: nat)
    requires k < |config|
    ensures Classes(config)[k] == SizeClass(config[k].size, TotalChunks(config[..k]), config[k].count)
  {
    var n := |config| - 1;
    if k < n {
      ClassesOf(config[..n], k);
      assert config[..n][..k] == config[..k];
    }
  }

  lemma {:induction false} CountIsTotal(config: seq<ClassConfig>, n: nat)
    requires n <= |config|
    ensures CountTo(Classes(config), n) == TotalChunks(config[..n])
  {
    if n > 0 {
      CountIsTotal(config, n - 1);
      ClassesOf(config, n - 1);
      assert config[..n][..n - 1] == config[..n - 1];
    }
  }

  lemma {:induction false} TotalGrows(config: seq<ClassConfig>, n: nat)
    requires n <= |config|
    ensures TotalChunks(config[..n]) <= TotalChunks(config)
  {
    if n == |config| {
      assert config[..n] == config;
    } else {
      TotalGrows(config[..|config| - 1], n);
      assert config[..|config| - 1][..n] == config[..n];
    }
  }

  lemma ClassAccepted(config: seq<ClassConfig>, k: nat)
    requires ValidConfig(config) && k < |config|
    ensures ClassOk(Classes(config), TotalChunks(config), k)
    ensures var c := Classes(config)[k]; c.capacity < U32_LIMIT && c.first < U32_LIMIT && c.count < U32_LIMIT
  {
    assert ValidClass(config, k);
    ClassesOf(config, k);
    if k > 0 { ClassesOf(config, k - 1); }
    CountIsTotal(config, k);
    CountIsTotal(config, k + 1);
    TotalGrows(config, k + 1);
    assert config[..k + 1][..k] == config[..k];
  }

  lemma ClassesAccepted(config: seq<ClassConfig>)
    requires ValidConfig(config)
    ensures ClassesOk(Classes(config), TotalChunks(config)) && 0 < TotalChunks(config) < U32_LIMIT
    ensures forall k {:trigger Classes(config)[k]} :: 0 <= k < |config| ==>
              var c := Classes(config)[k]; c.capacity < U32_LIMIT && c.first < U32_LIMIT && c.count < U32_LIMIT
  {
    assert ValidClass(config, |config| - 1);
    assert config[..|config|] == config;
    CountIsTotal(config, |config|);
    forall k | 0 <= k < |config|
      ensures ClassOk(Classes(config), TotalChunks(config), k)
      ensures var c := Classes(config)[k]; c.capacity < U32_LIMIT && c.first < U32_LIMIT && c.count < U32_LIMIT
    {
      ClassAccepted(config, k);
    }
  }

  lemma DirectoryAccepted(config: seq<ClassConfig>)
    requires ValidConfig(config)
    ensures var l := LayoutOf(config);
            DirectoryOk(l.classes, l.storage, l.directory, l.segmentSize)
  {
    LayoutSound(config);
    var l := LayoutOf(config);
    forall j | 0 <= j < |l.directory|
      ensures EntryOk(l.classes, l.directory[j], Floor(l.storage, l.directory, j), l.segmentSize)
    {
      ClassesOf(config, l.directory[j].classIndex);
    }
  }

  lemma ChunksAccepted(b: seq<Byte>, id: Identity, l: Layout, d: Descriptor)
    requires Sane(l) && |b| == l.segmentSize && Written(b, id, l, |l.classes|, |l.directory|, |l.directory|)
    requires FitsU64(id) && d.poolId == id.poolId && d.topicId == id.topicId
    requires forall j :: 0 <= j < |l.directory| ==>
                           l.directory[j].capacity < U32_LIMIT && l.directory[j].classIndex < U32_LIMIT
    ensures ChunksOk(b, d, l.directory)
  {
    forall j | 0 <= j < |l.directory| ensures ChunkOk(b, d, l.directory[j]) {
      ChunkReadsBack(id, l.directory[j]);
    }
  }

  lemma HeaderAccepted(b: seq<Byte>, id: Identity, config: seq<ClassConfig>, d: Descriptor)
    requires ValidConfig(config) && LayoutOf(config).segmentSize < U64_LIMIT && FitsU64(id)
    requires var l := LayoutOf(config);
             |b| == l.segmentSize >= HEADER_SIZE && ReadAt(b, 0, HEADER_SIZE) == EncodeHeader(HeaderOf(id, l))
    requires d.poolId == id.poolId && d.topicId == id.topicId
    ensures HeaderIn(b) == HeaderOf(id, LayoutOf(config)) && HeaderOk(HeaderIn(b), d, |b|)
  {
    LayoutSound(config);
    ClassesAccepted(config);
    HeaderReadsBack(id, LayoutOf(config));
  }

  lemma DirectoryReadsBack(b: seq<Byte>, id: Identity, l: Layout)
    requires Sane(l) && |b| == l.segmentSize && Written(b, id, l, |l.classes|, |l.directory|, |l.directory|)
    requires forall j :: 0 <= j < |l.directory| ==>
                           && l.directory[j].header < U64_LIMIT && l.directory[j].payload < U64_LIMIT
                           && l.directory[j].capacity < U32_LIMIT && l.directory[j].classIndex < U32_LIMIT
    ensures EntriesIn(b, l.directoryOffset, |l.directory|) == l.directory
  {
    EntriesReadBack(b, l.directoryOffset, l.directory, |l.directory|);
    assert l.directory[..|l.directory|] == l.directory;
  }

  lemma SizesReadBack(b: seq<Byte>, id: Identity, l: Layout)
    requires Sane(l) && |b| == l.segmentSize && Written(b, id, l, |l.classes|, |l.directory|, |l.directory|)
    requires forall k :: 0 <= k < |l.classes| ==>
                           && l.classes[k].capacity < U64_LIMIT && l.classes[k].first < U32_LIMIT
                           && l.classes[k].count < U32_LIMIT
    ensures ClassesIn(b, |l.classes|) == l.classes
  {
    ClassesReadBack(b, l.classes, |l.classes|);
    assert l.classes[..|l.classes|] == l.classes;
  }

  lemma ViewReadsBack(b: seq<Byte>, id: Identity, config: seq<ClassConfig>)
    requires ValidConfig(config) && LayoutOf(config).segmentSize < U64_LIMIT
    requires var l := LayoutOf(config);
             Sane(l) && |b| == l.segmentSize && Written(b, id, l, |l.classes|, |l.directory|, |l.directory|)
    ensures var l := LayoutOf(config);
            ViewIn(b, HeaderOf(id, l)) == View(l.classes, l.directory)
  {
    ClassesAccepted(config);
    SmallEntries(config);
    SizesReadBack(b, id, LayoutOf(config));
    DirectoryReadsBack(b, id, LayoutOf(config));
  }

  /** Open accepts every segment that create writes and finds in it the layout that was written. */
  lemma CreateOpens(b: seq<Byte>, id: Identity, config: seq<ClassConfig>)
    requires ValidConfig(config) && LayoutOf(config).segmentSize < U64_LIMIT
    requires FitsU64(id) && id.poolId != 0 && id.topicId != 0
    requires var l := LayoutOf(config);
             Sane(l) && |b| == l.segmentSize && Written(b, id, l, |l.classes|, |l.directory|, |l.directory|)
    ensures var l := LayoutOf(config);
            var d := Descriptor(id.poolId, id.topicId, VERSION, l.segmentSize);
            && Accepts(b, d, id.topicId)
            && ViewIn(b, HeaderIn(b)) == View(l.classes, l.directory)
  {
    var l := LayoutOf(config);
    var d := Descriptor(id.poolId, id.topicId, VERSION, l.segmentSize);
    HeaderAccepted(b, id, config, d);
    ViewReadsBack(b, id, config);
    ClassesAccepted(config);
    DirectoryAccepted(config);
    SmallEntries(config);
    ChunksAccepted(b, id, l, d);
    LayoutSound(config);
  }

  lemma SmallEntries(config: seq<ClassConfig>)
    requires ValidConfig(config) && LayoutOf(config).segmentSize < U64_LIMIT
    ensures forall j :: 0 <= j < |LayoutOf(config).directory| ==>
              var e := LayoutOf(config).directory[j];
              e.header < U64_LIMIT && e.payload < U64_LIMIT && e.capacity < U32_LIMIT && e.classIndex < U32_LIMIT
  {
    LayoutSound(config);
    var l := LayoutOf(config);
    forall j | 0 <= j < |l.directory| ensures l.directory[j].capacity < U32_LIMIT {
      assert ValidClass(config, l.directory[j].classIndex);
    }
  }

  /** The bytes that an accepted image begins with. */
  lemma AcceptedBytes(b: seq<Byte>, d: Descriptor, topic: nat)
    requires Accepts(b, d, topic)
    ensures |b| >= 80 && |b| == d.segmentSize && d.poolId != 0 && d.version == 1
    ensures && Decode(b[..4]) == 0x4D57504C && Decode(b[4..6]) == 1 && Decode(b[6..8]) == 80
            && Decode(b[8..16]) == |b| && Decode(b[16..24]) == d.poolId && Decode(b[24..32]) == topic
            && Decode(b[40..44]) > 0 && Decode(b[44..48]) > 0 && Decode(b[48..56]) == 80
            && Decode(b[64..72]) <= |b| && Decode(b[64..72]) % 64 == 0
  {
    var h := ReadAt(b, 0, HEADER_SIZE);
    HeaderReading(h);
    assert h[..4] == b[..4] && h[4..6] == b[4..6] && h[6..8] == b[6..8] && h[8..16] == b[8..16];
    assert h[16..24] == b[16..24] && h[24..32] == b[24..32] && h[40..44] == b[40..44] && h[44..48] == b[44..48];
    assert h[48..56] == b[48..56] && h[64..72] == b[64..72];
  }
}
