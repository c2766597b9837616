/**
The four kinds of record a pool segment holds, as bytes. Every multi-byte field is written big-endian.
That is so in the source for all but the chunk headers, which it leaves in the byte order of the host.
*/
module SegmentImage {
  import opened Basics
  import opened BigEndian
  import opened SegmentLayout

  const MAGIC: nat := 0x4D57504C
  const VERSION: nat := 1

  datatype Identity = Identity(poolId: nat, topicId: nat, ownerPid: nat)

  datatype Header = Header(
    magic: nat, version: nat, headerSize: nat, segmentSize: nat, poolId: nat, topicId: nat, ownerPid: nat,
    classCount: nat, chunkCount: nat, classOffset: nat, directoryOffset: nat, storageOffset: nat)

  datatype ChunkHeader = ChunkHeader(
    refs: nat, state: nat, payloadSize: nat, capacity: nat, classIndex: nat, generation: nat,
    sequence: nat, timestamp: nat, topicId: nat, poolId: nat, reserved: nat)

  // ---- the four kinds of record ----

  const HEADER_WIDTHS: seq<nat> := [4, 2, 2, 8, 8, 8, 8, 4, 4, 8, 8, 8]
  const CLASS_WIDTHS: seq<nat> := [8, 4, 4]
  const ENTRY_WIDTHS: seq<nat> := [8, 8, 8, 4]
  const CHUNK_WIDTHS: seq<nat> := [4, 4, 4, 4, 4, 4, 8, 8, 8, 8, 8]

  lemma HeaderTotal()
    ensures Total(HEADER_WIDTHS) == 72
  {
    TotalOf3(4, 2, 2);
    TotalOf3(8, 8, 8);
    TotalOf3(8, 4, 4);
    TotalJoin([8, 4, 4], [8, 8, 8]);
    TotalJoin([8, 8, 8], [8, 4, 4] + [8, 8, 8]);
    TotalJoin([4, 2, 2], [8, 8, 8] + ([8, 4, 4] + [8, 8, 8]));
    assert HEADER_WIDTHS == [4, 2, 2] + ([8, 8, 8] + ([8, 4, 4] + [8, 8, 8]));
  }

  lemma ClassTotal()
    ensures Total(CLASS_WIDTHS) == 16
  {
    TotalOf3(8, 4, 4);
  }

  lemma EntryTotal()
    ensures Total(ENTRY_WIDTHS) == 28
  {
    TotalOf3(8, 8, 8);
    TotalJoin([8, 8, 8], [4]);
    assert ENTRY_WIDTHS == [8, 8, 8] + [4];
  }

  lemma ChunkTotal()
    ensures Total(CHUNK_WIDTHS) == 64
  {
    TotalOf3(4, 4, 4);
    TotalOf3(8, 8, 8);
    TotalJoin([8, 8, 8], [8, 8]);
    TotalJoin([4, 4, 4], [8, 8, 8] + [8, 8]);
    TotalJoin([4, 4, 4], [4, 4, 4] + ([8, 8, 8] + [8, 8]));
    assert CHUNK_WIDTHS == [4, 4, 4] + ([4, 4, 4] + ([8, 8, 8] + [8, 8]));
  }

  function HeaderFields(h: Header): seq<nat> {
    [h.magic, h.version, h.headerSize, h.segmentSize, h.poolId, h.topicId, h.ownerPid,
     h.classCount, h.chunkCount, h.classOffset, h.directoryOffset, h.storageOffset]
  }

  function EncodeHeader(h: Header): (r: seq<Byte>)
    ensures |r| == HEADER_SIZE
  {
    HeaderTotal();
    Pack(HEADER_WIDTHS, HeaderFields(h)) + Zeros(8)
  }

  function DecodeHeader(b: seq<Byte>): Header
    requires |b| == HEADER_SIZE
  {
    HeaderTotal();
    var v := Unpack(HEADER_WIDTHS, b);
    Header(v[0], v[1], v[2], v[3], v[4], v[5], v[6], v[7], v[8], v[9], v[10], v[11])
  }

  lemma HeaderRoundTrip(h: Header)
    requires Fits(HEADER_WIDTHS, HeaderFields(h))
    ensures DecodeHeader(EncodeHeader(h)) == h
  {
    HeaderTotal();
    UnpackPack(HEADER_WIDTHS, HeaderFields(h), Zeros(8));
  }

  const HEADER_OFFSETS: seq<nat> := [0, 4, 6, 8, 16, 24, 32, 40, 44, 48, 56, 64]

  lemma HeaderEnd(h: Header)
    ensures EncodeHeader(h)[72..] == Zeros(8)
  {
    HeaderTotal();
  }

  lemma HeaderLaid()
    ensures Laid(HEADER_WIDTHS, HEADER_OFFSETS)
  {
  }

  lemma HeaderStands(h: Header)
    ensures forall k :: 0 <= k < 12 ==> StandsAt(EncodeHeader(h), HEADER_WIDTHS, HEADER_OFFSETS, HeaderFields(h), k)
  {
    HeaderTotal();
    HeaderLaid();
    AllStand(HEADER_WIDTHS, HEADER_OFFSETS, HeaderFields(h), Zeros(8));
  }

  lemma HeaderBytes(b: seq<Byte>, h: Header)
    requires forall k :: 0 <= k < 12 ==> StandsAt(b, HEADER_WIDTHS, HEADER_OFFSETS, HeaderFields(h), k)
    requires |b| >= 72
    ensures && b[..4] == Encode(4, h.magic)
            && b[4..6] == Encode(2, h.version)
            && b[6..8] == Encode(2, h.headerSize)
            && b[8..16] == Encode(8, h.segmentSize)
            && b[16..24] == Encode(8, h.poolId)
            && b[24..32] == Encode(8, h.topicId)
            && b[32..40] == Encode(8, h.ownerPid)
            && b[40..44] == Encode(4, h.classCount)
            && b[44..48] == Encode(4, h.chunkCount)
            && b[48..56] == Encode(8, h.classOffset)
            && b[56..64] == Encode(8, h.directoryOffset)
            && b[64..72] == Encode(8, h.storageOffset)
  {
    assert StandsAt(b, HEADER_WIDTHS, HEADER_OFFSETS, HeaderFields(h), 0);
    assert StandsAt(b, HEADER_WIDTHS, HEADER_OFFSETS, HeaderFields(h), 1);
    assert StandsAt(b, HEADER_WIDTHS, HEADER_OFFSETS, HeaderFields(h), 2);
    assert StandsAt(b, HEADER_WIDTHS, HEADER_OFFSETS, HeaderFields(h), 3);
    assert StandsAt(b, HEADER_WIDTHS, HEADER_OFFSETS, HeaderFields(h), 4);
    assert StandsAt(b, HEADER_WIDTHS, HEADER_OFFSETS, HeaderFields(h), 5);
    assert StandsAt(b, HEADER_WIDTHS, HEADER_OFFSETS, HeaderFields(h), 6);
    assert StandsAt(b, HEADER_WIDTHS, HEADER_OFFSETS, HeaderFields(h), 7);
    assert StandsAt(b, HEADER_WIDTHS, HEADER_OFFSETS, HeaderFields(h), 8);
    assert StandsAt(b, HEADER_WIDTHS, HEADER_OFFSETS, HeaderFields(h), 9);
    assert StandsAt(b, HEADER_WIDTHS, HEADER_OFFSETS, HeaderFields(h), 10);
    assert StandsAt(b, HEADER_WIDTHS, HEADER_OFFSETS, HeaderFields(h), 11);
  }

  /** Where each field of the segment header is written, and its width. */
  lemma HeaderLayout(h: Header)
    ensures var b := EncodeHeader(h);
            && b[..4] == Encode(4, h.magic)
            && b[4..6] == Encode(2, h.version)
            && b[6..8] == Encode(2, h.headerSize)
            && b[8..16] == Encode(8, h.segmentSize)
            && b[16..24] == Encode(8, h.poolId)
            && b[24..32] == Encode(8, h.topicId)
            && b[32..40] == Encode(8, h.ownerPid)
            && b[40..44] == Encode(4, h.classCount)
            && b[44..48] == Encode(4, h.chunkCount)
            && b[48..56] == Encode(8, h.classOffset)
            && b[56..64] == Encode(8, h.directoryOffset)
            && b[64..72] == Encode(8, h.storageOffset)
            && b[72..] == Zeros(8)
  {
    HeaderStands(h);
    HeaderBytes(EncodeHeader(h), h);
    HeaderEnd(h);
  }

  lemma HeaderReads(b: seq<Byte>)
    requires |b| == HEADER_SIZE
    ensures |b| >= Total(HEADER_WIDTHS)
    ensures forall k :: 0 <= k < 12 ==> ReadFrom(b, HEADER_WIDTHS, HEADER_OFFSETS, Unpack(HEADER_WIDTHS, b), k)
  {
    HeaderTotal();
    HeaderLaid();
    AllRead(HEADER_WIDTHS, HEADER_OFFSETS, b);
  }

  lemma HeaderValues(b: seq<Byte>, v: seq<nat>)
    requires |b| == HEADER_SIZE && |v| == 12
    requires forall k :: 0 <= k < 12 ==> ReadFrom(b, HEADER_WIDTHS, HEADER_OFFSETS, v, k)
    ensures Header(v[0], v[1], v[2], v[3], v[4], v[5], v[6], v[7], v[8], v[9], v[10], v[11])
            == Header(Decode(b[..4]), Decode(b[4..6]), Decode(b[6..8]), Decode(b[8..16]),
                                      Decode(b[16..24]), Decode(b[24..32]), Decode(b[32..40]), Decode(b[40..44]),
                                        Decode(b[44..48]), Decode(b[48..56]), Decode(b[56..64]), Decode(b[64..72]))
  {
    assert ReadFrom(b, HEADER_WIDTHS, HEADER_OFFSETS, v, 0);
    assert ReadFrom(b, HEADER_WIDTHS, HEADER_OFFSETS, v, 1);
    assert ReadFrom(b, HEADER_WIDTHS, HEADER_OFFSETS, v, 2);
    assert ReadFrom(b, HEADER_WIDTHS, HEADER_OFFSETS, v, 3);
    assert ReadFrom(b, HEADER_WIDTHS, HEADER_OFFSETS, v, 4);
    assert ReadFrom(b, HEADER_WIDTHS, HEADER_OFFSETS, v, 5);
    assert ReadFrom(b, HEADER_WIDTHS, HEADER_OFFSETS, v, 6);
    assert ReadFrom(b, HEADER_WIDTHS, HEADER_OFFSETS, v, 7);
    assert ReadFrom(b, HEADER_WIDTHS, HEADER_OFFSETS, v, 8);
    assert ReadFrom(b, HEADER_WIDTHS, HEADER_OFFSETS, v, 9);
    assert ReadFrom(b, HEADER_WIDTHS, HEADER_OFFSETS, v, 10);
    assert ReadFrom(b, HEADER_WIDTHS, HEADER_OFFSETS, v, 11);
  }

  /** And where it is read from. */
  lemma HeaderReading(b: seq<Byte>)
    requires |b| == HEADER_SIZE
    ensures DecodeHeader(b) == Header(Decode(b[..4]), Decode(b[4..6]), Decode(b[6..8]), Decode(b[8..16]),
                                      Decode(b[16..24]), Decode(b[24..32]), Decode(b[32..40]), Decode(b[40..44]),
                                        Decode(b[44..48]), Decode(b[48..56]), Decode(b[56..64]), Decode(b[64..72]))
  {
    HeaderReads(b);
    HeaderValues(b, Unpack(HEADER_WIDTHS, b));
  }

  function EncodeClass(c: SizeClass): (r: seq<Byte>)
    ensures |r| == CLASS_SIZE
  {
    ClassTotal();
    Pack(CLASS_WIDTHS, [c.capacity, c.first, c.count]) + Zeros(8)
  }

  function DecodeClass(b: seq<Byte>): SizeClass
    requires |b| == CLASS_SIZE
  {
    ClassTotal();
    var v := Unpack(CLASS_WIDTHS, b);
    SizeClass(v[0], v[1], v[2])
  }

  lemma ClassRoundTrip(c: SizeClass)
    requires c.capacity < U64_LIMIT && c.first < U32_LIMIT && c.count < U32_LIMIT
    ensures DecodeClass(EncodeClass(c)) == c
  {
    ClassTotal();
    Widths();
    var fields := [c.capacity, c.first, c.count];
    assert Fits(CLASS_WIDTHS, fields);
    UnpackPack(CLASS_WIDTHS, fields, Zeros(8));
  }

  const CLASS_OFFSETS: seq<nat> := [0, 8, 12]

  /** Where each field of a size class is written, and its width. */
  lemma ClassLayout(c: SizeClass)
    ensures var b := EncodeClass(c);
            && b[..8] == Encode(8, c.capacity)
            && b[8..12] == Encode(4, c.first)
            && b[12..16] == Encode(4, c.count)
            && b[16..] == Zeros(8)
  {
    ClassTotal();
    var values := [c.capacity, c.first, c.count];
    var rest: seq<Byte> := Zeros(8);
    FieldAt(CLASS_WIDTHS, CLASS_OFFSETS, values, rest, 0);
    FieldAt(CLASS_WIDTHS, CLASS_OFFSETS, values, rest, 1);
    FieldAt(CLASS_WIDTHS, CLASS_OFFSETS, values, rest, 2);
  }

  /** And where it is read from. */
  lemma ClassReading(b: seq<Byte>)
    requires |b| == CLASS_SIZE
    ensures DecodeClass(b) == SizeClass(Decode(b[..8]), Decode(b[8..12]), Decode(b[12..16]))
  {
    ClassTotal();
    FieldFrom(CLASS_WIDTHS, CLASS_OFFSETS, b, 0);
    FieldFrom(CLASS_WIDTHS, CLASS_OFFSETS, b, 1);
    FieldFrom(CLASS_WIDTHS, CLASS_OFFSETS, b, 2);
  }

  function EncodeEntry(e: Entry): (r: seq<Byte>)
    ensures |r| == ENTRY_SIZE
  {
    EntryTotal();
    Pack(ENTRY_WIDTHS, [e.header, e.payload, e.capacity, e.classIndex]) + Zeros(4)
  }

  function DecodeEntry(b: seq<Byte>): Entry
    requires |b| == ENTRY_SIZE
  {
    EntryTotal();
    var v := Unpack(ENTRY_WIDTHS, b);
    Entry(v[0], v[1], v[2], v[3])
  }

  lemma EntryRoundTrip(e: Entry)
    requires e.header < U64_LIMIT && e.payload < U64_LIMIT && e.capacity < U64_LIMIT && e.classIndex < U32_LIMIT
    ensures DecodeEntry(EncodeEntry(e)) == e
  {
    EntryTotal();
    Widths();
    UnpackPack(ENTRY_WIDTHS, [e.header, e.payload, e.capacity, e.classIndex], Zeros(4));
  }

  const ENTRY_OFFSETS: seq<nat> := [0, 8, 16, 24]

  /** Where each field of a directory entry is written, and its width. */
  lemma EntryLayout(e: Entry)
    ensures var b := EncodeEntry(e);
            && b[..8] == Encode(8, e.header)
            && b[8..16] == Encode(8, e.payload)
            && b[16..24] == Encode(8, e.capacity)
            && b[24..28] == Encode(4, e.classIndex)
            && b[28..] == Zeros(4)
  {
    EntryTotal();
    var values := [e.header, e.payload, e.capacity, e.classIndex];
    var rest: seq<Byte> := Zeros(4);
    FieldAt(ENTRY_WIDTHS, ENTRY_OFFSETS, values, rest, 0);
    FieldAt(ENTRY_WIDTHS, ENTRY_OFFSETS, values, rest, 1);
    FieldAt(ENTRY_WIDTHS, ENTRY_OFFSETS, values, rest, 2);
    FieldAt(ENTRY_WIDTHS, ENTRY_OFFSETS, values, rest, 3);
  }

  /** And where it is read from. */
  lemma EntryReading(b: seq<Byte>)
    requires |b| == ENTRY_SIZE
    ensures DecodeEntry(b) == Entry(Decode(b[..8]), Decode(b[8..16]), Decode(b[16..24]), Decode(b[24..28]))
  {
    EntryTotal();
    FieldFrom(ENTRY_WIDTHS, ENTRY_OFFSETS, b, 0);
    FieldFrom(ENTRY_WIDTHS, ENTRY_OFFSETS, b, 1);
    FieldFrom(ENTRY_WIDTHS, ENTRY_OFFSETS, b, 2);
    FieldFrom(ENTRY_WIDTHS, ENTRY_OFFSETS, b, 3);
  }

  function ChunkFields(c: ChunkHeader): seq<nat> {
    [c.refs, c.state, c.payloadSize, c.capacity, c.classIndex, c.generation, c.sequence, c.timestamp,
     c.topicId, c.poolId, c.reserved]
  }

  function EncodeChunk(c: ChunkHeader): (r: seq<Byte>)
    ensures |r| == CHUNK_HEADER_SIZE
  {
    ChunkTotal();
    Pack(CHUNK_WIDTHS, ChunkFields(c))
  }

  function DecodeChunk(b: seq<Byte>): ChunkHeader
    requires |b| == CHUNK_HEADER_SIZE
  {
    ChunkTotal();
    var v := Unpack(CHUNK_WIDTHS, b);
    ChunkHeader(v[0], v[1], v[2], v[3], v[4], v[5], v[6], v[7], v[8], v[9], v[10])
  }

  lemma ChunkRoundTrip(c: ChunkHeader)
    requires Fits(CHUNK_WIDTHS, ChunkFields(c))
    ensures DecodeChunk(EncodeChunk(c)) == c
  {
    ChunkTotal();
    UnpackPack(CHUNK_WIDTHS, ChunkFields(c), []);
    assert EncodeChunk(c) + [] == EncodeChunk(c);
  }

  const CHUNK_OFFSETS: seq<nat> := [0, 4, 8, 12, 16, 20, 24, 32, 40, 48, 56]

  lemma ChunkLaid()
    ensures Laid(CHUNK_WIDTHS, CHUNK_OFFSETS)
  {
  }

  lemma ChunkStands(c: ChunkHeader)
    ensures forall k :: 0 <= k < 11 ==> StandsAt(EncodeChunk(c), CHUNK_WIDTHS, CHUNK_OFFSETS, ChunkFields(c), k)
  {
    ChunkTotal();
    ChunkLaid();
    AllStand(CHUNK_WIDTHS, CHUNK_OFFSETS, ChunkFields(c), []);
    assert EncodeChunk(c) + [] == EncodeChunk(c);
  }

  lemma ChunkBytes(b: seq<Byte>, c: ChunkHeader)
    requires forall k :: 0 <= k < 11 ==> StandsAt(b, CHUNK_WIDTHS, CHUNK_OFFSETS, ChunkFields(c), k)
    requires |b| >= 64
    ensures && b[..4] == Encode(4, c.refs)
            && b[4..8] == Encode(4, c.state)
            && b[8..12] == Encode(4, c.payloadSize)
            && b[12..16] == Encode(4, c.capacity)
            && b[16..20] == Encode(4, c.classIndex)
            && b[20..24] == Encode(4, c.generation)
            && b[24..32] == Encode(8, c.sequence)
            && b[32..40] == Encode(8, c.timestamp)
            && b[40..48] == Encode(8, c.topicId)
            && b[48..56] == Encode(8, c.poolId)
            && b[56..64] == Encode(8, c.reserved)
  {
    assert StandsAt(b, CHUNK_WIDTHS, CHUNK_OFFSETS, ChunkFields(c), 0);
    assert StandsAt(b, CHUNK_WIDTHS, CHUNK_OFFSETS, ChunkFields(c), 1);
    assert StandsAt(b, CHUNK_WIDTHS, CHUNK_OFFSETS, ChunkFields(c), 2);
    assert StandsAt(b, CHUNK_WIDTHS, CHUNK_OFFSETS, ChunkFields(c), 3);
    assert StandsAt(b, CHUNK_WIDTHS, CHUNK_OFFSETS, ChunkFields(c), 4);
    assert StandsAt(b, CHUNK_WIDTHS, CHUNK_OFFSETS, ChunkFields(c), 5);
    assert StandsAt(b, CHUNK_WIDTHS, CHUNK_OFFSETS, ChunkFields(c), 6);
    assert StandsAt(b, CHUNK_WIDTHS, CHUNK_OFFSETS, ChunkFields(c), 7);
    assert StandsAt(b, CHUNK_WIDTHS, CHUNK_OFFSETS, ChunkFields(c), 8);
    assert StandsAt(b, CHUNK_WIDTHS, CHUNK_OFFSETS, ChunkFields(c), 9);
    assert StandsAt(b, CHUNK_WIDTHS, CHUNK_OFFSETS, ChunkFields(c), 10);
  }

  /** Where each field of a chunk header lies, and its width. */
  lemma ChunkLayout(c: ChunkHeader)
    ensures var b := EncodeChunk(c);
            && b[..4] == Encode(4, c.refs)
            && b[4..8] == Encode(4, c.state)
            && b[8..12] == Encode(4, c.payloadSize)
            && b[12..16] == Encode(4, c.capacity)
            && b[16..20] == Encode(4, c.classIndex)
            && b[20..24] == Encode(4, c.generation)
            && b[24..32] == Encode(8, c.sequence)
            && b[32..40] == Encode(8, c.timestamp)
            && b[40..48] == Encode(8, c.topicId)
            && b[48..56] == Encode(8, c.poolId)
            && b[56..64] == Encode(8, c.reserved)
  {
    ChunkStands(c);
    ChunkBytes(EncodeChunk(c), c);
  }

  lemma ChunkReads(b: seq<Byte>)
    requires |b| == CHUNK_HEADER_SIZE
    ensures |b| >= Total(CHUNK_WIDTHS)
    ensures forall k :: 0 <= k < 11 ==> ReadFrom(b, CHUNK_WIDTHS, CHUNK_OFFSETS, Unpack(CHUNK_WIDTHS, b), k)
  {
    ChunkTotal();
    ChunkLaid();
    AllRead(CHUNK_WIDTHS, CHUNK_OFFSETS, b);
  }

  lemma ChunkValues(b: seq<Byte>, v: seq<nat>)
    requires |b| == CHUNK_HEADER_SIZE && |v| == 11
    requires forall k :: 0 <= k < 11 ==> ReadFrom(b, CHUNK_WIDTHS, CHUNK_OFFSETS, v, k)
    ensures ChunkHeader(v[0], v[1], v[2], v[3], v[4], v[5], v[6], v[7], v[8], v[9], v[10])
            == ChunkHeader(Decode(b[..4]), Decode(b[4..8]), Decode(b[8..12]), Decode(b[12..16]),
                                          Decode(b[16..20]), Decode(b[20..24]), Decode(b[24..32]), Decode(b[32..40]),
                                            Decode(b[40..48]), Decode(b[48..56]), Decode(b[56..64]))
  {
    assert ReadFrom(b, CHUNK_WIDTHS, CHUNK_OFFSETS, v, 0);
    assert ReadFrom(b, CHUNK_WIDTHS, CHUNK_OFFSETS, v, 1);
    assert ReadFrom(b, CHUNK_WIDTHS, CHUNK_OFFSETS, v, 2);
    assert ReadFrom(b, CHUNK_WIDTHS, CHUNK_OFFSETS, v, 3);
    assert ReadFrom(b, CHUNK_WIDTHS, CHUNK_OFFSETS, v, 4);
    assert ReadFrom(b, CHUNK_WIDTHS, CHUNK_OFFSETS, v, 5);
    assert ReadFrom(b, CHUNK_WIDTHS, CHUNK_OFFSETS, v, 6);
    assert ReadFrom(b, CHUNK_WIDTHS, CHUNK_OFFSETS, v, 7);
    assert ReadFrom(b, CHUNK_WIDTHS, CHUNK_OFFSETS, v, 8);
    assert ReadFrom(b, CHUNK_WIDTHS, CHUNK_OFFSETS, v, 9);
    assert ReadFrom(b, CHUNK_WIDTHS, CHUNK_OFFSETS, v, 10);
  }

  /** And where it is read from. */
  lemma ChunkReading(b: seq<Byte>)
    requires |b| == CHUNK_HEADER_SIZE
    ensures DecodeChunk(b) == ChunkHeader(Decode(b[..4]), Decode(b[4..8]), Decode(b[8..12]), Decode(b[12..16]),
                                          Decode(b[16..20]), Decode(b[20..24]), Decode(b[24..32]), Decode(b[32..40]),
                                            Decode(b[40..48]), Decode(b[48..56]), Decode(b[56..64]))
  {
    ChunkReads(b);
    ChunkValues(b, Unpack(CHUNK_WIDTHS, b));
  }
}
