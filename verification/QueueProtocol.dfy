/** The wake and release frames exchanged over a data connection. */
module QueueProtocol {
  import opened Basics
  import opened BigEndian
  import opened PoolModel

  const QUEUE_MAGIC: nat := 0x4D575135
  const QUEUE_VERSION: nat := 1
  const POOL_LAYOUT_VERSION: nat := 1
  const KIND_WAKE: nat := 1
  const KIND_RELEASE: nat := 2
  const MAX_NAME: nat := 192
  const WAKE_HEADER: nat := 80
  const WAKE_SIZE: nat := 272
  const RELEASE_SIZE: nat := 32
  const WAKE_WIDTHS: seq<nat> := [4, 2, 2, 4, 2, 2, 8, 8, 8, 8]
  const RELEASE_WIDTHS: seq<nat> := [4, 2, 2, 8, 4, 4, 8]

  datatype PoolDescriptor = PoolDescriptor(name: seq<Byte>, poolId: nat, segmentSize: nat, topicId: nat, version: nat)

  datatype Wake = Wake(pool: PoolDescriptor, queueId: nat)

  /** A slash, then at least one and at most 191 bytes that are neither slash nor zero. */
  predicate ValidName(name: seq<Byte>) {
    2 <= |name| <= MAX_NAME && name[0] == 47 && forall k :: 0 < k < |name| ==> name[k] != 47 && name[k] != 0
  }

  lemma WakeTotal()
    ensures Total(WAKE_WIDTHS) == 48
  {
    var head, tail: seq<nat> := [4, 2, 2, 4, 2, 2], [8, 8, 8, 8];
    TotalJoin([4, 2, 2], [4, 2, 2]);
    TotalJoin([8, 8], [8, 8]);
    TotalJoin(head, tail);
    assert head == [4, 2, 2] + [4, 2, 2] && tail == [8, 8] + [8, 8] && WAKE_WIDTHS == head + tail;
  }

  lemma ReleaseTotal()
    ensures Total(RELEASE_WIDTHS) == RELEASE_SIZE
  {
    TotalJoin([4, 4], [8]);
    TotalJoin([8], [4, 4] + [8]);
    TotalJoin([4, 2, 2], [8] + ([4, 4] + [8]));
    assert RELEASE_WIDTHS == [4, 2, 2] + ([8] + ([4, 4] + [8]));
  }

  // ---- release frames ----

  function ReleaseFields(h: ChunkHandle): seq<nat> {
    [QUEUE_MAGIC, QUEUE_VERSION, KIND_RELEASE, h.poolId, h.chunk, h.generation, h.offset]
  }

  function EncodeRelease(h: ChunkHandle): (r: seq<Byte>)
    ensures |r| == RELEASE_SIZE
  {
    ReleaseTotal();
    Pack(RELEASE_WIDTHS, ReleaseFields(h))
  }

  function DecodeRelease(b: seq<Byte>): Option<ChunkHandle> {
    if |b| != RELEASE_SIZE then None
    else
      ReleaseTotal();
      var v := Unpack(RELEASE_WIDTHS, b);
      if v[0] != QUEUE_MAGIC || v[1] != QUEUE_VERSION || v[2] != KIND_RELEASE then None
      else if v[3] == 0 || v[5] == 0 then None
      else Some(ChunkHandle(v[3], v[4], v[5], v[6]))
  }

  ghost predicate HandleFits(h: ChunkHandle) {
    h.poolId < U64_LIMIT && h.chunk < U32_LIMIT && h.generation < U32_LIMIT && h.offset < U64_LIMIT
  }

  /** A frame decodes to a handle exactly when it is that handle's encoding and the handle is real. */
  lemma ReleaseCanonical(h: ChunkHandle, b: seq<Byte>)
    ensures DecodeRelease(b) == Some(h) <==>
              HandleFits(h) && h.poolId != 0 && h.generation != 0 && b == EncodeRelease(h)
  {
    ReleaseTotal();
    Widths();
    if HandleFits(h) && b == EncodeRelease(h) { ReleaseUnpacks(h); }
    if DecodeRelease(b) == Some(h) { ReleasePacks(h, b); }
  }

  lemma ReleaseUnpacks(h: ChunkHandle)
    requires HandleFits(h)
    ensures Total(RELEASE_WIDTHS) == RELEASE_SIZE
    ensures Unpack(RELEASE_WIDTHS, EncodeRelease(h)) == ReleaseFields(h)
  {
    ReleaseTotal();
    Widths();
    assert Fits(RELEASE_WIDTHS, ReleaseFields(h));
    UnpackPack(RELEASE_WIDTHS, ReleaseFields(h), []);
    assert EncodeRelease(h) + [] == EncodeRelease(h);
  }

  lemma ReleasePacks(h: ChunkHandle, b: seq<Byte>)
    requires DecodeRelease(b) == Some(h)
    ensures HandleFits(h) && b == EncodeRelease(h)
  {
    ReleaseTotal();
    Widths();
    UnpackFits(RELEASE_WIDTHS, b);
    PackUnpack(RELEASE_WIDTHS, b);
    assert Unpack(RELEASE_WIDTHS, b) == ReleaseFields(h);
    assert b[..RELEASE_SIZE] == b;
  }

  const RELEASE_OFFSETS: seq<nat> := [0, 4, 6, 8, 16, 20, 24]

  lemma ReleaseLaid()
    ensures Laid(RELEASE_WIDTHS, RELEASE_OFFSETS)
  {
  }

  lemma ReleaseStands(h: ChunkHandle)
    ensures forall k :: 0 <= k < 7 ==> StandsAt(EncodeRelease(h), RELEASE_WIDTHS, RELEASE_OFFSETS, ReleaseFields(h), k)
  {
    ReleaseTotal();
    ReleaseLaid();
    AllStand(RELEASE_WIDTHS, RELEASE_OFFSETS, ReleaseFields(h), []);
    assert EncodeRelease(h) + [] == EncodeRelease(h);
  }

  lemma ReleaseBytes(b: seq<Byte>, h: ChunkHandle)
    requires |b| == RELEASE_SIZE
    requires forall k :: 0 <= k < 7 ==> StandsAt(b, RELEASE_WIDTHS, RELEASE_OFFSETS, ReleaseFields(h), k)
    ensures && b[..4] == Encode(4, QUEUE_MAGIC)
            && b[4..6] == Encode(2, QUEUE_VERSION)
            && b[6..8] == Encode(2, KIND_RELEASE)
            && b[8..16] == Encode(8, h.poolId)
            && b[16..20] == Encode(4, h.chunk)
            && b[20..24] == Encode(4, h.generation)
            && b[24..32] == Encode(8, h.offset)
  {
    assert StandsAt(b, RELEASE_WIDTHS, RELEASE_OFFSETS, ReleaseFields(h), 0);
    assert StandsAt(b, RELEASE_WIDTHS, RELEASE_OFFSETS, ReleaseFields(h), 1);
    assert StandsAt(b, RELEASE_WIDTHS, RELEASE_OFFSETS, ReleaseFields(h), 2);
    assert StandsAt(b, RELEASE_WIDTHS, RELEASE_OFFSETS, ReleaseFields(h), 3);
    assert StandsAt(b, RELEASE_WIDTHS, RELEASE_OFFSETS, ReleaseFields(h), 4);
    assert StandsAt(b, RELEASE_WIDTHS, RELEASE_OFFSETS, ReleaseFields(h), 5);
    assert StandsAt(b, RELEASE_WIDTHS, RELEASE_OFFSETS, ReleaseFields(h), 6);
  }

  /** Where each field of a release frame is written, and its width. */
  lemma ReleaseLayout(h: ChunkHandle)
    ensures var b := EncodeRelease(h);
            && b[..4] == Encode(4, QUEUE_MAGIC)
            && b[4..6] == Encode(2, QUEUE_VERSION)
            && b[6..8] == Encode(2, KIND_RELEASE)
            && b[8..16] == Encode(8, h.poolId)
            && b[16..20] == Encode(4, h.chunk)
            && b[20..24] == Encode(4, h.generation)
            && b[24..32] == Encode(8, h.offset)
  {
    ReleaseStands(h);
    ReleaseBytes(EncodeRelease(h), h);
  }

  lemma ReleaseReads(b: seq<Byte>)
    requires |b| == RELEASE_SIZE
    ensures |b| >= Total(RELEASE_WIDTHS)
    ensures forall k :: 0 <= k < 7 ==> ReadFrom(b, RELEASE_WIDTHS, RELEASE_OFFSETS, Unpack(RELEASE_WIDTHS, b), k)
  {
    ReleaseTotal();
    ReleaseLaid();
    AllRead(RELEASE_WIDTHS, RELEASE_OFFSETS, b);
  }

  lemma ReleaseValues(b: seq<Byte>, v: seq<nat>)
    requires |b| == RELEASE_SIZE && |v| == 7
    requires forall k :: 0 <= k < 7 ==> ReadFrom(b, RELEASE_WIDTHS, RELEASE_OFFSETS, v, k)
    ensures && v[0] == Decode(b[..4]) && v[1] == Decode(b[4..6]) && v[2] == Decode(b[6..8])
            && v[3] == Decode(b[8..16]) && v[4] == Decode(b[16..20]) && v[5] == Decode(b[20..24])
            && v[6] == Decode(b[24..32])
  {
    assert ReadFrom(b, RELEASE_WIDTHS, RELEASE_OFFSETS, v, 0);
    assert ReadFrom(b, RELEASE_WIDTHS, RELEASE_OFFSETS, v, 1);
    assert ReadFrom(b, RELEASE_WIDTHS, RELEASE_OFFSETS, v, 2);
    assert ReadFrom(b, RELEASE_WIDTHS, RELEASE_OFFSETS, v, 3);
    assert ReadFrom(b, RELEASE_WIDTHS, RELEASE_OFFSETS, v, 4);
    assert ReadFrom(b, RELEASE_WIDTHS, RELEASE_OFFSETS, v, 5);
    assert ReadFrom(b, RELEASE_WIDTHS, RELEASE_OFFSETS, v, 6);
  }

  /** And where it is read from: which frames are releases, and of what. */
  lemma ReleaseReading(b: seq<Byte>)
    requires |b| == RELEASE_SIZE
    ensures DecodeRelease(b).Some? <==>
              && Decode(b[..4]) == QUEUE_MAGIC && Decode(b[4..6]) == QUEUE_VERSION && Decode(b[6..8]) == KIND_RELEASE
              && Decode(b[8..16]) != 0 && Decode(b[20..24]) != 0
    ensures DecodeRelease(b).Some? ==>
              DecodeRelease(b).value
              == ChunkHandle(Decode(b[8..16]), Decode(b[16..20]), Decode(b[20..24]), Decode(b[24..32]))
  {
    ReleaseReads(b);
    ReleaseValues(b, Unpack(RELEASE_WIDTHS, b));
  }

  // ---- wake frames ----

  function WakeFields(w: Wake): seq<nat> {
    [QUEUE_MAGIC, QUEUE_VERSION, KIND_WAKE, WAKE_SIZE, |w.pool.name|, w.pool.version, w.pool.segmentSize,
     w.pool.poolId, w.pool.topicId, w.queueId]
  }

  /** Which wake frames can be sent. */
  predicate Encodable(w: Wake) {
    ValidName(w.pool.name) && w.queueId != 0
  }

  function EncodeWake(w: Wake): (r: Option<seq<Byte>>)
    ensures r.Some? <==> Encodable(w)
    ensures r.Some? ==> |r.value| == WAKE_SIZE
  {
    if !Encodable(w) then None
    else
      WakeTotal();
      Some(Pack(WAKE_WIDTHS, WakeFields(w)) + Zeros(WAKE_HEADER - 48) + w.pool.name + Zeros(MAX_NAME - |w.pool.name|))
  }

  predicate AllZero(s: seq<Byte>) {
    forall k :: 0 <= k < |s| ==> s[k] == 0
  }

  /** The fixed fields of a wake frame, when they are those of one. */
  function WakeHeader(b: seq<Byte>): (r: Option<seq<nat>>)
    requires |b| == WAKE_SIZE
    ensures r.Some? ==> |r.value| == 10 && 0 < r.value[4] <= MAX_NAME
  {
    WakeTotal();
    var v := Unpack(WAKE_WIDTHS, b);
    if v[0] != QUEUE_MAGIC || v[1] != QUEUE_VERSION || v[2] != KIND_WAKE || v[3] != WAKE_SIZE then None
    else if v[4] == 0 || v[4] > MAX_NAME then None
    else Some(v)
  }

  function DecodeWake(b: seq<Byte>): Option<Wake> {
    if |b| != WAKE_SIZE then None
    else
      var v := WakeHeader(b);
      if v.None? then None
      else
        var n := v.value[4];
        if !AllZero(b[WAKE_HEADER + n..]) then None
        else
          Some(Wake(PoolDescriptor(b[WAKE_HEADER..WAKE_HEADER + n], v.value[7], v.value[6], v.value[8], v.value[5]),
                    v.value[9]))
  }

  /** decodeQueueWake with its loop over the padding. */
  method ReceiveWake(b: seq<Byte>) returns (r: Option<Wake>)
    ensures r == DecodeWake(b)
  {
    if |b| != WAKE_SIZE { return None; }
    var v := WakeHeader(b);
    if v.None? { return None; }
    var n := v.value[4];
    var i := WAKE_HEADER + n;
    while i < |b|
      invariant WAKE_HEADER + n <= i <= |b|
      invariant AllZero(b[WAKE_HEADER + n..i])
    {
      if b[i] != 0 {
        assert b[WAKE_HEADER + n..][i - (WAKE_HEADER + n)] == b[i];
        return None;
      }
      assert b[WAKE_HEADER + n..i + 1] == b[WAKE_HEADER + n..i] + [b[i]];
      i := i + 1;
    }
    assert b[WAKE_HEADER + n..i] == b[WAKE_HEADER + n..];
    r := Some(Wake(PoolDescriptor(b[WAKE_HEADER..WAKE_HEADER + n], v.value[7], v.value[6], v.value[8], v.value[5]),
                   v.value[9]));
  }

  ghost predicate WakeFits(w: Wake) {
    && w.pool.poolId < U64_LIMIT && w.pool.segmentSize < U64_LIMIT && w.pool.topicId < U64_LIMIT
    && w.pool.version < U16_LIMIT && w.queueId < U64_LIMIT
  }

  lemma WakeUnpacks(w: Wake, rest: seq<Byte>)
    requires WakeFits(w) && |w.pool.name| <= MAX_NAME
    ensures |Pack(WAKE_WIDTHS, WakeFields(w)) + rest| >= Total(WAKE_WIDTHS)
    ensures Unpack(WAKE_WIDTHS, Pack(WAKE_WIDTHS, WakeFields(w)) + rest) == WakeFields(w)
  {
    WakeTotal();
    Widths();
    assert Fits(WAKE_WIDTHS, WakeFields(w));
    UnpackPack(WAKE_WIDTHS, WakeFields(w), rest);
  }

  lemma WakeRoundTrip(w: Wake)
    requires Encodable(w) && WakeFits(w)
    ensures DecodeWake(EncodeWake(w).value) == Some(w)
  {
    WakeTotal();
    var b := EncodeWake(w).value;
    var name := w.pool.name;
    var rest := Zeros(WAKE_HEADER - 48) + name + Zeros(MAX_NAME - |name|);
    assert b == Pack(WAKE_WIDTHS, WakeFields(w)) + rest;
    WakeUnpacks(w, rest);
    assert b[WAKE_HEADER..WAKE_HEADER + |name|] == name;
    assert b[WAKE_HEADER + |name|..] == Zeros(MAX_NAME - |name|);
  }

  const WAKE_OFFSETS: seq<nat> := [0, 4, 6, 8, 12, 14, 16, 24, 32, 40]

  lemma WakeLaid()
    ensures Laid(WAKE_WIDTHS, WAKE_OFFSETS)
  {
  }

  lemma WakeStands(w: Wake)
    requires Encodable(w)
    ensures forall k :: 0 <= k < 10 ==> StandsAt(EncodeWake(w).value, WAKE_WIDTHS, WAKE_OFFSETS, WakeFields(w), k)
  {
    WakeTotal();
    WakeLaid();
    var rest := Zeros(WAKE_HEADER - 48) + w.pool.name + Zeros(MAX_NAME - |w.pool.name|);
    AllStand(WAKE_WIDTHS, WAKE_OFFSETS, WakeFields(w), rest);
    assert EncodeWake(w).value == Pack(WAKE_WIDTHS, WakeFields(w)) + rest;
  }

  lemma WakeBytes(b: seq<Byte>, w: Wake)
    requires |b| == WAKE_SIZE
    requires forall k :: 0 <= k < 10 ==> StandsAt(b, WAKE_WIDTHS, WAKE_OFFSETS, WakeFields(w), k)
    ensures && b[..4] == Encode(4, QUEUE_MAGIC)
            && b[4..6] == Encode(2, QUEUE_VERSION)
            && b[6..8] == Encode(2, KIND_WAKE)
            && b[8..12] == Encode(4, WAKE_SIZE)
            && b[12..14] == Encode(2, |w.pool.name|)
            && b[14..16] == Encode(2, w.pool.version)
            && b[16..24] == Encode(8, w.pool.segmentSize)
            && b[24..32] == Encode(8, w.pool.poolId)
            && b[32..40] == Encode(8, w.pool.topicId)
            && b[40..48] == Encode(8, w.queueId)
  {
    assert StandsAt(b, WAKE_WIDTHS, WAKE_OFFSETS, WakeFields(w), 0);
    assert StandsAt(b, WAKE_WIDTHS, WAKE_OFFSETS, WakeFields(w), 1);
    assert StandsAt(b, WAKE_WIDTHS, WAKE_OFFSETS, WakeFields(w), 2);
    assert StandsAt(b, WAKE_WIDTHS, WAKE_OFFSETS, WakeFields(w), 3);
    assert StandsAt(b, WAKE_WIDTHS, WAKE_OFFSETS, WakeFields(w), 4);
    assert StandsAt(b, WAKE_WIDTHS, WAKE_OFFSETS, WakeFields(w), 5);
    assert StandsAt(b, WAKE_WIDTHS, WAKE_OFFSETS, WakeFields(w), 6);
    assert StandsAt(b, WAKE_WIDTHS, WAKE_OFFSETS, WakeFields(w), 7);
    assert StandsAt(b, WAKE_WIDTHS, WAKE_OFFSETS, WakeFields(w), 8);
    assert StandsAt(b, WAKE_WIDTHS, WAKE_OFFSETS, WakeFields(w), 9);
  }

  lemma WakeTail(w: Wake)
    requires Encodable(w)
    ensures var b := EncodeWake(w).value;
            && b[48..80] == Zeros(32)
            && b[80..80 + |w.pool.name|] == w.pool.name
            && b[80 + |w.pool.name|..] == Zeros(192 - |w.pool.name|)
  {
    WakeTotal();
  }

  /** Where each field of a wake frame is written, and its width. */
  lemma WakeLayout(w: Wake)
    requires Encodable(w)
    ensures var b := EncodeWake(w).value;
            && b[..4] == Encode(4, QUEUE_MAGIC)
            && b[4..6] == Encode(2, QUEUE_VERSION)
            && b[6..8] == Encode(2, KIND_WAKE)
            && b[8..12] == Encode(4, WAKE_SIZE)
            && b[12..14] == Encode(2, |w.pool.name|)
            && b[14..16] == Encode(2, w.pool.version)
            && b[16..24] == Encode(8, w.pool.segmentSize)
            && b[24..32] == Encode(8, w.pool.poolId)
            && b[32..40] == Encode(8, w.pool.topicId)
            && b[40..48] == Encode(8, w.queueId)
            && b[48..80] == Zeros(32)
            && b[80..80 + |w.pool.name|] == w.pool.name
            && b[80 + |w.pool.name|..] == Zeros(192 - |w.pool.name|)
  {
    WakeStands(w);
    WakeBytes(EncodeWake(w).value, w);
    WakeTail(w);
  }

  lemma WakeReads(b: seq<Byte>)
    requires |b| == WAKE_SIZE
    ensures |b| >= Total(WAKE_WIDTHS)
    ensures forall k :: 0 <= k < 10 ==> ReadFrom(b, WAKE_WIDTHS, WAKE_OFFSETS, Unpack(WAKE_WIDTHS, b), k)
  {
    WakeTotal();
    WakeLaid();
    AllRead(WAKE_WIDTHS, WAKE_OFFSETS, b);
  }

  lemma WakeValues(b: seq<Byte>, v: seq<nat>)
    requires |b| == WAKE_SIZE && |v| == 10
    requires forall k :: 0 <= k < 10 ==> ReadFrom(b, WAKE_WIDTHS, WAKE_OFFSETS, v, k)
    ensures && v[0] == Decode(b[..4]) && v[1] == Decode(b[4..6]) && v[2] == Decode(b[6..8])
            && v[3] == Decode(b[8..12]) && v[4] == Decode(b[12..14]) && v[5] == Decode(b[14..16])
            && v[6] == Decode(b[16..24]) && v[7] == Decode(b[24..32]) && v[8] == Decode(b[32..40])
            && v[9] == Decode(b[40..48])
  {
    assert ReadFrom(b, WAKE_WIDTHS, WAKE_OFFSETS, v, 0);
    assert ReadFrom(b, WAKE_WIDTHS, WAKE_OFFSETS, v, 1);
    assert ReadFrom(b, WAKE_WIDTHS, WAKE_OFFSETS, v, 2);
    assert ReadFrom(b, WAKE_WIDTHS, WAKE_OFFSETS, v, 3);
    assert ReadFrom(b, WAKE_WIDTHS, WAKE_OFFSETS, v, 4);
    assert ReadFrom(b, WAKE_WIDTHS, WAKE_OFFSETS, v, 5);
    assert ReadFrom(b, WAKE_WIDTHS, WAKE_OFFSETS, v, 6);
    assert ReadFrom(b, WAKE_WIDTHS, WAKE_OFFSETS, v, 7);
    assert ReadFrom(b, WAKE_WIDTHS, WAKE_OFFSETS, v, 8);
    assert ReadFrom(b, WAKE_WIDTHS, WAKE_OFFSETS, v, 9);
  }

  /** And where it is read from: which frames are wakes, and what they say. */
  lemma WakeReading(b: seq<Byte>)
    requires |b| == WAKE_SIZE
    ensures var n := Decode(b[12..14]);
            && (DecodeWake(b).Some? <==>
                  && Decode(b[..4]) == QUEUE_MAGIC && Decode(b[4..6]) == QUEUE_VERSION
                  && Decode(b[6..8]) == KIND_WAKE && Decode(b[8..12]) == WAKE_SIZE
                  && 0 < n <= 192 && forall k :: 80 + n <= k < 272 ==> b[k] == 0)
            && (DecodeWake(b).Some? ==>
                  DecodeWake(b).value == Wake(PoolDescriptor(b[80..80 + n], Decode(b[24..32]), Decode(b[16..24]),
                                                             Decode(b[32..40]), Decode(b[14..16])),
                                              Decode(b[40..48])))
  {
    WakeReads(b);
    WakeValues(b, Unpack(WAKE_WIDTHS, b));
    PaddingZero(b, 80 + Decode(b[12..14]));
  }

  lemma PaddingZero(b: seq<Byte>, at: nat)
    ensures at <= |b| ==> (AllZero(b[at..]) <==> forall k :: at <= k < |b| ==> b[k] == 0)
  {
    if at <= |b| && AllZero(b[at..]) {
      forall k | at <= k < |b| ensures b[k] == 0 { assert b[at..][k - at] == b[k]; }
    }
  }

  /** The parts of an accepted frame. */
  lemma WakeParts(b: seq<Byte>, w: Wake)
    requires DecodeWake(b) == Some(w)
    ensures |w.pool.name| <= MAX_NAME
    ensures b == Pack(WAKE_WIDTHS, WakeFields(w)) + b[48..WAKE_HEADER] + w.pool.name + Zeros(MAX_NAME - |w.pool.name|)
  {
    WakeTotal();
    PackUnpack(WAKE_WIDTHS, b);
    assert Unpack(WAKE_WIDTHS, b) == WakeFields(w);
    var n := |w.pool.name|;
    assert b[WAKE_HEADER + n..] == Zeros(MAX_NAME - n);
    assert b == b[..48] + b[48..WAKE_HEADER] + w.pool.name + b[WAKE_HEADER + n..];
  }

  /**
  Decoding is not injective: the bytes between the fields and the name are never looked at. An
  accepted frame is the encoding of what it decodes to exactly when those bytes are zero.
  */
  lemma WakeCanonical(b: seq<Byte>, w: Wake)
    requires DecodeWake(b) == Some(w) && Encodable(w)
    ensures EncodeWake(w) == Some(b) <==> AllZero(b[48..WAKE_HEADER])
  {
    WakeTotal();
    WakeParts(b, w);
    var e := EncodeWake(w).value;
    assert e[48..WAKE_HEADER] == Zeros(WAKE_HEADER - 48);
    if AllZero(b[48..WAKE_HEADER]) { assert b[48..WAKE_HEADER] == Zeros(WAKE_HEADER - 48); }
  }

  lemma SameReading(a: seq<Byte>, b: seq<Byte>)
    requires |a| == |b| == WAKE_SIZE && forall k :: 0 <= k < WAKE_SIZE && !(48 <= k < 80) ==> a[k] == b[k]
    ensures DecodeWake(a) == DecodeWake(b)
  {
    WakeReading(a);
    WakeReading(b);
    assert a[..4] == b[..4] && a[4..6] == b[4..6] && a[6..8] == b[6..8] && a[8..12] == b[8..12];
    assert a[12..14] == b[12..14] && a[14..16] == b[14..16] && a[16..24] == b[16..24] && a[24..32] == b[24..32];
    assert a[32..40] == b[32..40] && a[40..48] == b[40..48];
    var n := Decode(a[12..14]);
    if n <= 192 { assert a[80..80 + n] == b[80..80 + n]; }
  }

  /** Two different frames with the same meaning. */
  lemma WakeNotInjective(w: Wake) returns (a: seq<Byte>, b: seq<Byte>)
    requires Encodable(w) && WakeFits(w)
    ensures a != b && DecodeWake(a) == DecodeWake(b) == Some(w)
  {
    WakeRoundTrip(w);
    WakeTail(w);
    a := EncodeWake(w).value;
    b := a[60 := 1];
    assert a[60] == a[48..80][12];
    SameReading(a, b);
    assert a[60] == 0;
  }

  /** validateQueueWake. */
  function ValidateWake(w: Wake, queueId: nat, topicId: nat): ErrorCode {
    if !ValidName(w.pool.name) || w.pool.version != POOL_LAYOUT_VERSION || w.pool.segmentSize == 0
       || w.pool.poolId == 0 || w.pool.topicId != topicId || w.queueId == 0 || w.queueId != queueId
    then InvalidFrame
    else Ok
  }

  /** A wake that validates could have been sent, so on valid wakes only the ignored bytes are free. */
  lemma ValidWakesAreEncodings(b: seq<Byte>, w: Wake, queueId: nat, topicId: nat)
    requires DecodeWake(b) == Some(w) && ValidateWake(w, queueId, topicId) == Ok
    ensures EncodeWake(w) == Some(b) <==> AllZero(b[48..WAKE_HEADER])
  {
    WakeCanonical(b, w);
  }

  /**
  A subscriber of queue `queueId` on topic `topicId` acts on a frame exactly when it is a wake that names both,
  and a mapped pool of the layout it knows.
  */
  lemma WakeAccepted(b: seq<Byte>, queueId: nat, topicId: nat)
    requires |b| == WAKE_SIZE
    ensures (DecodeWake(b).Some? && ValidateWake(DecodeWake(b).value, queueId, topicId) == Ok) <==>
              && Decode(b[..4]) == QUEUE_MAGIC && Decode(b[4..6]) == QUEUE_VERSION
              && Decode(b[6..8]) == KIND_WAKE && Decode(b[8..12]) == WAKE_SIZE
              && Decode(b[32..40]) == topicId && Decode(b[40..48]) == queueId && queueId != 0
              && Decode(b[14..16]) == POOL_LAYOUT_VERSION && Decode(b[16..24]) != 0 && Decode(b[24..32]) != 0
              && var n := Decode(b[12..14]);
              2 <= n <= 192 && ValidName(b[80..80 + n]) && forall k :: 80 + n <= k < 272 ==> b[k] == 0
  {
    WakeReading(b);
  }

  /** So the wake of one connection is refused at every other queue and topic, and accepted at its own. */
  lemma WakeForAnother(w: Wake, queueId: nat, topicId: nat)
    requires Encodable(w) && WakeFits(w)
    requires w.pool.version == POOL_LAYOUT_VERSION && w.pool.segmentSize != 0 && w.pool.poolId != 0
    ensures DecodeWake(EncodeWake(w).value).Some?
    ensures ValidateWake(DecodeWake(EncodeWake(w).value).value, queueId, topicId)
            == if w.queueId == queueId && w.pool.topicId == topicId then Ok else InvalidFrame
  {
    WakeRoundTrip(w);
  }
}
