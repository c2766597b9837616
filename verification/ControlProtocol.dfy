/** The registry's control protocol: payload fields, frame headers, and the server's frame parser. */
module ControlProtocol {
  import opened Basics
  import opened BigEndian

  const CONTROL_MAGIC: nat := 0x4D574332
  const CONTROL_VERSION: nat := 5
  const CONTROL_HEADER_SIZE: nat := 16
  const MAX_PAYLOAD: nat := 65536
  const CONTROL_WIDTHS: seq<nat> := [4, 2, 2, 4, 4]

  // ---- payload fields ----

  datatype Field = U16(value: nat) | U32(value: nat) | U64(value: nat) | Text(bytes: seq<Byte>)

  datatype Kind = KU16 | KU32 | KU64 | KText

  function KindOf(f: Field): Kind {
    match f
    case U16(_) => KU16
    case U32(_) => KU32
    case U64(_) => KU64
    case Text(_) => KText
  }

  ghost predicate FieldOk(f: Field) {
    match f
    case U16(v) => v < U16_LIMIT
    case U32(v) => v < U32_LIMIT
    case U64(v) => v < U64_LIMIT
    case Text(s) => |s| < U32_LIMIT
  }

  /** What the writer appends for a field. */
  function Written(f: Field): seq<Byte> {
    match f
    case U16(v) => Encode(2, v)
    case U32(v) => Encode(4, v)
    case U64(v) => Encode(8, v)
    case Text(s) => Encode(4, |s|) + s
  }

  /** What the reader makes of the bytes at its offset: a field and the rest, or a failure. */
  function Taken(k: Kind, s: seq<Byte>): (r: Option<(Field, seq<Byte>)>)
  {
    match k
    case KU16 => if |s| < 2 then None else Some((U16(Decode(s[..2])), s[2..]))
    case KU32 => if |s| < 4 then None else Some((U32(Decode(s[..4])), s[4..]))
    case KU64 => if |s| < 8 then None else Some((U64(Decode(s[..8])), s[8..]))
    case KText =>
      if |s| < 4 then None
      else
        var n := Decode(s[..4]);
        if n > |s| - 4 then None else Some((Text(s[4..4 + n]), s[4 + n..]))
  }

  /** Reading a field gives exactly a prefix that writing it produces, and fails on anything shorter. */
  lemma FieldCanonical(f: Field, s: seq<Byte>, rest: seq<Byte>)
    ensures Taken(KindOf(f), s) == Some((f, rest)) <==> FieldOk(f) && s == Written(f) + rest
  {
    Widths();
    if FieldOk(f) && s == Written(f) + rest { WrittenIsTaken(f, rest); }
    if Taken(KindOf(f), s) == Some((f, rest)) { TakenIsWritten(f, s, rest); }
  }

  lemma WrittenIsTaken(f: Field, rest: seq<Byte>)
    requires FieldOk(f)
    ensures Taken(KindOf(f), Written(f) + rest) == Some((f, rest))
  {
    Widths();
    var s := Written(f) + rest;
    match f
    case U16(v) => DecodeEncode(2, v); assert s[..2] == Encode(2, v) && s[2..] == rest;
    case U32(v) => DecodeEncode(4, v); assert s[..4] == Encode(4, v) && s[4..] == rest;
    case U64(v) => DecodeEncode(8, v); assert s[..8] == Encode(8, v) && s[8..] == rest;
    case Text(t) =>
      DecodeEncode(4, |t|);
      assert s[..4] == Encode(4, |t|) && s[4..4 + |t|] == t && s[4 + |t|..] == rest;
  }

  lemma TakenIsWritten(f: Field, s: seq<Byte>, rest: seq<Byte>)
    requires Taken(KindOf(f), s) == Some((f, rest))
    ensures FieldOk(f) && s == Written(f) + rest
  {
    Widths();
    match f
    case U16(v) => EncodeDecode(s[..2]);
    case U32(v) => EncodeDecode(s[..4]);
    case U64(v) => EncodeDecode(s[..8]);
    case Text(t) =>
      EncodeDecode(s[..4]);
      assert s == s[..4] + t + rest;
  }

  /** The bytes of each kind of field. */
  lemma FieldBytes(f: Field)
    ensures f.U16? ==> |Written(f)| == 2 && forall i :: 0 <= i < 2 ==> Written(f)[i] == f.value / Pow256(1 - i) % 256
    ensures f.U32? ==> |Written(f)| == 4 && forall i :: 0 <= i < 4 ==> Written(f)[i] == f.value / Pow256(3 - i) % 256
    ensures f.U64? ==> |Written(f)| == 8 && forall i :: 0 <= i < 8 ==> Written(f)[i] == f.value / Pow256(7 - i) % 256
    ensures f.Text? ==> |Written(f)| == 4 + |f.bytes| && Written(f)[4..] == f.bytes
                        && forall i :: 0 <= i < 4 ==> Written(f)[i] == |f.bytes| / Pow256(3 - i) % 256
  {
    var n, v := if f.U16? then 2 else if f.U64? then 8 else 4, if f.Text? then |f.bytes| else f.value;
    forall i: nat | i < n ensures Encode(n, v)[i] == v / Pow256(n - 1 - i) % 256 { EncodeAt(n, v, i); }
  }

  class PayloadWriter {
    var data: seq<Byte>

    constructor ()
      ensures data == []
    {
      data := [];
    }

    /** appendBigEndian: the bytes of `v`, most significant first. */
    method AppendBigEndian(n: nat, v: nat)
      modifies this
      ensures data == old(data) + Encode(n, v)
    {
      var i := 0;
      while i < n
        invariant 0 <= i <= n && data == old(data) + Encode(n, v)[..i]
      {
        EncodeAt(n, v, i);
        data := data + [v / Pow256(n - 1 - i) % 256];
        i := i + 1;
      }
      assert Encode(n, v)[..n] == Encode(n, v);
    }

    /** Whether the field could be written: only a text of 2^32 bytes or more cannot. */
    method Write(f: Field) returns (ok: bool)
      modifies this
      ensures ok <==> f.Text? ==> |f.bytes| < U32_LIMIT
      ensures data == if ok then old(data) + Written(f) else old(data)
    {
      ok := true;
      match f {
        case U16(v) => AppendBigEndian(2, v);
        case U32(v) => AppendBigEndian(4, v);
        case U64(v) => AppendBigEndian(8, v);
        case Text(s) =>
          if |s| >= U32_LIMIT { return false; }
          AppendBigEndian(4, |s|);
          data := data + s;
          assert old(data) + Encode(4, |s|) + s == old(data) + Written(f);
      }
    }
  }

  class PayloadReader {
    const data: seq<Byte>
    var offset: nat

    constructor (data: seq<Byte>)
      ensures Ready() && Rest() == data
    {
      this.data := data;
      offset := 0;
    }

    ghost predicate Ready()
      reads this
    {
      offset <= |data|
    }

    ghost function Rest(): seq<Byte>
      requires Ready()
      reads this
    {
      data[offset..]
    }

    method ReadNumber(n: nat) returns (r: Option<nat>)
      requires Ready()
      modifies this
      ensures Ready()
      ensures r.Some? <==> |old(Rest())| >= n
      ensures r.Some? ==> r.value == Decode(old(Rest())[..n]) && Rest() == old(Rest())[n..]
      ensures r.None? ==> offset == old(offset)
    {
      if |data| - offset < n { return None; }
      assert Rest()[..n] == data[offset..offset + n];
      var v := DecodeFrom(data[offset..offset + n]);
      offset := offset + n;
      r := Some(v);
    }

    /** A failed text read may already have consumed the length. */
    method Read(k: Kind) returns (r: Option<Field>)
      requires Ready()
      modifies this
      ensures Ready()
      ensures var taken := Taken(k, old(Rest()));
              && (r.Some? <==> taken.Some?)
              && (r.Some? ==> taken.value == (r.value, Rest()))
              && (r.None? && k != KText ==> offset == old(offset))
    {
      match k {
        case KU16 => var v := ReadNumber(2); r := if v.Some? then Some(U16(v.value)) else None;
        case KU32 => var v := ReadNumber(4); r := if v.Some? then Some(U32(v.value)) else None;
        case KU64 => var v := ReadNumber(8); r := if v.Some? then Some(U64(v.value)) else None;
        case KText =>
          var size := ReadNumber(4);
          if size.None? || size.value > |data| - offset { return None; }
          ghost var s, rest := old(Rest()), Rest();
          assert rest[..size.value] == s[4..4 + size.value] && rest[size.value..] == s[4 + size.value..];
          r := Some(Text(data[offset..offset + size.value]));
          assert r.value.bytes == rest[..size.value];
          offset := offset + size.value;
          assert Rest() == rest[size.value..];
      }
    }
  }

  // ---- payloads ----

  function WrittenAll(fs: seq<Field>): seq<Byte> {
    if fs == [] then [] else Written(fs[0]) + WrittenAll(fs[1..])
  }

  function Kinds(fs: seq<Field>): (r: seq<Kind>)
    ensures |r| == |fs|
  {
    if fs == [] then [] else [KindOf(fs[0])] + Kinds(fs[1..])
  }

  function TakenAll(ks: seq<Kind>, s: seq<Byte>): Option<(seq<Field>, seq<Byte>)> {
    if ks == [] then Some(([], s))
    else
      match Taken(ks[0], s)
      case None => None
      case Some((f, rest)) =>
        match TakenAll(ks[1..], rest)
        case None => None
        case Some((fs, rest')) => Some(([f] + fs, rest'))
  }

  /** Fields read back in the order written, whatever follows them. */
  lemma {:induction false} PayloadRoundTrip(fs: seq<Field>, rest: seq<Byte>)
    requires forall k :: 0 <= k < |fs| ==> FieldOk(fs[k])
    ensures TakenAll(Kinds(fs), WrittenAll(fs) + rest) == Some((fs, rest))
  {
    if fs == [] {
      assert WrittenAll(fs) + rest == rest;
    } else {
      var tail := WrittenAll(fs[1..]) + rest;
      PayloadRoundTrip(fs[1..], rest);
      assert WrittenAll(fs) + rest == Written(fs[0]) + tail;
      WrittenIsTaken(fs[0], tail);
      assert Kinds(fs)[0] == KindOf(fs[0]) && Kinds(fs)[1..] == Kinds(fs[1..]);
      assert fs == [fs[0]] + fs[1..];
    }
  }

  /** The response envelope: an error code, a text, and the rest as body. */
  datatype Envelope = Envelope(error: nat, message: seq<Byte>, body: seq<Byte>)

  function EncodeResponse(e: Envelope): seq<Byte> {
    Written(U16(e.error)) + Written(Text(e.message)) + e.body
  }

  function DecodeResponse(s: seq<Byte>): Option<Envelope> {
    match Taken(KU16, s)
    case None => None
    case Some((error, rest)) =>
      match Taken(KText, rest)
      case None => None
      case Some((message, body)) => Some(Envelope(error.value, message.bytes, body))
  }

  lemma ResponseCanonical(e: Envelope, s: seq<Byte>)
    ensures DecodeResponse(s) == Some(e) <==>
              e.error < U16_LIMIT && |e.message| < U32_LIMIT && s == EncodeResponse(e)
  {
    var rest := Written(Text(e.message)) + e.body;
    FieldCanonical(U16(e.error), s, rest);
    FieldCanonical(Text(e.message), rest, e.body);
    assert EncodeResponse(e) == Written(U16(e.error)) + rest;
    if DecodeResponse(s) == Some(e) {
      FieldCanonical(Text(e.message), s[2..], e.body);
      FieldCanonical(U16(e.error), s, s[2..]);
    }
  }

  /** The envelope by byte offsets. */
  lemma ResponseReading(s: seq<Byte>)
    ensures DecodeResponse(s).Some? <==> |s| >= 6 && Decode(s[2..6]) <= |s| - 6
    ensures DecodeResponse(s).Some? ==>
              var n := Decode(s[2..6]);
              DecodeResponse(s).value == Envelope(Decode(s[..2]), s[6..6 + n], s[6 + n..])
  {
    if |s| >= 6 {
      var n := Decode(s[2..6]);
      assert s[2..][..4] == s[2..6];
      if n <= |s| - 6 { assert s[2..][4..4 + n] == s[6..6 + n] && s[2..][4 + n..] == s[6 + n..]; }
    }
  }

  // ---- frames ----

  datatype ControlHeader = ControlHeader(magic: nat, version: nat, opcode: nat, requestId: nat, payloadSize: nat)

  datatype HeaderValidation = HeaderValid | HeaderBadMagic | HeaderUnsupportedVersion | HeaderTooLarge

  lemma ControlTotal()
    ensures Total(CONTROL_WIDTHS) == CONTROL_HEADER_SIZE
  {
    assert CONTROL_WIDTHS[1..][1..][1..] == [4, 4];
  }

  function HeaderFields(h: ControlHeader): seq<nat> {
    [h.magic, h.version, h.opcode, h.requestId, h.payloadSize]
  }

  function EncodeHeader(h: ControlHeader): (r: seq<Byte>)
    ensures |r| == CONTROL_HEADER_SIZE
  {
    ControlTotal();
    Pack(CONTROL_WIDTHS, HeaderFields(h))
  }

  function DecodeHeader(b: seq<Byte>): Option<ControlHeader> {
    if |b| != CONTROL_HEADER_SIZE then None
    else
      ControlTotal();
      var v := Unpack(CONTROL_WIDTHS, b);
      Some(ControlHeader(v[0], v[1], v[2], v[3], v[4]))
  }

  ghost predicate Sized(h: ControlHeader) {
    && h.magic < U32_LIMIT && h.version < U16_LIMIT && h.opcode < U16_LIMIT
    && h.requestId < U32_LIMIT && h.payloadSize < U32_LIMIT
  }

  lemma HeaderCanonical(h: ControlHeader, b: seq<Byte>)
    ensures DecodeHeader(b) == Some(h) <==> Sized(h) && b == EncodeHeader(h)
  {
    ControlTotal();
    Widths();
    if Sized(h) && b == EncodeHeader(h) {
      assert Fits(CONTROL_WIDTHS, HeaderFields(h));
      UnpackPack(CONTROL_WIDTHS, HeaderFields(h), []);
      assert b + [] == b;
    }
    if DecodeHeader(b) == Some(h) {
      UnpackFits(CONTROL_WIDTHS, b);
      PackUnpack(CONTROL_WIDTHS, b);
      assert HeaderFields(h) == Unpack(CONTROL_WIDTHS, b);
      assert b[..CONTROL_HEADER_SIZE] == b;
    }
  }

  const CONTROL_OFFSETS: seq<nat> := [0, 4, 6, 8, 12]

  /** Where each field of a header is written, and its width. */
  lemma HeaderLayout(h: ControlHeader)
    ensures var b := EncodeHeader(h);
            && b[..4] == Encode(4, h.magic)
            && b[4..6] == Encode(2, h.version)
            && b[6..8] == Encode(2, h.opcode)
            && b[8..12] == Encode(4, h.requestId)
            && b[12..16] == Encode(4, h.payloadSize)
  {
    ControlTotal();
    var values := HeaderFields(h);
    var rest: seq<Byte> := [];
    assert EncodeHeader(h) + rest == EncodeHeader(h);
    FieldAt(CONTROL_WIDTHS, CONTROL_OFFSETS, values, rest, 0);
    FieldAt(CONTROL_WIDTHS, CONTROL_OFFSETS, values, rest, 1);
    FieldAt(CONTROL_WIDTHS, CONTROL_OFFSETS, values, rest, 2);
    FieldAt(CONTROL_WIDTHS, CONTROL_OFFSETS, values, rest, 3);
    FieldAt(CONTROL_WIDTHS, CONTROL_OFFSETS, values, rest, 4);
  }

  /** And where it is read from. */
  lemma HeaderReading(b: seq<Byte>)
    requires |b| == CONTROL_HEADER_SIZE
    ensures DecodeHeader(b) == Some(ControlHeader(Decode(b[..4]), Decode(b[4..6]), Decode(b[6..8]), Decode(b[8..12]),
                                                  Decode(b[12..16])))
  {
    ControlTotal();
    FieldFrom(CONTROL_WIDTHS, CONTROL_OFFSETS, b, 0);
    FieldFrom(CONTROL_WIDTHS, CONTROL_OFFSETS, b, 1);
    FieldFrom(CONTROL_WIDTHS, CONTROL_OFFSETS, b, 2);
    FieldFrom(CONTROL_WIDTHS, CONTROL_OFFSETS, b, 3);
    FieldFrom(CONTROL_WIDTHS, CONTROL_OFFSETS, b, 4);
  }

  function Validate(h: ControlHeader): HeaderValidation {
    if h.magic != CONTROL_MAGIC then HeaderBadMagic
    else if h.version != CONTROL_VERSION then HeaderUnsupportedVersion
    else if h.payloadSize > MAX_PAYLOAD then HeaderTooLarge
    else HeaderValid
  }

  predicate KnownRequest(opcode: nat) {
    1 <= opcode <= 13
  }

  datatype Request = Request(opcode: nat, requestId: nat, payload: seq<Byte>)

  function EncodeFrame(r: Request): seq<Byte> {
    EncodeHeader(ControlHeader(CONTROL_MAGIC, CONTROL_VERSION, r.opcode, r.requestId, |r.payload|)) + r.payload
  }

  ghost predicate Sendable(r: Request) {
    r.opcode < U16_LIMIT && r.requestId < U32_LIMIT && |r.payload| <= MAX_PAYLOAD
  }

  // ---- parsing a stream of frames ----

  /** What the server does on account of one frame. */
  datatype Event = Dispatch(request: Request) | Reject(requestId: nat, error: ErrorCode)

  datatype Front = Incomplete | Frame(request: Request, rest: seq<Byte>) | Bad(requestId: nat, error: ErrorCode)

  function FrontOf(s: seq<Byte>): Front {
    if |s| < CONTROL_HEADER_SIZE then Incomplete
    else
      var h := DecodeHeader(s[..CONTROL_HEADER_SIZE]).value;
      match Validate(h)
      case HeaderBadMagic => Bad(h.requestId, InvalidControlMessage)
      case HeaderUnsupportedVersion => Bad(h.requestId, UnsupportedProtocolVersion)
      case HeaderTooLarge => Bad(h.requestId, MessageTooLarge)
      case HeaderValid =>
        var end := CONTROL_HEADER_SIZE + h.payloadSize;
        if |s| < end then Incomplete
        else Frame(Request(h.opcode, h.requestId, s[CONTROL_HEADER_SIZE..end]), s[end..])
  }

  function EventOf(r: Request): Event {
    if KnownRequest(r.opcode) then Dispatch(r) else Reject(r.requestId, UnknownOpcode)
  }

  /** The events of a stream, the bytes kept, and whether a bad header ended it. */
  datatype Parsed = Parsed(events: seq<Event>, kept: seq<Byte>, ended: bool)

  function Prepend(e: Event, p: Parsed): Parsed {
    p.(events := [e] + p.events)
  }

  /** Parsing taken up again after `p`. */
  function Then(p: Parsed, q: Parsed): Parsed {
    q.(events := p.events + q.events)
  }

  lemma PrependThen(e: Event, p: Parsed, q: Parsed)
    ensures Prepend(e, Then(p, q)) == Then(Prepend(e, p), q)
  {
    assert [e] + (p.events + q.events) == ([e] + p.events) + q.events;
  }

  function Parse(s: seq<Byte>): Parsed
    decreases |s|
  {
    match FrontOf(s)
    case Incomplete => Parsed([], s, false)
    case Bad(id, error) => Parsed([Reject(id, error)], [], true)
    case Frame(r, rest) => Prepend(EventOf(r), Parse(rest))
  }

  /** The same by byte offsets alone: what a client's bytes stand for. */
  function ByOffsets(s: seq<Byte>): Parsed
    decreases |s|
  {
    if |s| < 16 then Parsed([], s, false)
    else
      var opcode, id, size := Decode(s[6..8]), Decode(s[8..12]), Decode(s[12..16]);
      if Decode(s[..4]) != CONTROL_MAGIC then Parsed([Reject(id, InvalidControlMessage)], [], true)
      else if Decode(s[4..6]) != CONTROL_VERSION then Parsed([Reject(id, UnsupportedProtocolVersion)], [], true)
      else if size > MAX_PAYLOAD then Parsed([Reject(id, MessageTooLarge)], [], true)
      else if |s| < 16 + size then Parsed([], s, false)
      else
        var rest := ByOffsets(s[16 + size..]);
        var event := if 1 <= opcode <= 13 then Dispatch(Request(opcode, id, s[16..16 + size]))
                     else Reject(id, UnknownOpcode);
        rest.(events := [event] + rest.events)
  }

  lemma {:induction false} ParseIsByOffsets(s: seq<Byte>)
    ensures Parse(s) == ByOffsets(s)
    decreases |s|
  {
    if |s| >= 16 {
      FrontReading(s);
      if FrontOf(s).Frame? { ParseIsByOffsets(FrontOf(s).rest); }
    }
  }

  /** The front of a stream in terms of the bytes of its header. */
  lemma FrontReading(s: seq<Byte>)
    requires |s| >= 16
    ensures var opcode, id, size := Decode(s[6..8]), Decode(s[8..12]), Decode(s[12..16]);
            FrontOf(s) == if Decode(s[..4]) != CONTROL_MAGIC then Bad(id, InvalidControlMessage)
                          else if Decode(s[4..6]) != CONTROL_VERSION then Bad(id, UnsupportedProtocolVersion)
                          else if size > MAX_PAYLOAD then Bad(id, MessageTooLarge)
                          else if |s| < 16 + size then Incomplete
                          else Frame(Request(opcode, id, s[16..16 + size]), s[16 + size..])
  {
    var b := s[..16];
    HeaderReading(b);
    assert b[..4] == s[..4] && b[4..6] == s[4..6] && b[6..8] == s[6..8] && b[8..12] == s[8..12]
           && b[12..16] == s[12..16];
  }

  lemma FrontOfFrame(r: Request, rest: seq<Byte>)
    requires Sendable(r)
    ensures FrontOf(EncodeFrame(r) + rest) == Frame(r, rest)
  {
    var s := EncodeFrame(r) + rest;
    var h := ControlHeader(CONTROL_MAGIC, CONTROL_VERSION, r.opcode, r.requestId, |r.payload|);
    assert s[..CONTROL_HEADER_SIZE] == EncodeHeader(h);
    HeaderCanonical(h, EncodeHeader(h));
    assert s[CONTROL_HEADER_SIZE..CONTROL_HEADER_SIZE + |r.payload|] == r.payload;
    assert s[CONTROL_HEADER_SIZE + |r.payload|..] == rest;
  }

  function EncodeFrames(rs: seq<Request>): seq<Byte> {
    if rs == [] then [] else EncodeFrame(rs[0]) + EncodeFrames(rs[1..])
  }

  function EventsOf(rs: seq<Request>): seq<Event> {
    if rs == [] then [] else [EventOf(rs[0])] + EventsOf(rs[1..])
  }

  /** Any concatenation of encoded requests is parsed into exactly them, with nothing left over. */
  lemma {:induction false} ParseOfFrames(rs: seq<Request>)
    requires forall k :: 0 <= k < |rs| ==> Sendable(rs[k])
    ensures Parse(EncodeFrames(rs)) == Parsed(EventsOf(rs), [], false)
  {
    if rs != [] {
      FrontOfFrame(rs[0], EncodeFrames(rs[1..]));
      ParseOfFrames(rs[1..]);
    }
  }

  lemma FrontExtends(a: seq<Byte>, b: seq<Byte>)
    requires FrontOf(a).Frame?
    ensures FrontOf(a + b) == Frame(FrontOf(a).request, FrontOf(a).rest + b)
  {
    assert (a + b)[..CONTROL_HEADER_SIZE] == a[..CONTROL_HEADER_SIZE];
  }

  /** Until a bad header ends it, parsing may be suspended after any byte; after one, nothing counts. */
  lemma {:induction false} ParseResume(a: seq<Byte>, b: seq<Byte>)
    ensures Parse(a + b) == if Parse(a).ended then Parse(a) else Then(Parse(a), Parse(Parse(a).kept + b))
    decreases |a|
  {
    var front := FrontOf(a);
    if front.Frame? {
      FrontExtends(a, b);
      ParseResume(front.rest, b);
      PrependThen(EventOf(front.request), Parse(front.rest), Parse(Parse(front.rest).kept + b));
    } else if front.Bad? {
      assert (a + b)[..CONTROL_HEADER_SIZE] == a[..CONTROL_HEADER_SIZE];
    } else {
      assert [] + Parse(a + b).events == Parse(a + b).events;
    }
  }

  /** What is kept is always less than one full frame. */
  lemma {:induction false} KeptIsPartial(s: seq<Byte>)
    ensures var kept := Parse(s).kept;
            FrontOf(kept).Incomplete? && |kept| < CONTROL_HEADER_SIZE + MAX_PAYLOAD
    decreases |s|
  {
    if FrontOf(s).Frame? { KeptIsPartial(FrontOf(s).rest); }
  }

  function Flat(pieces: seq<seq<Byte>>): seq<Byte> {
    if pieces == [] then [] else Flat(pieces[..|pieces| - 1]) + pieces[|pieces| - 1]
  }

  // ---- reading ----

  /** The most bytes one read yields, and the most the buffer may hold when it is parsed. */
  const READ_SIZE: nat := 4096
  const BUFFER_LIMIT: nat := CONTROL_HEADER_SIZE + MAX_PAYLOAD

  const NOTHING: Parsed := Parsed([], [], false)

  /**
  One read: the piece joins the buffer, which is refused as a whole if that makes it too long, and is parsed
  otherwise. A client that is being closed is read like any other.
  */
  function Reads(p: Parsed, piece: seq<Byte>): Parsed {
    var input := p.kept + piece;
    if |input| > BUFFER_LIMIT then Parsed(p.events + [Reject(0, MessageTooLarge)], [], true)
    else Parse(input).(events := p.events + Parse(input).events, ended := p.ended || Parse(input).ended)
  }

  /** What the server makes of a client's bytes when it reads them in these pieces. */
  function Fed(pieces: seq<seq<Byte>>): Parsed {
    if pieces == [] then NOTHING else Reads(Fed(pieces[..|pieces| - 1]), pieces[|pieces| - 1])
  }

  /** One client's input buffer. */
  class ClientInput {
    var input: seq<Byte>
    var closing: bool

    constructor ()
      ensures input == [] && !closing
    {
      input, closing := [], false;
    }

    /** parseFrames: consumes every complete frame of the buffer. */
    method ParseFrames() returns (events: seq<Event>)
      modifies this
      ensures Parsed(events, input, closing) == Parse(old(input)).(ended := old(closing) || Parse(old(input)).ended)
      ensures !old(closing) ==> Parsed(events, input, closing) == ByOffsets(old(input))
    {
      ParseIsByOffsets(input);
      events := ConsumeFrames();
    }

    method ConsumeFrames() returns (events: seq<Event>)
      modifies this
      ensures Parsed(events, input, closing) == Parse(old(input)).(ended := old(closing) || Parse(old(input)).ended)
    {
      events := [];
      ghost var all := Parse(input);
      assert [] + all.events == all.events;
      while |input| >= CONTROL_HEADER_SIZE
        invariant closing == old(closing) && all == Parse(input).(events := events + Parse(input).events)
        decreases |input|
      {
        ghost var more := Parse(input).events;
        var h := DecodeHeader(input[..CONTROL_HEADER_SIZE]).value;
        var validation := Validate(h);
        if validation != HeaderValid {
          var error := match validation
            case HeaderUnsupportedVersion => UnsupportedProtocolVersion
            case HeaderTooLarge => MessageTooLarge
            case _ => InvalidControlMessage;
          events := events + [Reject(h.requestId, error)];
          closing := true;
          input := [];
          return;
        }
        var size := CONTROL_HEADER_SIZE + h.payloadSize;
        if |input| < size {
          assert more == [] && events + [] == events;
          return;
        }
        var request := Request(h.opcode, h.requestId, input[CONTROL_HEADER_SIZE..size]);
        input := input[size..];
        var event := if !KnownRequest(h.opcode) then Reject(h.requestId, UnknownOpcode) else Dispatch(request);
        assert more == [event] + Parse(input).events;
        assert events + more == (events + [event]) + Parse(input).events;
        events := events + [event];
      }
      assert Parse(input).events == [] && events + [] == events;
    }

    /** What follows a successful recv in readClient. */
    method Receive(piece: seq<Byte>, events: seq<Event>) returns (more: seq<Event>)
      modifies this
      ensures Parsed(more, input, closing) == Reads(Parsed(events, old(input), old(closing)), piece)
    {
      input := input + piece;
      if |input| > BUFFER_LIMIT {
        more := events + [Reject(0, MessageTooLarge)];
        closing := true;
        input := [];
        return;
      }
      more := ParseFrames();
      more := events + more;
    }

    /**
    readClient: reads until nothing is there or the client is to be closed. It does not ask at the start
    whether that is so already, so a client waiting to be closed is read once more.
    */
    method ReadClient(waiting: seq<seq<Byte>>, events: seq<Event>, ghost before: seq<seq<Byte>>)
      returns (more: seq<Event>, used: nat)
      requires Parsed(events, input, closing) == Fed(before)
      modifies this
      ensures used <= |waiting| && Parsed(more, input, closing) == Fed(before + waiting[..used])
      ensures used < |waiting| ==> closing
      ensures old(closing) && waiting != [] ==> used == 1
    {
      more, used := events, 0;
      assert before + waiting[..0] == before;
      while used < |waiting|
        invariant used <= |waiting| && Parsed(more, input, closing) == Fed(before + waiting[..used])
        invariant used == 0 ==> closing == old(closing)
        invariant used > 0 ==> !closing && !old(closing)
      {
        ghost var next := before + waiting[..used + 1];
        assert next[..|next| - 1] == before + waiting[..used];
        more := Receive(waiting[used], more);
        used := used + 1;
        if closing { return; }
      }
    }

    /** The read at one poll: what it leaves waiting, it leaves only if the client is to be closed. */
    method Poll(waiting: seq<seq<Byte>>, events: seq<Event>, ghost before: seq<seq<Byte>>)
      returns (more: seq<Event>, left: seq<seq<Byte>>, ghost read: seq<seq<Byte>>)
      requires Parsed(events, input, closing) == Fed(before)
      modifies this
      ensures read + left == before + waiting && Parsed(more, input, closing) == Fed(read)
      ensures !closing ==> left == []
    {
      var used;
      more, used := ReadClient(waiting, events, before);
      read, left := before + waiting[..used], waiting[used..];
      assert waiting[..used] + waiting[used..] == waiting;
      assert (before + waiting[..used]) + waiting[used..] == before + (waiting[..used] + waiting[used..]);
    }

    /**
    pollOnce as one client sees it: at each poll more bytes may have come, the client is read, and if it is to
    be closed and its output could be written it goes. What it was sent for is decided by the pieces read.
    */
    method Serve(arrivals: seq<seq<seq<Byte>>>, flushed: seq<bool>)
      returns (events: seq<Event>, gone: bool, ghost read: seq<seq<Byte>>)
      requires input == [] && !closing && |flushed| == |arrivals|
      modifies this
      ensures read <= Joined(arrivals) && Parsed(events, input, closing) == Fed(read)
      ensures gone ==> closing
      ensures !closing ==> read == Joined(arrivals)
    {
      events, gone, read := [], false, [];
      var waiting, k := [], 0;
      while k < |arrivals|
        invariant 0 <= k <= |arrivals| && read + waiting == Joined(arrivals[..k])
        invariant Parsed(events, input, closing) == Fed(read) && (!closing ==> waiting == [])
      {
        Arrived(arrivals, k, read, waiting);
        waiting := waiting + arrivals[k];
        events, waiting, read := Poll(waiting, events, read);
        if closing && flushed[k] {
          StillToCome(arrivals, k + 1, read, waiting);
          return events, true, read;
        }
        k := k + 1;
      }
      StillToCome(arrivals, k, read, waiting);
    }
  }

  function Joined(arrivals: seq<seq<seq<Byte>>>): seq<seq<Byte>> {
    if arrivals == [] then [] else Joined(arrivals[..|arrivals| - 1]) + arrivals[|arrivals| - 1]
  }

  lemma Arrived(arrivals: seq<seq<seq<Byte>>>, k: nat, read: seq<seq<Byte>>, waiting: seq<seq<Byte>>)
    requires k < |arrivals| && read + waiting == Joined(arrivals[..k])
    ensures read + (waiting + arrivals[k]) == Joined(arrivals[..k + 1])
  {
    assert arrivals[..k + 1][..k] == arrivals[..k];
    assert read + (waiting + arrivals[k]) == (read + waiting) + arrivals[k];
  }

  lemma {:induction false} JoinedPrefix(arrivals: seq<seq<seq<Byte>>>, k: nat)
    requires k <= |arrivals|
    ensures Joined(arrivals[..k]) <= Joined(arrivals)
    decreases |arrivals|
  {
    if k == |arrivals| {
      assert arrivals[..k] == arrivals;
    } else {
      var front := arrivals[..|arrivals| - 1];
      assert front[..k] == arrivals[..k];
      JoinedPrefix(front, k);
    }
  }

  lemma StillToCome(arrivals: seq<seq<seq<Byte>>>, k: nat, read: seq<seq<Byte>>, waiting: seq<seq<Byte>>)
    requires k <= |arrivals| && read + waiting == Joined(arrivals[..k])
    ensures read <= Joined(arrivals)
    ensures k == |arrivals| && waiting == [] ==> read == Joined(arrivals)
  {
    JoinedPrefix(arrivals, k);
    assert read <= read + waiting;
    if k == |arrivals| { assert arrivals[..k] == arrivals; }
  }
}
