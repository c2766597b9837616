/** The framing of payloads sent over a Unix socket, and the subscriber's resumable decoder. */
module FrameProtocol {
  import opened Basics
  import opened BigEndian

  const FRAME_MAGIC: nat := 0x4D573031
  const QUEUE_MAGIC: nat := 0x4D575135
  const FRAME_HEADER_SIZE: nat := 24
  const FRAME_WIDTHS: seq<nat> := [4, 4, 8, 8]

  datatype FrameHeader = FrameHeader(magic: nat, payloadSize: nat, sequence: nat, timestamp: nat)

  datatype Validation = Valid | BadMagic | PayloadTooLarge

  datatype Message = Message(payload: seq<Byte>, sequence: nat, timestamp: nat)

  lemma FrameTotal()
    ensures Total(FRAME_WIDTHS) == FRAME_HEADER_SIZE
  {
    assert FRAME_WIDTHS[1..][1..] == [8, 8];
  }

  function Fields(h: FrameHeader): seq<nat> {
    [h.magic, h.payloadSize, h.sequence, h.timestamp]
  }

  /** Whether the header's fields have their declared widths. */
  ghost predicate Sized(h: FrameHeader) {
    h.magic < U32_LIMIT && h.payloadSize < U32_LIMIT && h.sequence < U64_LIMIT && h.timestamp < U64_LIMIT
  }

  function EncodeHeader(h: FrameHeader): (r: seq<Byte>)
    ensures |r| == FRAME_HEADER_SIZE
  {
    FrameTotal();
    Pack(FRAME_WIDTHS, Fields(h))
  }

  function DecodeHeader(b: seq<Byte>): Option<FrameHeader> {
    if |b| != FRAME_HEADER_SIZE then None
    else
      FrameTotal();
      var v := Unpack(FRAME_WIDTHS, b);
      Some(FrameHeader(v[0], v[1], v[2], v[3]))
  }

  function Validate(h: FrameHeader, maxSize: nat): Validation {
    if h.magic != FRAME_MAGIC then BadMagic
    else if h.payloadSize > maxSize then PayloadTooLarge
    else Valid
  }

  /** Headers and 24-byte strings correspond one to one. */
  lemma HeaderCanonical(h: FrameHeader, b: seq<Byte>)
    ensures DecodeHeader(b) == Some(h) <==> Sized(h) && b == EncodeHeader(h)
  {
    FrameTotal();
    Widths();
    if Sized(h) && b == EncodeHeader(h) {
      assert Fits(FRAME_WIDTHS, Fields(h));
      UnpackPack(FRAME_WIDTHS, Fields(h), []);
      assert b + [] == b;
    }
    if DecodeHeader(b) == Some(h) {
      UnpackFits(FRAME_WIDTHS, b);
      PackUnpack(FRAME_WIDTHS, b);
      assert Fields(h) == Unpack(FRAME_WIDTHS, b);
      assert b[..FRAME_HEADER_SIZE] == b;
    }
  }

  const FRAME_OFFSETS: seq<nat> := [0, 4, 8, 16]

  /** Where each field of a header is written, and its width. */
  lemma HeaderLayout(h: FrameHeader)
    ensures var b := EncodeHeader(h);
            && b[..4] == Encode(4, h.magic)
            && b[4..8] == Encode(4, h.payloadSize)
            && b[8..16] == Encode(8, h.sequence)
            && b[16..24] == Encode(8, h.timestamp)
  {
    FrameTotal();
    var values := Fields(h);
    var rest: seq<Byte> := [];
    assert EncodeHeader(h) + rest == EncodeHeader(h);
    FieldAt(FRAME_WIDTHS, FRAME_OFFSETS, values, rest, 0);
    FieldAt(FRAME_WIDTHS, FRAME_OFFSETS, values, rest, 1);
    FieldAt(FRAME_WIDTHS, FRAME_OFFSETS, values, rest, 2);
    FieldAt(FRAME_WIDTHS, FRAME_OFFSETS, values, rest, 3);
  }

  /** And where it is read from. */
  lemma HeaderReading(b: seq<Byte>)
    requires |b| == FRAME_HEADER_SIZE
    ensures DecodeHeader(b) == Some(FrameHeader(Decode(b[..4]), Decode(b[4..8]), Decode(b[8..16]), Decode(b[16..24])))
  {
    FrameTotal();
    FieldFrom(FRAME_WIDTHS, FRAME_OFFSETS, b, 0);
    FieldFrom(FRAME_WIDTHS, FRAME_OFFSETS, b, 1);
    FieldFrom(FRAME_WIDTHS, FRAME_OFFSETS, b, 2);
    FieldFrom(FRAME_WIDTHS, FRAME_OFFSETS, b, 3);
  }

  // ---- the stream ----

  function EncodeMessage(m: Message): seq<Byte> {
    EncodeHeader(FrameHeader(FRAME_MAGIC, |m.payload|, m.sequence, m.timestamp)) + m.payload
  }

  ghost predicate Sendable(m: Message, maxSize: nat) {
    |m.payload| <= maxSize && |m.payload| < U32_LIMIT && m.sequence < U64_LIMIT && m.timestamp < U64_LIMIT
  }

  /** What the front of a byte stream is: a message and the rest, a proper part of one, or garbage. */
  datatype Front = Incomplete | Complete(message: Message, rest: seq<Byte>) | Mismatch | Garbage | TooLarge

  function FrontOf(s: seq<Byte>, maxSize: nat): Front {
    if |s| < FRAME_HEADER_SIZE then Incomplete
    else
      var h := DecodeHeader(s[..FRAME_HEADER_SIZE]).value;
      match Validate(h, maxSize)
      case BadMagic => if h.magic == QUEUE_MAGIC then Mismatch else Garbage
      case PayloadTooLarge => TooLarge
      case Valid =>
        var end := FRAME_HEADER_SIZE + h.payloadSize;
        if |s| < end then Incomplete
        else Complete(Message(s[FRAME_HEADER_SIZE..end], h.sequence, h.timestamp), s[end..])
  }

  /** The front of a stream in terms of the bytes of its header. */
  lemma FrontReading(s: seq<Byte>, maxSize: nat)
    requires |s| >= 24
    ensures var magic, size := Decode(s[..4]), Decode(s[4..8]);
            FrontOf(s, maxSize)
            == if magic == QUEUE_MAGIC then Mismatch
               else if magic != FRAME_MAGIC then Garbage
               else if size > maxSize then TooLarge
               else if |s| < 24 + size then Incomplete
               else Complete(Message(s[24..24 + size], Decode(s[8..16]), Decode(s[16..24])), s[24 + size..])
  {
    var b := s[..24];
    HeaderReading(b);
    assert b[..4] == s[..4] && b[4..8] == s[4..8] && b[8..16] == s[8..16] && b[16..24] == s[16..24];
  }

  lemma FrontOfEncoded(m: Message, rest: seq<Byte>, maxSize: nat)
    requires Sendable(m, maxSize)
    ensures FrontOf(EncodeMessage(m) + rest, maxSize) == Complete(m, rest)
  {
    var s := EncodeMessage(m) + rest;
    var h := FrameHeader(FRAME_MAGIC, |m.payload|, m.sequence, m.timestamp);
    assert s[..FRAME_HEADER_SIZE] == EncodeHeader(h);
    HeaderCanonical(h, EncodeHeader(h));
    assert s[FRAME_HEADER_SIZE..FRAME_HEADER_SIZE + |m.payload|] == m.payload;
    assert s[FRAME_HEADER_SIZE + |m.payload|..] == rest;
  }

  function EncodeAll(ms: seq<Message>): seq<Byte> {
    if ms == [] then [] else EncodeMessage(ms[0]) + EncodeAll(ms[1..])
  }

  /** All messages at the front of a stream, what is left, and how decoding stopped. */
  datatype Decoded = Decoded(messages: seq<Message>, left: seq<Byte>, stop: Front)

  function Prepend(m: Message, d: Decoded): Decoded {
    d.(messages := [m] + d.messages)
  }

  /** Decoding taken up again after `d`. */
  function Then(d: Decoded, e: Decoded): Decoded {
    e.(messages := d.messages + e.messages)
  }

  lemma PrependThen(m: Message, d: Decoded, e: Decoded)
    ensures Prepend(m, Then(d, e)) == Then(Prepend(m, d), e)
  {
    assert [m] + (d.messages + e.messages) == ([m] + d.messages) + e.messages;
  }

  function Messages(s: seq<Byte>, maxSize: nat): Decoded
    decreases |s|
  {
    match FrontOf(s, maxSize)
    case Complete(m, rest) => Prepend(m, Messages(rest, maxSize))
    case stop => Decoded([], s, stop)
  }

  /** Decoding any concatenation of encoded messages yields exactly them. */
  lemma {:induction false} MessagesOfEncoded(ms: seq<Message>, maxSize: nat)
    requires forall k :: 0 <= k < |ms| ==> Sendable(ms[k], maxSize)
    ensures Messages(EncodeAll(ms), maxSize) == Decoded(ms, [], Incomplete)
  {
    if ms != [] {
      FrontOfEncoded(ms[0], EncodeAll(ms[1..]), maxSize);
      MessagesOfEncoded(ms[1..], maxSize);
      assert ms == [ms[0]] + ms[1..];
    }
  }

  lemma FrontExtends(a: seq<Byte>, b: seq<Byte>, maxSize: nat)
    requires FrontOf(a, maxSize).Complete?
    ensures FrontOf(a + b, maxSize) == Complete(FrontOf(a, maxSize).message, FrontOf(a, maxSize).rest + b)
  {
    assert (a + b)[..FRAME_HEADER_SIZE] == a[..FRAME_HEADER_SIZE];
  }

  /** Decoding may stop anywhere in the stream and be taken up again later. */
  lemma {:induction false} MessagesResume(a: seq<Byte>, b: seq<Byte>, maxSize: nat)
    requires Messages(a, maxSize).stop == Incomplete
    ensures Messages(a + b, maxSize) == Then(Messages(a, maxSize), Messages(Messages(a, maxSize).left + b, maxSize))
    decreases |a|
  {
    var front := FrontOf(a, maxSize);
    if front.Complete? {
      FrontExtends(a, b, maxSize);
      MessagesResume(front.rest, b, maxSize);
      var d := Messages(front.rest, maxSize);
      PrependThen(front.message, d, Messages(d.left + b, maxSize));
    } else {
      assert [] + Messages(a + b, maxSize).messages == Messages(a + b, maxSize).messages;
    }
  }

  // ---- the socket ----

  function Flat(pieces: seq<seq<Byte>>): seq<Byte> {
    if pieces == [] then [] else pieces[0] + Flat(pieces[1..])
  }

  lemma {:induction false} FlatJoin(a: seq<seq<Byte>>, b: seq<Byte>)
    ensures Flat(a + [b]) == Flat(a) + b
  {
    if a == [] {
      assert a + [b] == [b];
    } else {
      FlatJoin(a[1..], b);
      assert (a + [b])[1..] == a[1..] + [b];
      assert a[0] + (Flat(a[1..]) + b) == (a[0] + Flat(a[1..])) + b;
    }
  }

  /** Once decoding has stopped for good, what arrives later changes nothing. */
  lemma {:induction false} StopStays(a: seq<Byte>, b: seq<Byte>, maxSize: nat)
    requires Messages(a, maxSize).stop != Incomplete
    ensures Messages(a + b, maxSize).messages == Messages(a, maxSize).messages
    ensures Messages(a + b, maxSize).stop == Messages(a, maxSize).stop
    decreases |a|
  {
    var front := FrontOf(a, maxSize);
    if front.Complete? {
      FrontExtends(a, b, maxSize);
      StopStays(front.rest, b, maxSize);
    } else {
      StopExtends(a, b, maxSize);
    }
  }

  lemma StopExtends(a: seq<Byte>, b: seq<Byte>, maxSize: nat)
    requires !FrontOf(a, maxSize).Complete? && !FrontOf(a, maxSize).Incomplete?
    ensures FrontOf(a + b, maxSize) == FrontOf(a, maxSize)
  {
    assert (a + b)[..FRAME_HEADER_SIZE] == a[..FRAME_HEADER_SIZE];
  }

  lemma FlatSplit(pieces: seq<seq<Byte>>, k: nat)
    requires k <= |pieces|
    ensures Flat(pieces) == Flat(pieces[..k]) + Flat(pieces[k..])
    decreases k
  {
    if k == 0 {
      assert pieces[0..] == pieces;
    } else {
      FlatSplit(pieces[1..], k - 1);
      assert pieces[1..][..k - 1] == pieces[..k][1..] && pieces[1..][k - 1..] == pieces[k..];
      assert pieces[0] + (Flat(pieces[..k][1..]) + Flat(pieces[k..]))
             == (pieces[0] + Flat(pieces[..k][1..])) + Flat(pieces[k..]);
    }
  }

  /** A socket delivers its stream in pieces; one recv returns at most one of them. */
  class Socket {
    var pieces: seq<seq<Byte>>
    var closed: bool

    constructor (pieces: seq<seq<Byte>>, closed: bool)
      ensures this.pieces == pieces && this.closed == closed
    {
      this.pieces, this.closed := pieces, closed;
    }

    ghost function Stream(): seq<Byte>
      reads this
    {
      Flat(pieces)
    }

    /** Bytes arrive from the other side. */
    method Arrive(piece: seq<Byte>)
      modifies this`pieces
      ensures Stream() == old(Stream()) + piece
    {
      FlatJoin(pieces, piece);
      pieces := pieces + [piece];
    }

    /** Up to `n` bytes; nothing means that none are there. */
    method Receive(n: nat) returns (got: seq<Byte>)
      requires n > 0
      modifies this`pieces
      ensures |got| <= n && got + Stream() == old(Stream())
      ensures got == [] <==> old(Stream()) == []
      ensures got == [] ==> pieces == []
    {
      while pieces != [] && pieces[0] == []
        invariant Stream() == old(Stream())
        decreases |pieces|
      {
        pieces := pieces[1..];
      }
      if pieces == [] { return []; }
      var k := if |pieces[0]| <= n then |pieces[0]| else n;
      got := pieces[0][..k];
      ghost var before := pieces;
      pieces := if k == |pieces[0]| then pieces[1..] else [pieces[0][k..]] + pieces[1..];
      assert got + Stream() == Flat(before) by {
        assert before[0] == got + before[0][k..];
        if k < |before[0]| { assert pieces[1..] == before[1..]; }
      }
    }
  }

  datatype Status = NeedMore | MessageReady | Disconnected | Truncated | BadFrame | WrongTransport | OversizedMessage

  /** The subscriber's decoder: bytes of the current header, the header, bytes of its payload. */
  class Decoder {
    const maxSize: nat
    var header: seq<Byte>
    var decoded: Option<FrameHeader>
    var payload: seq<Byte>

    constructor (maxSize: nat)
      ensures Ready() && Pending() == [] && this.maxSize == maxSize
    {
      this.maxSize := maxSize;
      header, decoded, payload := [], None, [];
    }

    /** A part of one frame has been read, and its header, once complete, was acceptable. */
    ghost predicate Ready()
      reads this
    {
      && |header| <= FRAME_HEADER_SIZE
      && (decoded.None? ==> payload == [])
      && (decoded.Some? ==>
            && |header| == FRAME_HEADER_SIZE && DecodeHeader(header) == decoded
            && Validate(decoded.value, maxSize) == Valid && |payload| <= decoded.value.payloadSize)
    }

    ghost function Pending(): seq<Byte>
      reads this
    {
      header + payload
    }

    /**
    receiveUdsAvailable: reads what there is until a message is complete. The result is decided by
    the stream so far alone, however it was cut into pieces.
    */
    method ReceiveAvailable(socket: Socket) returns (status: Status, m: Option<Message>)
      requires Ready()
      modifies this, socket
      ensures var front := FrontOf(old(Pending()) + old(socket.Stream()), maxSize);
              match front
              case Complete(message, rest) =>
                status == MessageReady && m == Some(message) && Ready() && Pending() == [] && socket.Stream() == rest
              case Incomplete =>
                && m == None && Ready() && socket.Stream() == []
                && Pending() == old(Pending()) + old(socket.Stream())
                && status == (if !old(socket.closed) then NeedMore
                              else if Pending() == [] then Disconnected else Truncated)
              case Mismatch => status == WrongTransport && m == None
              case Garbage => status == BadFrame && m == None
              case TooLarge => status == OversizedMessage && m == None
      ensures socket.closed == old(socket.closed)
    {
      ghost var stream := Pending() + socket.Stream();
      var complete := FillHeader(socket);
      if !complete {
        status := if !socket.closed then NeedMore else if header == [] then Disconnected else Truncated;
        return status, None;
      }
      assert stream[..FRAME_HEADER_SIZE] == header;
      if decoded.None? {
        decoded := DecodeHeader(header);
        var validation := Validate(decoded.value, maxSize);
        if validation == BadMagic {
          return (if decoded.value.magic == QUEUE_MAGIC then WrongTransport else BadFrame), None;
        }
        if validation == PayloadTooLarge { return OversizedMessage, None; }
      }
      complete := FillPayload(socket);
      if !complete {
        return (if socket.closed then Truncated else NeedMore), None;
      }
      var end := FRAME_HEADER_SIZE + decoded.value.payloadSize;
      assert stream[FRAME_HEADER_SIZE..end] == payload && stream[end..] == socket.Stream();
      m := Some(Message(payload, decoded.value.sequence, decoded.value.timestamp));
      header, decoded, payload := [], None, [];
      status := MessageReady;
    }

    method FillHeader(socket: Socket) returns (complete: bool)
      requires Ready()
      modifies this`header, socket`pieces
      ensures Ready() && Pending() + socket.Stream() == old(Pending() + socket.Stream())
      ensures complete <==> |header| == FRAME_HEADER_SIZE
      ensures !complete ==> socket.Stream() == [] && Pending() == header && decoded == None
    {
      while |header| < FRAME_HEADER_SIZE
        invariant Ready() && Pending() + socket.Stream() == old(Pending() + socket.Stream())
        decreases FRAME_HEADER_SIZE - |header|
      {
        ghost var before := socket.Stream();
        var got := socket.Receive(FRAME_HEADER_SIZE - |header|);
        if got == [] { return false; }
        assert header + (got + socket.Stream()) == (header + got) + socket.Stream();
        header := header + got;
      }
      complete := true;
    }

    method FillPayload(socket: Socket) returns (complete: bool)
      requires Ready() && decoded.Some?
      modifies this`payload, socket`pieces
      ensures Ready() && Pending() + socket.Stream() == old(Pending() + socket.Stream())
      ensures complete <==> |payload| == decoded.value.payloadSize
      ensures !complete ==> socket.Stream() == []
    {
      while |payload| < decoded.value.payloadSize
        invariant Ready() && Pending() + socket.Stream() == old(Pending() + socket.Stream())
        decreases decoded.value.payloadSize - |payload|
      {
        var got := socket.Receive(decoded.value.payloadSize - |payload|);
        if got == [] { return false; }
        assert (header + payload) + (got + socket.Stream()) == (header + (payload + got)) + socket.Stream();
        payload := payload + got;
      }
      complete := true;
    }

    /** Every message that the stream so far completes, in order. */
    method ReceiveAll(socket: Socket) returns (ms: seq<Message>, status: Status)
      requires Ready()
      modifies this, socket
      ensures var d := Messages(old(Pending()) + old(socket.Stream()), maxSize);
              && ms == d.messages
              && (d.stop.Incomplete? ==> Ready() && Pending() == d.left && socket.Stream() == [])
              && (!old(socket.closed) ==> (status == NeedMore <==> d.stop.Incomplete?))
      ensures status != MessageReady && socket.closed == old(socket.closed)
    {
      ms := [];
      ghost var all := Messages(Pending() + socket.Stream(), maxSize);
      assert [] + all.messages == all.messages;
      while true
        invariant Ready() && socket.closed == old(socket.closed)
        invariant var d := Messages(Pending() + socket.Stream(), maxSize);
                  all == d.(messages := ms + d.messages)
        decreases |Pending() + socket.Stream()|
      {
        ghost var d := Messages(Pending() + socket.Stream(), maxSize);
        var m;
        status, m := ReceiveAvailable(socket);
        if m.None? {
          assert d.messages == [] && ms + [] == ms;
          return;
        }
        assert Pending() + socket.Stream() == socket.Stream();
        assert ms + d.messages == (ms + [m.value]) + d.messages[1..];
        ms := ms + [m.value];
      }
    }

    /** One more piece arrives after `before`, and the decoder reads what there is. */
    method FeedOne(socket: Socket, piece: seq<Byte>, ghost before: seq<Byte>) returns (ms: seq<Message>, going: bool)
      requires Ready() && socket.Stream() == [] && !socket.closed
      requires Messages(before, maxSize).stop.Incomplete? && Pending() == Messages(before, maxSize).left
      modifies this, socket
      ensures var d := Messages(before + piece, maxSize);
              && d.messages == Messages(before, maxSize).messages + ms && (going <==> d.stop.Incomplete?)
              && (going ==> Ready() && Pending() == d.left && socket.Stream() == [])
      ensures !socket.closed
    {
      MessagesResume(before, piece, maxSize);
      socket.Arrive(piece);
      assert [] + piece == piece;
      var status;
      ms, status := ReceiveAll(socket);
      going := status == NeedMore;
    }

    /**
    Pieces arrive one after the other, and after each the decoder reads what there is, until the stream is
    found to be bad: the messages are those of the whole stream, wherever the pieces were cut.
    */
    method Feed(socket: Socket, arrivals: seq<seq<Byte>>) returns (ms: seq<Message>)
      requires Ready() && Pending() == [] && socket.Stream() == [] && !socket.closed
      modifies this, socket
      ensures ms == Messages(Flat(arrivals), maxSize).messages
    {
      ms := [];
      var k, going := 0, true;
      while k < |arrivals| && going
        invariant 0 <= k <= |arrivals| && !socket.closed
        invariant var d := Messages(Flat(arrivals[..k]), maxSize);
                  && ms == d.messages && (going <==> d.stop.Incomplete?)
                  && (going ==> Ready() && Pending() == d.left && socket.Stream() == [])
      {
        assert arrivals[..k + 1] == arrivals[..k] + [arrivals[k]];
        FlatJoin(arrivals[..k], arrivals[k]);
        var more;
        more, going := FeedOne(socket, arrivals[k], Flat(arrivals[..k]));
        ms := ms + more;
        k := k + 1;
      }
      FedWhole(arrivals, k, maxSize);
    }
  }

  lemma FedWhole(arrivals: seq<seq<Byte>>, k: nat, maxSize: nat)
    requires k <= |arrivals| && (k < |arrivals| ==> !Messages(Flat(arrivals[..k]), maxSize).stop.Incomplete?)
    ensures Messages(Flat(arrivals), maxSize).messages == Messages(Flat(arrivals[..k]), maxSize).messages
  {
    FlatSplit(arrivals, k);
    if k == |arrivals| {
      assert arrivals[..k] == arrivals;
    } else {
      StopStays(Flat(arrivals[..k]), Flat(arrivals[k..]), maxSize);
    }
  }
}
