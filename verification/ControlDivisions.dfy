/**
When the division of a client's bytes into reads matters to the server, and when it does not.
*/
module ControlDivisions {
  import opened Basics
  import opened BigEndian
  import opened ControlProtocol

  // ---- the exact condition on a division ----

  /** No read, added to what is kept of the bytes before it, passes the limit of the buffer. */
  ghost predicate Within(pieces: seq<seq<Byte>>) {
    forall k {:trigger pieces[..k]} :: 0 <= k < |pieces| ==> Fitting(pieces[..k], pieces[k])
  }

  ghost predicate Fitting(before: seq<seq<Byte>>, piece: seq<Byte>) {
    |Parse(Flat(before)).kept| + |piece| <= BUFFER_LIMIT
  }

  lemma {:induction false} WithinFront(pieces: seq<seq<Byte>>, n: nat)
    requires Within(pieces) && n <= |pieces|
    ensures Within(pieces[..n])
  {
    forall k | 0 <= k < n ensures Fitting(pieces[..n][..k], pieces[..n][k]) {
      assert pieces[..n][..k] == pieces[..k];
    }
  }

  lemma {:induction false} FlatNext(pieces: seq<seq<Byte>>, k: nat)
    requires k < |pieces|
    ensures Flat(pieces[..k + 1]) == Flat(pieces[..k]) + pieces[k]
    ensures Fed(pieces[..k + 1]) == Reads(Fed(pieces[..k]), pieces[k])
  {
    assert pieces[..k + 1][..k] == pieces[..k];
  }

  /** A read that fits, of a stream without a bad header before it, goes on with the parse of the whole. */
  lemma {:induction false} FittingRead(a: seq<Byte>, piece: seq<Byte>)
    requires !Parse(a).ended && |Parse(a).kept| + |piece| <= BUFFER_LIMIT
    ensures Reads(Parse(a), piece) == Parse(a + piece)
  {
    ParseResume(a, piece);
  }

  lemma {:induction false} EndedBefore(a: seq<Byte>, b: seq<Byte>)
    requires Parse(a).ended
    ensures Parse(a + b) == Parse(a)
  {
    ParseResume(a, b);
  }

  /** As long as every read fits and no bad header has come, reading is parsing. */
  lemma {:induction false} WithinIsParsed(pieces: seq<seq<Byte>>, n: nat)
    requires n <= |pieces| && !Parse(Flat(pieces[..n])).ended
    requires forall k {:trigger pieces[..k]} :: 0 <= k < n ==> Fitting(pieces[..k], pieces[k])
    ensures Fed(pieces[..n]) == Parse(Flat(pieces[..n]))
  {
    if n == 0 {
      assert pieces[..0] == [];
    } else {
      FlatNext(pieces, n - 1);
      if Parse(Flat(pieces[..n - 1])).ended { EndedBefore(Flat(pieces[..n - 1]), pieces[n - 1]); }
      WithinIsParsed(pieces, n - 1);
      assert Fitting(pieces[..n - 1], pieces[n - 1]);
      FittingRead(Flat(pieces[..n - 1]), pieces[n - 1]);
    }
  }

  /** What has been answered or dispatched stays. */
  lemma {:induction false} EventsGrow(pieces: seq<seq<Byte>>, n: nat)
    requires n <= |pieces|
    ensures Fed(pieces[..n]).events <= Fed(pieces).events
    decreases |pieces|
  {
    if n == |pieces| {
      assert pieces[..n] == pieces;
    } else {
      var front := pieces[..|pieces| - 1];
      assert front[..n] == pieces[..n];
      EventsGrow(front, n);
    }
  }

  /** Without a bad header nothing is refused as too large. */
  lemma {:induction false} NoneTooLarge(s: seq<Byte>)
    requires !Parse(s).ended
    ensures Reject(0, MessageTooLarge) !in Parse(s).events
    decreases |s|
  {
    if FrontOf(s).Frame? { NoneTooLarge(FrontOf(s).rest); }
  }

  lemma {:induction false} TooLong(p: Parsed, piece: seq<Byte>, now: seq<Event>)
    requires |p.kept| + |piece| > BUFFER_LIMIT && Reads(p, piece).events <= now
    ensures Reject(0, MessageTooLarge) in now
  {
    assert now[|p.events|] == Reject(0, MessageTooLarge);
  }

  lemma {:induction false} PastLimit(pieces: seq<seq<Byte>>, k: nat)
    requires k < |pieces| && |Fed(pieces[..k]).kept| + |pieces[k]| > BUFFER_LIMIT
    ensures Reject(0, MessageTooLarge) in Fed(pieces).events
  {
    var p, q, all := Fed(pieces[..k]), Fed(pieces[..k + 1]), Fed(pieces);
    FlatNext(pieces, k);
    EventsGrow(pieces, k + 1);
    TooLong(p, pieces[k], all.events);
  }

  lemma {:induction false} FirstUnfit(pieces: seq<seq<Byte>>, n: nat) returns (k: nat)
    requires n <= |pieces| && exists j {:trigger pieces[..j]} :: 0 <= j < n && !Fitting(pieces[..j], pieces[j])
    ensures k < n && !Fitting(pieces[..k], pieces[k])
    ensures forall j {:trigger pieces[..j]} :: 0 <= j < k ==> Fitting(pieces[..j], pieces[j])
  {
    if exists j {:trigger pieces[..j]} :: 0 <= j < n - 1 && !Fitting(pieces[..j], pieces[j]) {
      k := FirstUnfit(pieces, n - 1);
    } else {
      k := n - 1;
    }
  }

  lemma {:induction false} NotEndedBefore(pieces: seq<seq<Byte>>, k: nat)
    requires k <= |pieces| && !Parse(Flat(pieces)).ended
    ensures !Parse(Flat(pieces[..k])).ended
    decreases |pieces|
  {
    if k == |pieces| {
      assert pieces[..k] == pieces;
    } else {
      var front := pieces[..|pieces| - 1];
      assert front[..k] == pieces[..k];
      if Parse(Flat(front)).ended { EndedBefore(Flat(front), pieces[|pieces| - 1]); }
      NotEndedBefore(front, k);
    }
  }

  /**
  For every stream without a bad header and every division of it: the server does what the parse of the whole
  says if and only if every read fits beside what is kept of the bytes before it.
  */
  lemma {:induction false} FedExact(pieces: seq<seq<Byte>>)
    requires !Parse(Flat(pieces)).ended
    ensures Fed(pieces).events == Parse(Flat(pieces)).events <==> Within(pieces)
    ensures Within(pieces) ==> Fed(pieces) == Parse(Flat(pieces))
  {
    var n := |pieces|;
    assert pieces[..n] == pieces;
    if Within(pieces) {
      WithinIsParsed(pieces, n);
    } else {
      var k := FirstUnfit(pieces, n);
      NotEndedBefore(pieces, k);
      WithinIsParsed(pieces, k);
      PastLimit(pieces, k);
      NoneTooLarge(Flat(pieces));
    }
  }

  // ---- after a bad header ----

  lemma {:induction false} ReadsAfter(p: Parsed, q: Parsed, r: Parsed, piece: seq<Byte>)
    requires q.events == p.events + r.events && q.kept == r.kept
    ensures Reads(q, piece).events == p.events + Reads(r, piece).events && Reads(q, piece).kept == Reads(r, piece).kept
  {
  }

  /** Once the buffer is empty, what follows is read as if it were the beginning. */
  lemma {:induction false} FedAfter(a: seq<seq<Byte>>, b: seq<seq<Byte>>, p: Parsed, q: Parsed, r: Parsed)
    requires p == Fed(a) && q == Fed(a + b) && r == Fed(b) && p.kept == []
    ensures q.events == p.events + r.events && q.kept == r.kept
    decreases |b|
  {
    if b == [] {
      assert a + b == a;
    } else {
      var front := b[..|b| - 1];
      assert (a + b)[..|a + b| - 1] == a + front;
      FedAfter(a, front, p, Fed(a + front), Fed(front));
      ReadsAfter(p, Fed(a + front), Fed(front), b[|b| - 1]);
    }
  }

  lemma {:induction false} FlatJoin(a: seq<seq<Byte>>, b: seq<seq<Byte>>)
    ensures Flat(a + b) == Flat(a) + Flat(b)
    decreases |b|
  {
    if b == [] {
      assert a + b == a;
    } else {
      var front, last := b[..|b| - 1], b[|b| - 1];
      FlatJoin(a, front);
      assert (a + b)[..|a + b| - 1] == a + front;
      assert Flat(a) + (Flat(front) + last) == (Flat(a) + Flat(front)) + last;
    }
  }

  /**
  For every stream whose bad header comes with the last piece of `a`, every read up to there fitting: what is
  read afterwards, before the client goes, is parsed from its own beginning. So the server does what the parse
  of the whole says if and only if nothing comes of it.
  */
  lemma {:induction false} AfterBadHeader(a: seq<seq<Byte>>, b: seq<seq<Byte>>)
    requires a != [] && Within(a) && !Parse(Flat(a[..|a| - 1])).ended && Parse(Flat(a)).ended
    ensures Fed(a + b).events == Parse(Flat(a + b)).events + Fed(b).events
    ensures Fed(a + b).events == Parse(Flat(a + b)).events <==> Fed(b).events == []
  {
    var n := |a| - 1;
    assert a[..n + 1] == a;
    FlatNext(a, n);
    WithinFront(a, n);
    WithinIsParsed(a, n);
    assert Fitting(a[..n], a[n]);
    FittingRead(Flat(a[..n]), a[n]);
    assert Fed(a) == Parse(Flat(a));
    EndedKeepsNothing(Flat(a));
    FedAfter(a, b, Fed(a), Fed(a + b), Fed(b));
    FlatJoin(a, b);
    EndedBefore(Flat(a), Flat(b));
  }

  lemma {:induction false} EndedKeepsNothing(s: seq<Byte>)
    requires Parse(s).ended
    ensures Parse(s).kept == []
    decreases |s|
  {
    if FrontOf(s).Frame? { EndedKeepsNothing(FrontOf(s).rest); }
  }

  // ---- what a client can know ----

  /** The longest payload that can be followed by anything, however the bytes are read. */
  const SAFE_PAYLOAD: nat := 61441

  ghost predicate Divides(pieces: seq<seq<Byte>>, s: seq<Byte>) {
    Flat(pieces) == s && forall k :: 0 <= k < |pieces| ==> |pieces[k]| <= READ_SIZE
  }

  ghost predicate AllSendable(rs: seq<Request>) {
    forall k :: 0 <= k < |rs| ==> Sendable(rs[k])
  }

  /** Request `i` is longer than that, and from it on there is more to read than the buffer may hold. */
  ghost predicate Overlong(rs: seq<Request>, i: nat)
    requires i < |rs|
  {
    |rs[i].payload| > SAFE_PAYLOAD && |EncodeFrames(rs[i..])| > BUFFER_LIMIT
  }

  lemma {:induction false} FrameLength(r: Request)
    ensures |EncodeFrame(r)| == CONTROL_HEADER_SIZE + |r.payload|
  {
  }

  /** A proper part of a frame is kept. */
  lemma {:induction false} PartOfFrame(r: Request, rest: seq<Byte>, n: nat)
    requires Sendable(r) && n < |EncodeFrame(r)|
    ensures n <= |EncodeFrame(r) + rest| && FrontOf((EncodeFrame(r) + rest)[..n]).Incomplete?
  {
    var h := ControlHeader(CONTROL_MAGIC, CONTROL_VERSION, r.opcode, r.requestId, |r.payload|);
    var s := EncodeFrame(r) + rest;
    if n >= CONTROL_HEADER_SIZE {
      assert s[..n][..CONTROL_HEADER_SIZE] == EncodeHeader(h);
      HeaderCanonical(h, EncodeHeader(h));
    }
  }

  /** After the first `n` bytes of some requests: request `i` is under way, and its bytes so far are kept. */
  ghost predicate UnderWay(rs: seq<Request>, n: nat, i: nat)
    requires n <= |EncodeFrames(rs)| && i <= |rs|
  {
    var p := Parse(EncodeFrames(rs)[..n]);
    && !p.ended && |p.kept| + (|EncodeFrames(rs)| - n) == |EncodeFrames(rs[i..])|
    && (i == |rs| ==> p.kept == []) && (i < |rs| ==> |p.kept| < |EncodeFrame(rs[i])|)
  }

  lemma {:induction false} PrefixKept(rs: seq<Request>, n: nat) returns (i: nat)
    requires AllSendable(rs) && n <= |EncodeFrames(rs)|
    ensures i <= |rs| && UnderWay(rs, n, i)
  {
    var s := EncodeFrames(rs);
    if rs == [] {
      i := 0;
    } else if n < |EncodeFrame(rs[0])| {
      i := 0;
      PartOfFrame(rs[0], EncodeFrames(rs[1..]), n);
      assert rs[0..] == rs;
    } else {
      var m := n - |EncodeFrame(rs[0])|;
      var j := PrefixKept(rs[1..], m);
      i := j + 1;
      assert s[..n] == EncodeFrame(rs[0]) + EncodeFrames(rs[1..])[..m];
      FrontOfFrame(rs[0], EncodeFrames(rs[1..])[..m]);
      assert rs[1..][j..] == rs[i..];
    }
  }

  lemma {:induction false} FlatFront(pieces: seq<seq<Byte>>, k: nat)
    requires k < |pieces|
    ensures var before := Flat(pieces[..k]);
            && |before| + |pieces[k]| <= |Flat(pieces)| && before == Flat(pieces)[..|before|]
    decreases |pieces|
  {
    var n := |pieces| - 1;
    if k < n {
      var front := pieces[..n];
      FlatFront(front, k);
      assert front[..k] == pieces[..k];
    }
  }

  /** If no request is overlong, every read of every division fits. */
  lemma {:induction false} DivisionFits(rs: seq<Request>, pieces: seq<seq<Byte>>, k: nat)
    requires AllSendable(rs) && Divides(pieces, EncodeFrames(rs)) && k < |pieces| && !Fitting(pieces[..k], pieces[k])
    ensures exists i :: 0 <= i < |rs| && Overlong(rs, i)
  {
    var before := Flat(pieces[..k]);
    FlatFront(pieces, k);
    var i := PrefixKept(rs, |before|);
    assert |pieces[k]| <= READ_SIZE;
    if i < |rs| {
      FrameLength(rs[i]);
      assert Overlong(rs, i);
    }
  }

  // ---- a division that fails ----

  /** The bytes in reads of the full size, the first perhaps shorter. */
  function Chop(s: seq<Byte>): (r: seq<seq<Byte>>)
    ensures forall k :: 0 <= k < |r| ==> |r[k]| <= READ_SIZE
    ensures Flat(r) == s
    decreases |s|
  {
    if s == [] then []
    else if |s| <= READ_SIZE then [s]
    else
      var n := |s| - READ_SIZE;
      assert s[..n] + s[n..] == s;
      assert (Chop(s[..n]) + [s[n..]])[..|Chop(s[..n])|] == Chop(s[..n]);
      Chop(s[..n]) + [s[n..]]
  }

  lemma {:induction false} FramesJoin(rs: seq<Request>, i: nat)
    requires i <= |rs|
    ensures EncodeFrames(rs) == EncodeFrames(rs[..i]) + EncodeFrames(rs[i..])
  {
    if i == 0 {
      assert rs[..0] == [] && rs[0..] == rs;
    } else {
      FramesJoin(rs[1..], i - 1);
      assert rs[1..][..i - 1] == rs[1..i] && rs[1..][i - 1..] == rs[i..];
      FrameFirst(rs);
      FrameFirst(rs[..i]);
      assert rs[..i][1..] == rs[1..i];
      Associates(EncodeFrame(rs[0]), EncodeFrames(rs[1..i]), EncodeFrames(rs[i..]));
    }
  }

  lemma {:induction false} FrameFirst(rs: seq<Request>)
    requires rs != []
    ensures EncodeFrames(rs) == EncodeFrame(rs[0]) + EncodeFrames(rs[1..])
  {
  }

  lemma {:induction false} Associates(a: seq<Byte>, b: seq<Byte>, c: seq<Byte>)
    ensures a + (b + c) == (a + b) + c
  {
  }

  /** When the requests before `i` and `m` bytes of request `i` have come, those `m` bytes are kept. */
  lemma {:induction false} KeptPart(rs: seq<Request>, i: nat, m: nat)
    requires AllSendable(rs) && i < |rs| && m < |EncodeFrame(rs[i])|
    ensures var n := |EncodeFrames(rs[..i])| + m;
            n < |EncodeFrames(rs)| && |Parse(EncodeFrames(rs)[..n]).kept| == m
  {
    var head, tail := EncodeFrames(rs[..i]), EncodeFrames(rs[i..]);
    FramesJoin(rs, i);
    assert tail == EncodeFrame(rs[i]) + EncodeFrames(rs[i..][1..]);
    assert EncodeFrames(rs)[..|head| + m] == head + tail[..m];
    ParseOfFrames(rs[..i]);
    ParseResume(head, tail[..m]);
    PartOfFrame(rs[i], EncodeFrames(rs[i..][1..]), m);
    assert [] + tail[..m] == tail[..m];
  }

  /** Cut so that a full read comes when as much of the overlong request is kept as makes it one byte too many. */
  lemma {:induction false} UnfitDivision(rs: seq<Request>, i: nat) returns (pieces: seq<seq<Byte>>)
    requires AllSendable(rs) && i < |rs| && Overlong(rs, i)
    ensures Divides(pieces, EncodeFrames(rs)) && !Within(pieces)
  {
    var s, m := EncodeFrames(rs), BUFFER_LIMIT + 1 - READ_SIZE;
    var n := |EncodeFrames(rs[..i])| + m;
    FrameLength(rs[i]);
    FramesJoin(rs, i);
    KeptPart(rs, i, m);
    pieces := CutAt(s, n);
    var k := |Chop(s[..n])|;
    assert pieces[..k] == Chop(s[..n]);
    assert !Fitting(pieces[..k], pieces[k]);
  }

  lemma {:induction false} ThreeParts(s: seq<Byte>, n: nat, m: nat)
    requires n <= m <= |s|
    ensures s[..n] + s[n..m] + s[m..] == s
  {
  }

  lemma {:induction false} Around(a: seq<seq<Byte>>, b: seq<Byte>, c: seq<seq<Byte>>)
    ensures (a + [b] + c)[..|a|] == a && (a + [b] + c)[|a|] == b
  {
  }

  lemma {:induction false} CutAt(s: seq<Byte>, n: nat) returns (pieces: seq<seq<Byte>>)
    requires n + READ_SIZE <= |s|
    ensures Divides(pieces, s) && |Chop(s[..n])| < |pieces|
    ensures pieces[..|Chop(s[..n])|] == Chop(s[..n]) && |pieces[|Chop(s[..n])|]| == READ_SIZE
  {
    var a, b, c := Chop(s[..n]), s[n..n + READ_SIZE], Chop(s[n + READ_SIZE..]);
    pieces := a + [b] + c;
    FlatJoin(a + [b], c);
    LastRead(a, b);
    assert Flat(pieces) == s[..n] + b + s[n + READ_SIZE..];
    ThreeParts(s, n, n + READ_SIZE);
    Around(a, b, c);
  }

  /**
  For every sequence of requests: every division of their bytes into reads is served as those requests if and
  only if none of them is overlong.
  */
  lemma {:induction false} DivisionsExact(rs: seq<Request>)
    requires AllSendable(rs)
    ensures (forall pieces :: Divides(pieces, EncodeFrames(rs)) ==> Fed(pieces).events == EventsOf(rs))
            <==> forall i :: 0 <= i < |rs| ==> !Overlong(rs, i)
  {
    ParseOfFrames(rs);
    if i :| 0 <= i < |rs| && Overlong(rs, i) {
      var pieces := UnfitDivision(rs, i);
      FedExact(pieces);
      assert Divides(pieces, EncodeFrames(rs)) && Fed(pieces).events != EventsOf(rs);
    } else {
      forall pieces | Divides(pieces, EncodeFrames(rs)) ensures Fed(pieces).events == EventsOf(rs) {
        DivisionServed(rs, pieces);
      }
    }
  }

  lemma {:induction false} DivisionServed(rs: seq<Request>, pieces: seq<seq<Byte>>)
    requires AllSendable(rs) && Divides(pieces, EncodeFrames(rs)) && forall i :: 0 <= i < |rs| ==> !Overlong(rs, i)
    ensures Fed(pieces) == Parsed(EventsOf(rs), [], false)
  {
    ParseOfFrames(rs);
    forall k | 0 <= k < |pieces| ensures Fitting(pieces[..k], pieces[k]) {
      if !Fitting(pieces[..k], pieces[k]) { DivisionFits(rs, pieces, k); }
    }
    FedExact(pieces);
  }

  // ---- two inputs ----

  /**
  A request with the largest payload, and a short one sent right behind it: read in full reads, neither is
  dispatched.
  */
  lemma {:induction false} LongRequestLost(r: Request, g: Request) returns (pieces: seq<seq<Byte>>)
    requires Sendable(r) && Sendable(g) && |r.payload| == MAX_PAYLOAD
    requires |EncodeFrame(g)| <= READ_SIZE - CONTROL_HEADER_SIZE
    ensures Divides(pieces, EncodeFrame(r) + EncodeFrame(g))
    ensures Fed(pieces) == Parsed([Reject(0, MessageTooLarge)], [], true)
    ensures Parse(Flat(pieces)) == Parsed([EventOf(r), EventOf(g)], [], false)
  {
    var s := EncodeFrame(r) + EncodeFrame(g);
    FrameLength(r);
    FrameLength(g);
    PartOfFrame(r, EncodeFrame(g), MAX_PAYLOAD);
    pieces := ReadPast(s);
    ParseOfTwo(r, g);
  }

  /** Bytes that complete nothing for 65536 of them, and then too many at once. */
  lemma {:induction false} ReadPast(s: seq<Byte>) returns (pieces: seq<seq<Byte>>)
    requires BUFFER_LIMIT < |s| <= MAX_PAYLOAD + READ_SIZE && FrontOf(s[..MAX_PAYLOAD]).Incomplete?
    ensures Divides(pieces, s) && Fed(pieces) == Parsed([Reject(0, MessageTooLarge)], [], true)
  {
    var a, b := Chop(s[..MAX_PAYLOAD]), s[MAX_PAYLOAD..];
    pieces := a + [b];
    assert s[..MAX_PAYLOAD] + b == s;
    KeptWhole(a, s[..MAX_PAYLOAD]);
    LastRead(a, b);
  }

  lemma {:induction false} LastRead(a: seq<seq<Byte>>, b: seq<Byte>)
    requires |b| <= READ_SIZE
    ensures Flat(a + [b]) == Flat(a) + b && Fed(a + [b]) == Reads(Fed(a), b)
  {
    var pieces := a + [b];
    assert pieces[..|a|] == a && pieces[..|a| + 1] == pieces;
    FlatNext(pieces, |a|);
  }

  lemma {:induction false} ParseOfTwo(r: Request, g: Request)
    requires Sendable(r) && Sendable(g)
    ensures Parse(EncodeFrame(r) + EncodeFrame(g)) == Parsed([EventOf(r), EventOf(g)], [], false)
  {
    ParseOfOne(g);
    FrontOfFrame(r, EncodeFrame(g));
    assert [EventOf(r)] + [EventOf(g)] == [EventOf(r), EventOf(g)];
  }

  lemma {:induction false} ParseOfOne(g: Request)
    requires Sendable(g)
    ensures Parse(EncodeFrame(g)) == Parsed([EventOf(g)], [], false)
  {
    FrontOfFrame(g, []);
    assert EncodeFrame(g) + [] == EncodeFrame(g);
  }

  /** Bytes that do not complete a frame are kept as they come. */
  lemma {:induction false} KeptWhole(pieces: seq<seq<Byte>>, s: seq<Byte>)
    requires Flat(pieces) == s && FrontOf(s).Incomplete? && |s| <= BUFFER_LIMIT
    ensures Fed(pieces) == Parsed([], s, false)
  {
    forall k | 0 <= k < |pieces| ensures Fitting(pieces[..k], pieces[k]) {
      FlatFront(pieces, k);
      KeptIsShort(Flat(pieces[..k]));
    }
    FedExact(pieces);
  }

  lemma {:induction false} KeptIsShort(s: seq<Byte>)
    ensures |Parse(s).kept| <= |s|
    decreases |s|
  {
    if FrontOf(s).Frame? { KeptIsShort(FrontOf(s).rest); }
  }

  /** A piece with a bad header, and a request read behind it before the client goes: it is served all the same. */
  lemma {:induction false} LateRequestServed(bad: seq<Byte>, g: Request)
    requires |bad| <= READ_SIZE && Parse(bad).ended && Sendable(g) && |EncodeFrame(g)| <= READ_SIZE
    ensures Divides([bad, EncodeFrame(g)], bad + EncodeFrame(g))
    ensures Fed([bad, EncodeFrame(g)]).events == Parse(bad).events + [EventOf(g)]
    ensures Parse(bad + EncodeFrame(g)).events == Parse(bad).events
  {
    var a, b := [bad], [EncodeFrame(g)];
    OnePiece(bad);
    OnePiece(EncodeFrame(g));
    assert a + b == [bad, EncodeFrame(g)] && a[..0] == [];
    KeptIsShort([]);
    assert Fitting(a[..0], a[0]);
    FlatJoin(a, b);
    AfterBadHeader(a, b);
    ParseOfOne(g);
    EndedBefore(bad, EncodeFrame(g));
  }

  lemma {:induction false} OnePiece(piece: seq<Byte>)
    requires |piece| <= READ_SIZE
    ensures Flat([piece]) == piece && Fed([piece]) == Parse(piece)
  {
    var pieces := [piece];
    assert pieces[..0] == [] && [] + piece == piece;
    assert [] + Parse(piece).events == Parse(piece).events;
  }

  /** There is such a piece. */
  lemma {:induction false} ZerosAreBad()
    ensures Parse(Zeros(READ_SIZE)) == Parsed([Reject(0, InvalidControlMessage)], [], true)
  {
    var s := Zeros(READ_SIZE);
    var h := ControlHeader(0, 0, 0, 0, 0);
    assert s[..CONTROL_HEADER_SIZE] == Zeros(CONTROL_HEADER_SIZE);
    ZeroHeader();
  }

  lemma {:induction false} ZeroHeader()
    ensures DecodeHeader(Zeros(CONTROL_HEADER_SIZE)) == Some(ControlHeader(0, 0, 0, 0, 0))
  {
    var h := ControlHeader(0, 0, 0, 0, 0);
    HeaderCanonical(h, EncodeHeader(h));
    PackZeros(CONTROL_WIDTHS);
    ControlTotal();
    assert HeaderFields(h) == seq(|CONTROL_WIDTHS|, _ => 0);
  }

  lemma {:induction false} PackZeros(widths: seq<nat>)
    ensures Pack(widths, seq(|widths|, _ => 0)) == Zeros(Total(widths))
  {
    if widths != [] {
      PackZeros(widths[1..]);
      EncodeZero(widths[0]);
      assert seq(|widths|, _ => 0)[1..] == seq(|widths[1..]|, _ => 0);
    }
  }

  lemma {:induction false} EncodeZero(n: nat)
    ensures Encode(n, 0) == Zeros(n)
  {
    if n > 0 { EncodeZero(n - 1); }
  }
}
