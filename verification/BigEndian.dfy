/** Fixed-width integers as bytes, and records as runs of such fields. */
module BigEndian {
  import opened Basics

  function Pow256(n: nat): (r: nat)
    ensures r > 0
  {
    if n == 0 then 1 else 256 * Pow256(n - 1)
  }

  /** The low `n` bytes of `v`, most significant first. */
  function Encode(n: nat, v: nat): (r: seq<Byte>)
    ensures |r| == n
  {
    if n == 0 then [] else Encode(n - 1, v / 256) + [v % 256]
  }

  function Decode(s: seq<Byte>): (r: nat)
    ensures r < Pow256(|s|)
  {
    if s == [] then 0 else 256 * Decode(s[..|s| - 1]) + s[|s| - 1]
  }

  lemma {:induction false} DecodeEncode(n: nat, v: nat)
    requires v < Pow256(n)
    ensures Decode(Encode(n, v)) == v
  {
    if n > 0 {
      DecodeEncode(n - 1, v / 256);
      assert Encode(n, v)[..n - 1] == Encode(n - 1, v / 256);
    }
  }

  lemma {:induction false} EncodeDecode(s: seq<Byte>)
    ensures Encode(|s|, Decode(s)) == s
  {
    if s != [] {
      var front := s[..|s| - 1];
      EncodeDecode(front);
      assert Decode(s) / 256 == Decode(front);
      assert s == front + [s[|s| - 1]];
    }
  }

  lemma Widths()
    ensures Pow256(2) == U16_LIMIT && Pow256(4) == U32_LIMIT && Pow256(8) == U64_LIMIT
  {
    assert Pow256(2) == 0x1_0000;
    assert Pow256(4) == 0x1_0000 * Pow256(2);
    assert Pow256(6) == 0x1_0000 * Pow256(4);
    assert Pow256(8) == 0x1_0000 * Pow256(6);
  }

  // ---- the loops of encodeBigEndian and decodeBigEndian ----

  /** Byte `i` of the encoding is the value shifted right by the bytes that follow it. */
  lemma {:induction false} EncodeAt(n: nat, v: nat, i: nat)
    requires i < n
    ensures Encode(n, v)[i] == v / Pow256(n - 1 - i) % 256
  {
    if i < n - 1 {
      EncodeAt(n - 1, v / 256, i);
      ShiftTwice(v, Pow256(n - 2 - i));
    }
  }

  lemma ShiftTwice(v: nat, p: nat)
    requires p > 0
    ensures v / 256 / p == v / (256 * p)
  {
    var q, r := v / (256 * p), v % (256 * p);
    var a, b := r / 256, r % 256;
    assert (256 * p) * q == 256 * (p * q);
    assert v == 256 * (p * q + a) + b;
    DivideBack(256, p * q + a, b);
    DivideBack(p, q, a);
  }

  lemma DivideBack(p: nat, q: nat, r: nat)
    requires r < p
    ensures (p * q + r) / p == q
  {
    var d := (p * q + r) / p;
    assert p * d <= p * q + r < p * d + p;
    assert d < q ==> p * (d + 1) <= p * q;
    assert d > q ==> p * d >= p * (q + 1);
  }

  method EncodeInto(output: array<Byte>, at: nat, n: nat, value: nat)
    requires at + n <= output.Length && value < Pow256(n)
    modifies output
    ensures output[..] == old(output[..at]) + Encode(n, value) + old(output[at + n..])
  {
    var i := 0;
    while i < n
      invariant 0 <= i <= n
      invariant output[..at] == old(output[..at]) && output[at + n..] == old(output[at + n..])
      invariant output[at..at + i] == Encode(n, value)[..i]
    {
      EncodeAt(n, value, i);
      output[at + i] := value / Pow256(n - 1 - i) % 256;
      assert output[at..at + i + 1] == output[at..at + i] + [output[at + i]];
      i := i + 1;
    }
    assert output[at..at + n] == Encode(n, value);
    assert output[..] == output[..at] + output[at..at + n] + output[at + n..];
  }

  method DecodeFrom(input: seq<Byte>) returns (value: nat)
    ensures value == Decode(input)
  {
    value := 0;
    var i := 0;
    while i < |input|
      invariant 0 <= i <= |input| && value == Decode(input[..i])
    {
      assert input[..i + 1][..i] == input[..i];
      value := value * 256 + input[i];
      i := i + 1;
    }
    assert input[..i] == input;
  }

  // ---- records ----

  function Total(widths: seq<nat>): nat {
    if widths == [] then 0 else widths[0] + Total(widths[1..])
  }

  lemma {:induction false} TotalJoin(a: seq<nat>, b: seq<nat>)
    ensures Total(a + b) == Total(a) + Total(b)
  {
    if a == [] {
      assert a + b == b;
    } else {
      TotalJoin(a[1..], b);
      assert (a + b)[1..] == a[1..] + b;
    }
  }

  lemma TotalOf3(a: nat, b: nat, c: nat)
    ensures Total([a, b, c]) == a + b + c
  {
    TotalJoin([a], [b, c]);
    TotalJoin([b], [c]);
    assert [a, b, c] == [a] + [b, c] && [b, c] == [b] + [c];
  }

  function Zeros(n: nat): (r: seq<Byte>)
    ensures |r| == n
  {
    seq(n, _ => 0)
  }

  ghost predicate Fits(widths: seq<nat>, values: seq<nat>) {
    |widths| == |values| && forall k :: 0 <= k < |widths| ==> values[k] < Pow256(widths[k])
  }

  /** The fields one after the other. */
  function Pack(widths: seq<nat>, values: seq<nat>): (r: seq<Byte>)
    requires |widths| == |values|
    ensures |r| == Total(widths)
  {
    if widths == [] then [] else Encode(widths[0], values[0]) + Pack(widths[1..], values[1..])
  }

  function Unpack(widths: seq<nat>, bytes: seq<Byte>): (r: seq<nat>)
    requires |bytes| >= Total(widths)
    ensures |r| == |widths|
  {
    if widths == [] then []
    else [Decode(bytes[..widths[0]])] + Unpack(widths[1..], bytes[widths[0]..])
  }

  lemma {:induction false} UnpackPack(widths: seq<nat>, values: seq<nat>, rest: seq<Byte>)
    requires Fits(widths, values)
    ensures Unpack(widths, Pack(widths, values) + rest) == values
  {
    if widths != [] {
      var head, tail := Encode(widths[0], values[0]), Pack(widths[1..], values[1..]) + rest;
      assert Pack(widths, values) + rest == head + tail;
      JoinFacts(head, tail);
      DecodeEncode(widths[0], values[0]);
      UnpackPack(widths[1..], values[1..], rest);
    }
  }

  lemma {:induction false} PackUnpack(widths: seq<nat>, bytes: seq<Byte>)
    requires |bytes| >= Total(widths)
    ensures Pack(widths, Unpack(widths, bytes)) == bytes[..Total(widths)]
  {
    if widths != [] {
      var w := widths[0];
      var rest := Unpack(widths[1..], bytes[w..]);
      EncodeDecode(bytes[..w]);
      PackUnpack(widths[1..], bytes[w..]);
      calc {
        Pack(widths, Unpack(widths, bytes));
        { assert Unpack(widths, bytes) == [Decode(bytes[..w])] + rest; }
        Encode(w, Decode(bytes[..w])) + Pack(widths[1..], rest);
        bytes[..w] + bytes[w..][..Total(widths[1..])];
        bytes[..Total(widths)];
      }
    }
  }

  lemma {:induction false} UnpackFits(widths: seq<nat>, bytes: seq<Byte>)
    requires |bytes| >= Total(widths)
    ensures Fits(widths, Unpack(widths, bytes))
  {
    if widths != [] { UnpackFits(widths[1..], bytes[widths[0]..]); }
  }

  // ---- where the fields lie ----

  /** Each field begins where the one before it ends. */
  ghost predicate Laid(widths: seq<nat>, offsets: seq<nat>) {
    && |offsets| == |widths| && (offsets != [] ==> offsets[0] == 0)
    && forall k {:trigger offsets[k]} :: 0 < k < |widths| ==> offsets[k] == offsets[k - 1] + widths[k - 1]
  }

  /** Where field `k` begins. */
  function Offset(widths: seq<nat>, k: nat): nat
    requires k <= |widths|
  {
    if k == 0 then 0 else widths[0] + Offset(widths[1..], k - 1)
  }

  lemma {:induction false} OffsetNext(widths: seq<nat>, k: nat)
    requires k < |widths|
    ensures Offset(widths, k + 1) == Offset(widths, k) + widths[k]
    decreases k
  {
    if k > 0 { OffsetNext(widths[1..], k - 1); }
  }

  lemma {:induction false} OffsetIs(widths: seq<nat>, offsets: seq<nat>, k: nat)
    requires Laid(widths, offsets) && k < |widths|
    ensures offsets[k] == Offset(widths, k)
  {
    if k > 0 {
      assert offsets[k] == offsets[k - 1] + widths[k - 1];
      OffsetIs(widths, offsets, k - 1);
      OffsetNext(widths, k - 1);
    }
  }

  lemma {:induction false} FieldInside(widths: seq<nat>, k: nat)
    requires k < |widths|
    ensures Offset(widths, k) + widths[k] <= Total(widths)
    decreases k
  {
    if k > 0 { FieldInside(widths[1..], k - 1); }
  }

  lemma SliceOfRest(bytes: seq<Byte>, from: nat, at: nat, n: nat)
    requires from + at + n <= |bytes|
    ensures bytes[from..][at..at + n] == bytes[from + at..from + at + n]
  {
  }

  lemma PackSplit(widths: seq<nat>, values: seq<nat>)
    requires |widths| == |values| > 0
    ensures widths[0] <= Total(widths)
    ensures Pack(widths, values)[..widths[0]] == Encode(widths[0], values[0])
    ensures Pack(widths, values)[widths[0]..] == Pack(widths[1..], values[1..])
  {
    JoinFacts(Encode(widths[0], values[0]), Pack(widths[1..], values[1..]));
  }

  lemma {:induction false} PackedAt(widths: seq<nat>, values: seq<nat>, k: nat, at: nat, n: nat)
    requires k < |widths| == |values| && at == Offset(widths, k) && n == widths[k]
    ensures at + n <= Total(widths) && Pack(widths, values)[at..at + n] == Encode(n, values[k])
    decreases k
  {
    FieldInside(widths, k);
    PackSplit(widths, values);
    if k > 0 {
      PackedAt(widths[1..], values[1..], k - 1, at - widths[0], n);
      SliceOfRest(Pack(widths, values), widths[0], at - widths[0], n);
    }
  }

  /** Field `k` is written at its offset, whatever follows the record, and is read from there. */
  lemma FieldAt(widths: seq<nat>, offsets: seq<nat>, values: seq<nat>, rest: seq<Byte>, k: nat)
    requires Laid(widths, offsets) && k < |widths| == |values|
    ensures offsets[k] + widths[k] <= Total(widths)
    ensures (Pack(widths, values) + rest)[offsets[k]..offsets[k] + widths[k]] == Encode(widths[k], values[k])
  {
    OffsetIs(widths, offsets, k);
    PackedAt(widths, values, k, offsets[k], widths[k]);
  }

  lemma Decoded(piece: seq<Byte>, n: nat, value: nat)
    requires piece == Encode(n, value) && value < Pow256(n)
    ensures Decode(piece) == value
  {
    DecodeEncode(n, value);
  }

  lemma PackedSlice(widths: seq<nat>, bytes: seq<Byte>, v: seq<nat>, k: nat, at: nat, n: nat)
    requires k < |widths| == |v| && |bytes| >= Total(widths) && Pack(widths, v) == bytes[..Total(widths)]
    requires at == Offset(widths, k) && n == widths[k]
    ensures at + n <= |bytes| && bytes[at..at + n] == Encode(n, v[k])
  {
    PackedAt(widths, v, k, at, n);
    assert bytes[..Total(widths)][at..at + n] == bytes[at..at + n];
  }

  lemma FieldFrom(widths: seq<nat>, offsets: seq<nat>, bytes: seq<Byte>, k: nat)
    requires Laid(widths, offsets) && k < |widths| && |bytes| >= Total(widths)
    ensures offsets[k] + widths[k] <= |bytes|
    ensures Unpack(widths, bytes)[k] == Decode(bytes[offsets[k]..offsets[k] + widths[k]])
  {
    var v := Unpack(widths, bytes);
    OffsetIs(widths, offsets, k);
    PackUnpack(widths, bytes);
    UnpackFits(widths, bytes);
    PackedSlice(widths, bytes, v, k, offsets[k], widths[k]);
    Decoded(bytes[offsets[k]..offsets[k] + widths[k]], widths[k], v[k]);
  }

  /** Field `k` stands at its offset. */
  ghost predicate StandsAt(b: seq<Byte>, widths: seq<nat>, offsets: seq<nat>, values: seq<nat>, k: nat) {
    && k < |widths| == |offsets| == |values| && offsets[k] + widths[k] <= |b|
    && b[offsets[k]..offsets[k] + widths[k]] == Encode(widths[k], values[k])
  }

  /** Field `k` is what is read at its offset. */
  ghost predicate ReadFrom(b: seq<Byte>, widths: seq<nat>, offsets: seq<nat>, values: seq<nat>, k: nat) {
    && k < |widths| == |offsets| == |values| && offsets[k] + widths[k] <= |b|
    && values[k] == Decode(b[offsets[k]..offsets[k] + widths[k]])
  }

  lemma AllStand(widths: seq<nat>, offsets: seq<nat>, values: seq<nat>, rest: seq<Byte>)
    requires Laid(widths, offsets) && |widths| == |values|
    ensures forall k :: 0 <= k < |widths| ==> StandsAt(Pack(widths, values) + rest, widths, offsets, values, k)
  {
    forall k | 0 <= k < |widths| ensures StandsAt(Pack(widths, values) + rest, widths, offsets, values, k) {
      FieldAt(widths, offsets, values, rest, k);
    }
  }

  lemma AllRead(widths: seq<nat>, offsets: seq<nat>, b: seq<Byte>)
    requires Laid(widths, offsets) && |b| >= Total(widths)
    ensures forall k :: 0 <= k < |widths| ==> ReadFrom(b, widths, offsets, Unpack(widths, b), k)
  {
    forall k | 0 <= k < |widths| ensures ReadFrom(b, widths, offsets, Unpack(widths, b), k) {
      FieldFrom(widths, offsets, b, k);
    }
  }

  // ---- regions of a byte sequence ----

  function WriteAt(bytes: seq<Byte>, at: nat, data: seq<Byte>): (r: seq<Byte>)
    requires at + |data| <= |bytes|
    ensures |r| == |bytes|
  {
    bytes[..at] + data + bytes[at + |data|..]
  }

  function ReadAt(bytes: seq<Byte>, at: nat, n: nat): (r: seq<Byte>)
    requires at + n <= |bytes|
    ensures |r| == n
  {
    bytes[at..at + n]
  }

  lemma ReadBack(bytes: seq<Byte>, at: nat, data: seq<Byte>)
    requires at + |data| <= |bytes|
    ensures ReadAt(WriteAt(bytes, at, data), at, |data|) == data
  {
  }

  lemma ReadElsewhere(bytes: seq<Byte>, at: nat, data: seq<Byte>, from: nat, n: nat)
    requires at + |data| <= |bytes| && from + n <= |bytes|
    requires from + n <= at || at + |data| <= from
    ensures ReadAt(WriteAt(bytes, at, data), from, n) == ReadAt(bytes, from, n)
  {
  }
}
