/** The RPC wire format: the base-128 varint of the Protocol Buffers encoding specification
    (section "Base 128 Varints") in front of a header and its arguments (src/rpc.cpp:19-45,
    400-420, 536-550), read from a socket that delivers bytes in arbitrary pieces
    (src/net.cpp:150-254). */
module Wire {
  import opened Prelude

  type byte = x: int | 0 <= x < 256

  const MAX_HEADER: nat := 64 * 1024
  const MAX_MESSAGE: nat := 64 * 1024 * 1024
  const WORD32: nat := 0x1_0000_0000

  // ---- varints ------------------------------------------------------------------------

  function Varint(v: nat): seq<byte>
    decreases v
  {
    if v < 128 then [v] else [v % 128 + 128] + Varint(v / 128)
  }

  method EncodeVarint32(value: nat) returns (out: seq<byte>)
    requires value < WORD32
    ensures out == Varint(value)
  {
    out := [];
    var v := value;
    while v >= 128
      invariant out + Varint(v) == Varint(value)
      decreases v
    {
      out := out + [v % 128 + 128];
      v := v / 128;
    }
    out := out + [v];
  }

  datatype VarintRead = Done(value: nat, rest: seq<byte>) | Short | Malformed

  /** What is left of 32 bits for the i-th byte and those after it. */
  function Limit(i: nat): nat {
    if i == 0 then 0x1_0000_0000 else if i == 1 then 0x200_0000 else if i == 2 then 0x4_0000
    else if i == 3 then 0x800 else 16
  }

  /** The i-th byte onwards: seven bits each, least significant first, at most five bytes, and only
      four bits in the fifth. */
  function ReadVarint(s: seq<byte>, i: nat): VarintRead
    requires i <= 4
    decreases 4 - i
  {
    if s == [] then Short
    else if i == 4 && s[0] >= 16 then Malformed
    else if s[0] < 128 then Done(s[0], s[1..])
    else
      var r := ReadVarint(s[1..], i + 1);
      if r.Done? then Done(s[0] % 128 + 128 * r.value, r.rest) else r
  }

  /** Decoding inverts encoding for every 32-bit value, whatever follows it. */
  lemma {:induction false} VarintInverse(v: nat, i: nat, rest: seq<byte>)
    requires i <= 4 && v < Limit(i)
    ensures ReadVarint(Varint(v) + rest, i) == Done(v, rest)
    decreases v
  {
    var s := Varint(v) + rest;
    if v < 128 {
      assert s[1..] == rest;
    } else {
      assert s[1..] == Varint(v / 128) + rest;
      VarintInverse(v / 128, i + 1, rest);
    }
  }

  /** What is decoded fits in 32 bits and at least one byte is consumed. */
  lemma {:induction false} VarintFits(s: seq<byte>, i: nat)
    requires i <= 4
    ensures ReadVarint(s, i).Done? ==> ReadVarint(s, i).value < Limit(i)
    ensures ReadVarint(s, i).Done? ==> |ReadVarint(s, i).rest| < |s|
    decreases 4 - i
  {
    if i < 4 && s != [] && s[0] >= 128 {
      VarintFits(s[1..], i + 1);
    }
  }

  lemma {:induction false} VarintLength(v: nat)
    ensures v < 0x4000 ==> |Varint(v)| <= 2
    ensures v < 0x20_0000 ==> |Varint(v)| <= 3
    ensures v < WORD32 ==> |Varint(v)| <= 5
  {
    if v >= 128 {
      assert |Varint(v)| == 1 + |Varint(v / 128)|;
      var w := v / 128;
      if w >= 128 {
        assert |Varint(w)| == 1 + |Varint(w / 128)|;
        var x := w / 128;
        if x >= 128 {
          assert |Varint(x)| == 1 + |Varint(x / 128)|;
          var y := x / 128;
          if y >= 128 {
            assert |Varint(y)| == 1 + |Varint(y / 128)|;
            assert v < WORD32 ==> y / 128 < 128;
          }
        }
      }
    }
  }

  /** A proper prefix of an encoding is recognised as incomplete. */
  lemma {:induction false} VarintPrefix(v: nat, i: nat, n: nat)
    requires i <= 4 && v < Limit(i) && n < |Varint(v)|
    ensures ReadVarint(Varint(v)[..n], i) == Short
    decreases v
  {
    if n > 0 {
      assert v >= 128;
      assert Varint(v)[..n][1..] == Varint(v / 128)[..n - 1];
      VarintPrefix(v / 128, i + 1, n - 1);
    }
  }

  // ---- frames -------------------------------------------------------------------------

  datatype Header = Header(service: seq<byte>, name: seq<byte>, argsSize: nat, requestId: nat)

  /** Protobuf serialisation of the header, abstract. */
  datatype Codec = Codec(enc: Header -> seq<byte>, dec: seq<byte> -> Option<Header>)

  ghost predicate Faithful(c: Codec) {
    forall h: Header :: c.dec(c.enc(h)) == Some(h)
  }

  datatype Request = Request(service: seq<byte>, name: seq<byte>, id: nat, args: seq<byte>)

  function HeaderOf(r: Request): Header {
    Header(r.service, r.name, |r.args| % WORD32, r.id)
  }

  /** The client's size checks. */
  predicate ClientAccepts(c: Codec, r: Request) {
    var n := |c.enc(HeaderOf(r))|;
    && |r.args| <= MAX_MESSAGE
    && n != 0 && n <= MAX_HEADER
    && |r.args| <= MAX_MESSAGE - n - 5
  }

  function Frame(c: Codec, r: Request): seq<byte> {
    var encoded := c.enc(HeaderOf(r));
    Varint(|encoded| % WORD32) + encoded + r.args
  }

  datatype Decoded = Got(r: Request, rest: seq<byte>) | NeedMore | Reject

  /** The server's reading of one request from the bytes received so far, with its size checks. */
  function Decode(c: Codec, s: seq<byte>): Decoded {
    var v := ReadVarint(s, 0);
    if v.Short? then NeedMore
    else if v.Malformed? then Reject
    else if v.value == 0 || v.value > MAX_HEADER then Reject
    else if |v.rest| < v.value then NeedMore
    else
      var h := c.dec(v.rest[..v.value]);
      if h.None? || h.value.argsSize > MAX_MESSAGE - v.value - 5 then Reject
      else if |v.rest| < v.value + h.value.argsSize then NeedMore
      else Got(Request(h.value.service, h.value.name, h.value.requestId, v.rest[v.value..v.value + h.value.argsSize]),
               v.rest[v.value + h.value.argsSize..])
  }

  lemma {:induction false} NoTruncation(n: nat)
    requires n < WORD32
    ensures n % WORD32 == n
  {
  }

  lemma {:induction false} FrameParts(c: Codec, r: Request, rest: seq<byte>)
    requires |c.enc(HeaderOf(r))| < WORD32
    ensures ReadVarint(Frame(c, r) + rest, 0)
         == Done(|c.enc(HeaderOf(r))|, c.enc(HeaderOf(r)) + r.args + rest)
  {
    var encoded := c.enc(HeaderOf(r));
    NoTruncation(|encoded|);
    var p := Varint(|encoded|);
    VarintInverse(|encoded|, 0, encoded + r.args + rest);
    assert p + encoded + r.args + rest == p + (encoded + r.args + rest);
  }

  /** The server decodes a frame to the request it was made from, leaving what follows untouched,
      exactly when the client's size checks accept the request. */
  lemma {:induction false} FrameDecodesIffAccepted(c: Codec, r: Request, rest: seq<byte>)
    requires Faithful(c) && |c.enc(HeaderOf(r))| < WORD32 && |r.args| < WORD32
    ensures Decode(c, Frame(c, r) + rest) == Got(r, rest) <==> ClientAccepts(c, r)
  {
    var encoded := c.enc(HeaderOf(r));
    var n := |encoded|;
    NoTruncation(|r.args|);
    FrameParts(c, r, rest);
    var tail := encoded + r.args + rest;
    assert tail[..n] == encoded;
    assert tail[n..n + |r.args|] == r.args;
    assert tail[n + |r.args|..] == rest;
  }

  /** A whole frame never exceeds 64 MiB. */
  lemma {:induction false} FrameFits(c: Codec, r: Request)
    requires ClientAccepts(c, r)
    ensures |Frame(c, r)| <= MAX_MESSAGE
  {
    VarintLength(|c.enc(HeaderOf(r))|);
  }

  /** Bytes that stop inside a frame are never mistaken for a request or for garbage. */
  lemma {:induction false} PartialFrameNeedsMore(c: Codec, r: Request, n: nat)
    requires Faithful(c) && ClientAccepts(c, r) && n < |Frame(c, r)|
    ensures Decode(c, Frame(c, r)[..n]) == NeedMore
  {
    var encoded := c.enc(HeaderOf(r));
    NoTruncation(|encoded|);
    NoTruncation(|r.args|);
    var p := Varint(|encoded|);
    var s := Frame(c, r)[..n];
    if n < |p| {
      assert s == p[..n];
      VarintPrefix(|encoded|, 0, n);
    } else {
      var tail := (encoded + r.args)[..n - |p|];
      assert s == p + tail;
      VarintInverse(|encoded|, 0, tail);
      if |tail| >= |encoded| {
        assert tail[..|encoded|] == encoded;
      }
    }
  }

  function Frames(c: Codec, rs: seq<Request>): seq<byte> {
    if rs == [] then [] else Frame(c, rs[0]) + Frames(c, rs[1..])
  }

  predicate AllAccepted(c: Codec, rs: seq<Request>) {
    forall i :: 0 <= i < |rs| ==> ClientAccepts(c, rs[i])
  }

  /** What a server reads from a byte stream: the requests decoded and how the stream ended. */
  function DecodeAll(c: Codec, s: seq<byte>): (seq<Request>, Decoded)
    decreases |s|
  {
    var d := Decode(c, s);
    if d.Got? then
      DecodeShrinks(c, s);
      var (rs, end) := DecodeAll(c, d.rest);
      ([d.r] + rs, end)
    else ([], d)
  }

  lemma {:induction false} DecodeShrinks(c: Codec, s: seq<byte>)
    requires Decode(c, s).Got?
    ensures |Decode(c, s).rest| < |s|
  {
    VarintFits(s, 0);
  }

  /** Every list of accepted requests, sent back to back, is decoded to the same list, and the
      stream ends at a frame boundary. */
  lemma {:induction false} StreamRoundTrip(c: Codec, rs: seq<Request>)
    requires Faithful(c) && AllAccepted(c, rs)
    ensures DecodeAll(c, Frames(c, rs)) == (rs, NeedMore)
    decreases |rs|
  {
    if rs != [] {
      FrameDecodesIffAccepted(c, rs[0], Frames(c, rs[1..]));
      StreamRoundTrip(c, rs[1..]);
      assert rs == [rs[0]] + rs[1..];
    }
  }

  /** A stream of accepted requests that is cut off anywhere decodes its first request and leaves the rest
      of the stream, or needs more bytes; it is never rejected. */
  lemma {:induction false} PrefixDecodes(c: Codec, rs: seq<Request>, s: seq<byte>)
    requires Faithful(c) && AllAccepted(c, rs) && s <= Frames(c, rs)
    ensures var d := Decode(c, s);
            d == NeedMore || (rs != [] && d.Got? && d.r == rs[0] && d.rest <= Frames(c, rs[1..]))
  {
    if rs != [] {
      var frame := Frame(c, rs[0]);
      if |s| < |frame| {
        assert s == Frames(c, rs)[..|s|] == frame[..|s|];
        PartialFrameNeedsMore(c, rs[0], |s|);
      } else {
        var rest := s[|frame|..];
        assert s[..|frame|] == Frames(c, rs)[..|frame|] == frame;
        assert s == frame + rest;
        assert rest == Frames(c, rs)[..|s|][|frame|..] == Frames(c, rs[1..])[..|rest|];
        FrameDecodesIffAccepted(c, rs[0], rest);
      }
    }
  }
}
