/** Blocking-style reads and writes over a socket that transfers any number of bytes at a time and
    may fail at any point (src/net.cpp:150-254), and the request reader on top of them
    (src/rpc.cpp:30-45, 536-550). */
module Connections {
  import opened Wire

  /** ReadVarint32 either reads a value, rejects a byte, fails to read, or falls out of its loop. */
  datatype VarintResult = Value(v: nat) | BadByte | ReadFailed | FellThrough

  datatype RequestResult = Received(r: Request) | Rejected | Failed

  /** x << (i * 7) */
  function Shift(x: nat, i: nat): nat {
    if i == 0 then x else if i == 1 then x * 0x80 else if i == 2 then x * 0x4000
    else if i == 3 then x * 0x20_0000 else x * 0x1000_0000
  }

  /** The low bits already decoded, put under what the remaining bytes decode to. */
  function Under(acc: nat, i: nat, r: VarintRead): VarintRead {
    if r.Done? then Done(acc + Shift(r.value, i), r.rest) else r
  }

  lemma {:induction false} UnderStep(acc: nat, i: nat, s: seq<byte>)
    requires i < 4 && s != [] && s[0] >= 128
    ensures Under(acc, i, ReadVarint(s, i)) == Under(acc + Shift(s[0] % 128, i), i + 1, ReadVarint(s[1..], i + 1))
  {
  }

  lemma {:induction false} UnderLast(acc: nat, i: nat, s: seq<byte>)
    requires i <= 4 && s != [] && s[0] < 128 && !(i == 4 && s[0] >= 16)
    ensures Under(acc, i, ReadVarint(s, i)) == Done(acc + Shift(s[0], i), s[1..])
  {
  }

  lemma {:induction false} DecodeParts(c: Codec, s: seq<byte>, n: nat, rest: seq<byte>)
    requires ReadVarint(s, 0) == Done(n, rest)
    ensures n == 0 || n > MAX_HEADER ==> Decode(c, s) == Reject
    ensures 0 < n <= MAX_HEADER && n <= |rest| ==>
              var h := c.dec(rest[..n]);
              if h.None? || h.value.argsSize > MAX_MESSAGE - n - 5 then Decode(c, s) == Reject
              else n + h.value.argsSize <= |rest| ==>
                     Decode(c, s) == Got(Request(h.value.service, h.value.name, h.value.requestId,
                                                 rest[n..n + h.value.argsSize]),
                                         rest[n + h.value.argsSize..])
  {
  }

  lemma {:induction false} Slices(s: seq<byte>, n: nat, k: nat)
    requires n + k <= |s|
    ensures s[n..][..k] == s[n..n + k] && s[n..][k..] == s[n + k..]
  {
  }

  lemma {:induction false} ReceivesNext(c: Codec, left: seq<Request>, s: seq<byte>, r: Request, rest: seq<byte>)
    requires Faithful(c) && AllAccepted(c, left) && s <= Frames(c, left) && Decode(c, s) == Got(r, rest)
    ensures left != [] && r == left[0] && AllAccepted(c, left[1..])
    ensures rest <= Frames(c, left[1..]) && |rest| < |s|
  {
    PrefixDecodes(c, left, s);
    DecodeShrinks(c, s);
  }

  class Connection {
    /** What the peer has sent or will send and has not been read; what the kernel has taken. */
    var incoming: seq<byte>
    var outgoing: seq<byte>
    var reading: bool
    var writing: bool

    /** recv() after any number of retries: an error (-1), end of stream (0), or some bytes. */
    method DoRead(capacity: nat) returns (count: int, chunk: seq<byte>)
      modifies this`incoming
      ensures -1 <= count <= capacity
      ensures count > 0 ==> count <= |old(incoming)|
      ensures count > 0 ==> chunk == old(incoming)[..count] && incoming == old(incoming)[count..]
      ensures count <= 0 ==> chunk == [] && incoming == old(incoming)
    {
      count :| -1 <= count <= capacity && count <= |incoming|;
      chunk := [];
      if count > 0 {
        chunk, incoming := incoming[..count], incoming[count..];
      }
    }

    /** Exactly `size` bytes or failure; a failure may have consumed fewer. */
    method ReadExact(size: nat) returns (ok: bool, buffer: seq<byte>)
      modifies this`incoming, this`reading
      ensures reading == old(reading)
      ensures old(reading) ==> !ok && incoming == old(incoming)
      ensures ok ==> size <= |old(incoming)| && buffer == old(incoming)[..size] && incoming == old(incoming)[size..]
      ensures !ok && !old(reading) ==>
                exists n :: 0 <= n < size && n <= |old(incoming)| && incoming == old(incoming)[n..]
    {
      buffer := [];
      if reading {
        return false, [];
      }
      reading := true;
      var more := true;
      while |buffer| < size && more
        invariant |buffer| <= size && |buffer| <= |old(incoming)|
        invariant buffer == old(incoming)[..|buffer|] && incoming == old(incoming)[|buffer|..]
        decreases size - |buffer|, more
      {
        var count, chunk := DoRead(size - |buffer|);
        if count <= 0 {
          more := false;
        } else {
          buffer := buffer + chunk;
        }
      }
      reading := false;
      ok := |buffer| == size;
    }

    /** All of `buffer` or failure; a failure may have sent a proper prefix. */
    method WriteAll(buffer: seq<byte>) returns (ok: bool)
      modifies this`outgoing, this`writing
      ensures writing == old(writing)
      ensures old(writing) ==> !ok && outgoing == old(outgoing)
      ensures ok ==> outgoing == old(outgoing) + buffer
      ensures !ok && !old(writing) ==> exists n :: 0 <= n < |buffer| && outgoing == old(outgoing) + buffer[..n]
    {
      if writing {
        return false;
      }
      writing := true;
      var sent := 0;
      var more := true;
      while sent < |buffer| && more
        invariant sent <= |buffer| && outgoing == old(outgoing) + buffer[..sent]
        decreases |buffer| - sent, more
      {
        var count :| -1 <= count <= |buffer| - sent;
        if count <= 0 {
          more := false;
        } else {
          assert buffer[..sent] + buffer[sent..sent + count] == buffer[..sent + count];
          outgoing := outgoing + buffer[sent..sent + count];
          sent := sent + count;
        }
      }
      writing := false;
      ok := sent == |buffer|;
      assert ok ==> buffer[..sent] == buffer;
    }

    /** The byte-by-byte decoder agrees with ReadVarint, and the EPROTO after its loop is never
        reached.  While another read is in progress it fails and reads nothing. */
    method ReadVarint32() returns (r: VarintResult)
      modifies this`incoming, this`reading
      ensures reading == old(reading) && !r.FellThrough?
      ensures old(reading) ==> r.ReadFailed? && incoming == old(incoming)
      ensures r.Value? ==> ReadVarint(old(incoming), 0) == Done(r.v, incoming)
      ensures r.BadByte? ==> ReadVarint(old(incoming), 0) == Malformed
    {
      r := FellThrough;
      var value: nat, i: nat := 0, 0;
      while i < 5 && r.FellThrough?
        invariant reading == old(reading) && !(old(reading) && (r.Value? || r.BadByte?))
        invariant old(reading) ==> incoming == old(incoming) && (r.FellThrough? ==> i == 0)
        invariant r.FellThrough? ==> i <= 4 && ReadVarint(old(incoming), 0) == Under(value, i, ReadVarint(incoming, i))
        invariant r.Value? ==> ReadVarint(old(incoming), 0) == Done(r.v, incoming)
        invariant r.BadByte? ==> ReadVarint(old(incoming), 0) == Malformed
        decreases 5 - i, r.FellThrough?
      {
        ghost var before := incoming;
        var ok, bytes := ReadExact(1);
        if !ok {
          r := ReadFailed;
        } else {
          var b := bytes[0];
          assert before[0] == b && incoming == before[1..];
          if i == 4 && b >= 16 {
            r := BadByte;
          } else if b < 128 {
            UnderLast(value, i, before);
            r := Value(value + Shift(b, i));
          } else {
            UnderStep(value, i, before);
            value := value + Shift(b % 128, i);
            i := i + 1;
          }
        }
      }
    }

    /** The reading part of Provider::State::Handle for one request. */
    method ReadRequest(c: Codec) returns (r: RequestResult)
      modifies this`incoming, this`reading
      ensures reading == old(reading)
      ensures old(reading) ==> r.Failed? && incoming == old(incoming)
      ensures r.Received? ==> Decode(c, old(incoming)) == Got(r.r, incoming)
      ensures r.Rejected? ==> Decode(c, old(incoming)) == Reject
    {
      var size := ReadVarint32();
      if !size.Value? {
        return if size.BadByte? then Rejected else Failed;
      }
      var n := size.v;
      ghost var rest := incoming;
      DecodeParts(c, old(incoming), n, rest);
      if n == 0 || n > MAX_HEADER {
        return Rejected;
      }
      var ok, headerData := ReadExact(n);
      if !ok {
        return Failed;
      }
      var h := c.dec(headerData);
      if h.None? || h.value.argsSize > MAX_MESSAGE - n - 5 {
        return Rejected;
      }
      var args;
      ok, args := ReadExact(h.value.argsSize);
      if !ok {
        return Failed;
      }
      Slices(rest, n, h.value.argsSize);
      return Received(Request(h.value.service, h.value.name, h.value.requestId, args));
    }

    /** The loop of Provider::State::Handle over one connection, which may also stop for reasons of its own.
        The peer sends the frames of `sent`, all of them or cut off anywhere, and the socket hands them over
        in any chunks. */
    method ReadRequests(c: Codec, ghost sent: seq<Request>) returns (got: seq<Request>, rejected: bool)
      requires Faithful(c) && AllAccepted(c, sent) && incoming <= Frames(c, sent)
      modifies this`incoming, this`reading
      ensures reading == old(reading)
      ensures got <= sent && !rejected
      ensures old(reading) ==> got == [] && incoming == old(incoming)
    {
      got, rejected := [], false;
      ghost var left := sent;
      var more: bool := *;
      while more
        invariant reading == old(reading) && got + left == sent && !rejected
        invariant AllAccepted(c, left)
        invariant old(reading) ==> got == [] && incoming == old(incoming)
        invariant more ==> incoming <= Frames(c, left)
        decreases if more then |incoming| + 1 else 0
      {
        ghost var before := incoming;
        var r := ReadRequest(c);
        if r.Received? {
          ReceivesNext(c, left, before, r.r, incoming);
          assert got + left == got + [left[0]] + left[1..];
          got, left := got + [r.r], left[1..];
          more := *;
        } else {
          PrefixDecodes(c, left, before);
          more := false;
          rejected := r.Rejected?;
        }
      }
    }
  }
}
