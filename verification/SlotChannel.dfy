/** The pooled RPC v1 channel (src/rpc.cpp:379-462): a bounded pool of connections, one request in
    flight on each.  Replies carry no request id, so pairing rests on the byte stream of every idle
    connection being exhausted.

    The peer answers each request it receives in full with one length-prefixed reply, `reply(r)`,
    and sends nothing else.  Bytes travel at any pace; reads, writes and connects fail at will. */
module SlotChannels {
  import opened Prelude
  import opened Wire

  type Peer = nat -> seq<byte>

  ghost predicate Sized(reply: Peer) {
    forall r :: |reply(r)| < WORD32
  }

  /** htonl / ntohl of the reply length. */
  function Length32(n: nat): seq<byte>
    requires n < WORD32
  {
    [n / 0x100_0000, n / 0x1_0000 % 0x100, n / 0x100 % 0x100, n % 0x100]
  }

  function ToLength(b: seq<byte>): nat
    requires |b| == 4
  {
    (b[0] as int) * 0x100_0000 + (b[1] as int) * 0x1_0000 + (b[2] as int) * 0x100 + (b[3] as int)
  }

  lemma {:induction false} LengthInverse(n: nat)
    requires n < WORD32
    ensures ToLength(Length32(n)) == n
  {
    assert n / 0x100 == n / 0x1_0000 * 0x100 + n / 0x100 % 0x100;
    assert n / 0x1_0000 == n / 0x100_0000 * 0x100 + n / 0x1_0000 % 0x100;
  }

  function ReplyFrame(reply: Peer, r: nat): seq<byte>
    requires |reply(r)| < WORD32
  {
    Length32(|reply(r)|) + reply(r)
  }

  /** `rx` has arrived and is unread, `owed` is on its way or will be sent. */
  datatype Conn = Conn(open: bool, rx: seq<byte>, owed: seq<byte>)

  datatype Phase =
    | Idle
    | Claimed(r: nat)
    | Ready(r: nat)
    | Written(r: nat)
    | GotLength(r: nat, n: nat)
    | Parsing(r: nat, payload: seq<byte>)
    | Succeeded(r: nat, payload: seq<byte>)
    | Broken

  datatype Slot = Slot(busy: bool, conn: Option<Conn>, phase: Phase)

  /** `results` logs what each successful call parsed. */
  datatype State = State(slots: seq<Slot>, results: seq<(nat, seq<byte>)>)

  datatype Event =
    | Claim(r: nat)
    | GiveUp(i: nat)                                 // serialisation or size failure
    | Connect(i: nat, ok: bool)
    | Write(i: nat, ok: bool, received: bool)        // received: the peer got the whole request
    | Deliver(i: nat, n: nat)
    | ReadLength(i: nat)
    | ReadBody(i: nat)
    | ReadFail(i: nat, n: nat)
    | Parse(i: nat, ok: bool)
    | Lost(i: nat)                                   // closed under the call, or by the destructor
    | Finish(i: nat)

  function FirstFree(slots: seq<Slot>): (i: nat)
    ensures i <= |slots|
    ensures i < |slots| ==> !slots[i].busy
    ensures forall j :: 0 <= j < i ==> slots[j].busy
  {
    if slots == [] then 0
    else if !slots[0].busy then 0
    else 1 + FirstFree(slots[1..])
  }

  predicate IsOpen(s: Slot) {
    s.conn.Some? && s.conn.value.open
  }

  /** One step of the call that owns a slot, or of its connection. */
  function SlotStep(reply: Peer, s: Slot, e: Event): Slot
    requires Sized(reply)
  {
    var p := s.phase;
    match e
    case Claim(_) => s
    case GiveUp(_) => if p.Claimed? then s.(phase := Broken) else s
    case Connect(_, ok) =>
      if !p.Claimed? then s
      else if IsOpen(s) then s.(phase := Ready(p.r))
      else if ok then s.(conn := Some(Conn(true, [], [])), phase := Ready(p.r))
      else s.(conn := None, phase := Broken)
    case Write(_, ok, received) =>
      if !p.Ready? || s.conn.None? then s
      else
        var c := s.conn.value;
        var c' := if received || ok then c.(owed := c.owed + ReplyFrame(reply, p.r)) else c;
        if ok && c.open then s.(conn := Some(c'), phase := Written(p.r))
        else s.(conn := Some(c'), phase := Broken)
    case Deliver(_, n) =>
      if s.conn.Some? && n <= |s.conn.value.owed| then
        var c := s.conn.value;
        s.(conn := Some(c.(rx := c.rx + c.owed[..n], owed := c.owed[n..])))
      else s
    case ReadLength(_) =>
      if p.Written? && IsOpen(s) && |s.conn.value.rx| >= 4 then
        var c := s.conn.value;
        var n := ToLength(c.rx[..4]);
        s.(conn := Some(c.(rx := c.rx[4..])), phase := if n > MAX_MESSAGE then Broken else GotLength(p.r, n))
      else s
    case ReadBody(_) =>
      if p.GotLength? && IsOpen(s) && |s.conn.value.rx| >= p.n then
        var c := s.conn.value;
        s.(conn := Some(c.(rx := c.rx[p.n..])), phase := Parsing(p.r, c.rx[..p.n]))
      else s
    case ReadFail(_, n) =>
      if (p.Written? || p.GotLength?) && s.conn.Some? && n <= |s.conn.value.rx| then
        var c := s.conn.value;
        s.(conn := Some(c.(rx := c.rx[n..])), phase := Broken)
      else s
    case Parse(_, ok) =>
      if p.Parsing? then s.(phase := if ok then Succeeded(p.r, p.payload) else Broken) else s
    case Lost(_) => if s.conn.Some? then s.(conn := Some(s.conn.value.(open := false))) else s
    case Finish(_) =>
      if p.Succeeded? then s.(busy := false, phase := Idle)
      else if p.Broken? then Slot(false, None, Idle)
      else s
  }

  ghost function Step(reply: Peer, s: State, e: Event): State
    requires Sized(reply)
  {
    if e.Claim? then
      var i := FirstFree(s.slots);
      if i < |s.slots| then s.(slots := s.slots[i := s.slots[i].(busy := true, phase := Claimed(e.r))]) else s
    else if e.i < |s.slots| then
      var p := s.slots[e.i].phase;
      State(s.slots[e.i := SlotStep(reply, s.slots[e.i], e)],
            if e.Finish? && p.Succeeded? then s.results + [(p.r, p.payload)] else s.results)
    else s
  }

  ghost function Run(reply: Peer, n: nat, es: seq<Event>): State
    requires Sized(reply)
  {
    if es == [] then State(seq(n, _ => Slot(false, None, Idle)), [])
    else Step(reply, Run(reply, n, es[..|es| - 1]), es[|es| - 1])
  }

  /** Everything still to come on the connection. */
  function Stream(s: Slot): seq<byte>
    requires s.conn.Some?
  {
    s.conn.value.rx + s.conn.value.owed
  }

  /** The stream of an open connection is in step with the call that owns the slot. */
  ghost predicate InStep(reply: Peer, s: Slot)
    requires Sized(reply)
  {
    && (s.busy <==> !s.phase.Idle?)
    && match s.phase
       case Idle | Claimed(_) | Ready(_) => IsOpen(s) ==> Stream(s) == []
       case Written(r) => IsOpen(s) ==> Stream(s) == ReplyFrame(reply, r)
       case GotLength(r, n) => n == |reply(r)| && (IsOpen(s) ==> Stream(s) == reply(r))
       case Parsing(r, p) => p == reply(r) && (IsOpen(s) ==> Stream(s) == [])
       case Succeeded(r, p) => p == reply(r) && (IsOpen(s) ==> Stream(s) == [])
       case Broken => true
  }

  lemma {:induction false} ReadLengthInStep(reply: Peer, s: Slot)
    requires Sized(reply) && InStep(reply, s)
    ensures InStep(reply, SlotStep(reply, s, ReadLength(0)))
  {
    if s.phase.Written? && IsOpen(s) && |s.conn.value.rx| >= 4 {
      var r := s.phase.r;
      var f := ReplyFrame(reply, r);
      LengthInverse(|reply(r)|);
      assert Stream(s)[..4] == s.conn.value.rx[..4];
      assert f[..4] == Length32(|reply(r)|) && f[4..] == reply(r);
      assert Stream(SlotStep(reply, s, ReadLength(0))) == Stream(s)[4..];
    }
  }

  lemma {:induction false} ReadBodyInStep(reply: Peer, s: Slot)
    requires Sized(reply) && InStep(reply, s)
    ensures InStep(reply, SlotStep(reply, s, ReadBody(0)))
  {
    if s.phase.GotLength? && IsOpen(s) && |s.conn.value.rx| >= s.phase.n {
      var n := s.phase.n;
      assert Stream(s)[..n] == s.conn.value.rx[..n];
      assert Stream(SlotStep(reply, s, ReadBody(0))) == Stream(s)[n..];
    }
  }

  lemma {:induction false} SlotStepInStep(reply: Peer, s: Slot, e: Event)
    requires Sized(reply) && InStep(reply, s) && !e.Claim?
    ensures InStep(reply, SlotStep(reply, s, e))
  {
    var t := SlotStep(reply, s, e);
    match e
    case ReadLength(_) => ReadLengthInStep(reply, s);
    case ReadBody(_) => ReadBodyInStep(reply, s);
    case Deliver(_, n) =>
      if s.conn.Some? && n <= |s.conn.value.owed| {
        var c := s.conn.value;
        assert c.rx + c.owed[..n] + c.owed[n..] == c.rx + c.owed;
      }
    case Write(_, _, _) =>
      if s.phase.Ready? && s.conn.Some? {
        var c := s.conn.value;
        assert c.rx + (c.owed + ReplyFrame(reply, s.phase.r)) == Stream(s) + ReplyFrame(reply, s.phase.r);
      }
    case _ =>
  }

  ghost predicate Safe(reply: Peer, s: State)
    requires Sized(reply)
  {
    && (forall i :: 0 <= i < |s.slots| ==> InStep(reply, s.slots[i]))
    && (forall k :: 0 <= k < |s.results| ==> s.results[k].1 == reply(s.results[k].0))
  }

  lemma {:induction false} StepKeepsSafe(reply: Peer, s: State, e: Event)
    requires Sized(reply) && Safe(reply, s)
    ensures Safe(reply, Step(reply, s, e))
  {
    if !e.Claim? && e.i < |s.slots| {
      SlotStepInStep(reply, s.slots[e.i], e);
    }
  }

  lemma {:induction false} RunIsSafe(reply: Peer, n: nat, es: seq<Event>)
    requires Sized(reply)
    ensures Safe(reply, Run(reply, n, es))
    decreases |es|
  {
    if es != [] {
      RunIsSafe(reply, n, es[..|es| - 1]);
      StepKeepsSafe(reply, Run(reply, n, es[..|es| - 1]), es[|es| - 1]);
    }
  }

  /** Replies are never mispaired: over any history of failures and reconnects, what a successful
      call parsed is the peer's reply to its own request. */
  lemma {:induction false} RepliesNeverMispaired(reply: Peer, n: nat, es: seq<Event>, k: nat)
    requires Sized(reply) && k < |Run(reply, n, es).results|
    ensures var (r, payload) := Run(reply, n, es).results[k]; payload == reply(r)
  {
    RunIsSafe(reply, n, es);
  }

  /** Every free slot with an open connection has no outstanding request and no unread byte. */
  lemma {:induction false} IdleStreamsAreClean(reply: Peer, n: nat, es: seq<Event>, i: nat)
    requires Sized(reply) && i < |Run(reply, n, es).slots|
    requires var s := Run(reply, n, es).slots[i]; !s.busy && IsOpen(s)
    ensures var s := Run(reply, n, es).slots[i]; s.conn.value.rx == [] && s.conn.value.owed == []
  {
    RunIsSafe(reply, n, es);
    var s := Run(reply, n, es).slots[i];
    assert InStep(reply, s) && Stream(s) == [];
  }

  class SlotChannel {
    var slots: seq<Slot>
    ghost var results: seq<(nat, seq<byte>)>

    ghost function View(): State
      reads this
    {
      State(slots, results)
    }

    /** Under the pool's mutex: the first free slot, or overload. */
    method ClaimSlot(ghost reply: Peer, r: nat) returns (found: bool, i: nat)
      requires Sized(reply)
      modifies this
      ensures View() == Step(reply, old(View()), Claim(r))
      ensures found <==> exists j :: 0 <= j < |old(slots)| && !old(slots)[j].busy
      ensures found ==> i < |slots| && !old(slots)[i].busy && slots[i].phase == Claimed(r)
    {
      i := 0;
      while i < |slots| && slots[i].busy
        invariant i <= |slots|
        invariant forall j :: 0 <= j < i ==> slots[j].busy
      {
        i := i + 1;
      }
      found := i < |slots|;
      assert FirstFree(slots) == i;
      if found {
        slots := slots[i := slots[i].(busy := true, phase := Claimed(r))];
      }
    }

    /** The end of CallMethod: a connection survives only a success. */
    method FinishCall(ghost reply: Peer, i: nat)
      requires Sized(reply) && i < |slots| && (slots[i].phase.Succeeded? || slots[i].phase.Broken?)
      modifies this
      ensures View() == Step(reply, old(View()), Finish(i))
      ensures !slots[i].busy && (slots[i].conn.Some? ==> old(slots)[i].phase.Succeeded?)
    {
      var p := slots[i].phase;
      if p.Succeeded? {
        results := results + [(p.r, p.payload)];
        slots := slots[i := slots[i].(busy := false, phase := Idle)];
      } else {
        slots := slots[i := Slot(false, None, Idle)];
      }
    }
  }
}
