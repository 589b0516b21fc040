/** The multiplexed client channel (src/rpc.cpp:163-227, 280-376): many fibers share one
    connection, and removing a call from `pending_calls` is the right to complete it.

    Any number of callers, timers and reader fibers interleave; each event is one critical
    section, one atomic access or one connection operation.  Call ids are positions in `calls`
    (the source counts from 1 and is assumed not to wrap).  Nothing is assumed about the peer.
    `Foreign` is a resume that was queued for a parked caller's fiber elsewhere. */
module MuxChannels {
  /** Where a caller is inside CallMethod. */
  datatype Phase =
    | New          // has its request id, about to lock write_mutex
    | Locked       // holds write_mutex, about to look at the connection
    | Connected    // has just stored a fresh connection, about to look at reader_running
    | Ready        // about to insert into pending_calls
    | Inserted     // inserted, writing its frame
    | Sent         // the whole frame was written, still holds write_mutex
    | SendErr      // the write failed, still holds write_mutex
    | Waiting      // write_mutex released, timer armed, parked
    | Unsent       // write_mutex released, about to erase its entry
    | Gone         // returned

  /** How a call left the map; `frame` is a position in `seen`. */
  datatype Exit = Response(frame: nat) | TimedOut | Shutdown | SendFailed

  datatype Call = Call(phase: Phase, inserted: bool, exits: seq<Exit>, done: bool, wakes: nat)

  /** Where a reader fiber is inside ReaderLoop. */
  datatype Reader =
    | Looping
    | Leaving                       // left the loop, reader_running still set by it
    | Flagged                       // reader_running cleared, about to close the connection
    | Closing                       // connection closed, about to swap the map out
    | Sweeping(rest: set<nat>)      // failing the calls it took
    | Finished

  datatype Conn = NoConn | Open | Closed
  datatype Frame = Frame(id: nat, body: int)

  /** `seen` is a history of the response frames read. */
  datatype State = State(calls: seq<Call>, pending: set<nat>, writer: set<nat>, conn: Conn,
                         running: bool, readers: seq<Reader>, seen: seq<Frame>)

  datatype Event =
    | Begin
    | LockWrite(c: nat)
    | CheckConn(c: nat, connects: bool)
    | StartReader(c: nat)
    | Insert(c: nat)
    | WriteOk(c: nat)
    | WriteFail(c: nat)
    | Release(c: nat)
    | EraseUnsent(c: nat)
    | Timer(c: nat)
    | Resume(c: nat)
    | Foreign(c: nat)
    | ConnLost
    | Read(r: nat, f: Frame)
    | Break(r: nat)
    | DropFlag(r: nat)
    | CloseConn(r: nat)
    | Swap(r: nat)
    | FailOne(r: nat, c: nat)
    | Finish(r: nat)

  const INIT := State([], {}, {}, NoConn, false, [], [])

  predicate At(calls: seq<Call>, c: nat, p: Phase) {
    c < |calls| && calls[c].phase == p
  }

  predicate Is(readers: seq<Reader>, r: nat, k: Reader) {
    r < |readers| && readers[r] == k
  }

  function Move(s: State, c: nat, p: Phase): State
    requires c < |s.calls|
  {
    s.(calls := s.calls[c := s.calls[c].(phase := p)])
  }

  function Turn(s: State, r: nat, k: Reader): State
    requires r < |s.readers|
  {
    s.(readers := s.readers[r := k])
  }

  function Leave(c: Call, why: Exit): Call {
    c.(exits := c.exits + [why])
  }

  function Woken(c: Call): Call {
    c.(done := true, wakes := c.wakes + 1)
  }

  /** Every call in the map leaves it at once. */
  function TakeAll(calls: seq<Call>, pending: set<nat>): (r: seq<Call>)
    ensures |r| == |calls|
    ensures forall c :: 0 <= c < |calls| ==>
              r[c] == if c in pending then Leave(calls[c], Shutdown) else calls[c]
  {
    if calls == [] then []
    else
      var n := |calls| - 1;
      TakeAll(calls[..n], pending) + [if n in pending then Leave(calls[n], Shutdown) else calls[n]]
  }

  predicate ByReader(e: Event) {
    e.Read? || e.Break? || e.DropFlag? || e.CloseConn? || e.Swap? || e.FailOne? || e.Finish?
  }

  /** The caller's own steps before and while it writes. */
  predicate Sending(e: Event) {
    e.LockWrite? || e.CheckConn? || e.StartReader? || e.WriteOk? || e.WriteFail? || e.Release?
  }

  /** Under the write lock, and leaving it. */
  function SendStep(s: State, e: Event): State
    requires Sending(e)
  {
    match e
    case LockWrite(c) =>
      if At(s.calls, c, New) && s.writer == {} then Move(s, c, Locked).(writer := {c}) else s
    case CheckConn(c, connects) =>
      if !At(s.calls, c, Locked) then s
      else if s.conn == Open then Move(s, c, Ready)
      else if connects then Move(s, c, Connected).(conn := Open)
      else Move(s, c, Gone).(conn := NoConn, writer := {})
    case StartReader(c) =>
      if !At(s.calls, c, Connected) then s
      else if s.running then Move(s, c, Ready)
      else Move(s, c, Ready).(running := true, readers := s.readers + [Looping])
    case WriteOk(c) => if At(s.calls, c, Inserted) && s.conn == Open then Move(s, c, Sent) else s
    case WriteFail(c) => if At(s.calls, c, Inserted) then Move(s, c, SendErr) else s
    case Release(c) =>
      if At(s.calls, c, Sent) then Move(s, c, Waiting).(writer := {})
      else if At(s.calls, c, SendErr) then Move(s, c, Unsent).(writer := {})
      else s
  }

  /** The reader fiber. */
  function ReaderStep(s: State, e: Event): State
    requires ByReader(e)
  {
    match e
    case Read(r, f) =>
      if !Is(s.readers, r, Looping) then s
      else
        var t := s.(seen := s.seen + [f]);
        if f.id in s.pending && f.id < |s.calls|
        then t.(calls := s.calls[f.id := Woken(Leave(s.calls[f.id], Response(|s.seen|)))],
                pending := s.pending - {f.id})
        else t
    case Break(r) => if Is(s.readers, r, Looping) then Turn(s, r, Leaving) else s
    case DropFlag(r) => if Is(s.readers, r, Leaving) then Turn(s, r, Flagged).(running := false) else s
    case CloseConn(r) =>
      if Is(s.readers, r, Flagged)
      then Turn(s, r, Closing).(conn := if s.conn == Open then Closed else s.conn) else s
    case Swap(r) =>
      if Is(s.readers, r, Closing)
      then Turn(s, r, Sweeping(s.pending)).(pending := {}, calls := TakeAll(s.calls, s.pending)) else s
    case FailOne(r, c) =>
      if r < |s.readers| && s.readers[r].Sweeping? && c in s.readers[r].rest && c < |s.calls|
      then Turn(s, r, Sweeping(s.readers[r].rest - {c}))
             .(calls := if s.calls[c].done then s.calls else s.calls[c := Woken(s.calls[c])])
      else s
    case Finish(r) => if Is(s.readers, r, Sweeping({})) then Turn(s, r, Finished) else s
  }

  /** Everything else: the map, the timer and the connection. */
  function CallerStep(s: State, e: Event): State
    requires !Sending(e) && !ByReader(e)
  {
    match e
    case Begin => s.(calls := s.calls + [Call(New, false, [], false, 0)])
    case Insert(c) =>
      if At(s.calls, c, Ready)
      then s.(calls := s.calls[c := s.calls[c].(phase := Inserted, inserted := true)], pending := s.pending + {c})
      else s
    case EraseUnsent(c) =>
      if !At(s.calls, c, Unsent) then s
      else if c in s.pending
      then s.(calls := s.calls[c := Leave(s.calls[c], SendFailed).(phase := Gone)], pending := s.pending - {c})
      else Move(s, c, Gone)
    case Timer(c) =>
      if (At(s.calls, c, Waiting) || At(s.calls, c, Gone)) && c in s.pending
      then s.(calls := s.calls[c := Woken(Leave(s.calls[c], TimedOut))], pending := s.pending - {c})
      else s
    case Resume(c) => if At(s.calls, c, Waiting) && s.calls[c].wakes > 0 then Move(s, c, Gone) else s
    case Foreign(c) => if At(s.calls, c, Waiting) then Move(s, c, Gone) else s
    case ConnLost => if s.conn == Open then s.(conn := Closed) else s
  }

  function Step(s: State, e: Event): State {
    if Sending(e) then SendStep(s, e) else if ByReader(e) then ReaderStep(s, e) else CallerStep(s, e)
  }

  function Run(es: seq<Event>): State {
    if es == [] then INIT else Step(Run(es[..|es| - 1]), es[|es| - 1])
  }

  // ---- invariant ----------------------------------------------------------------------

  predicate Writes(p: Phase) {
    p == Locked || p == Connected || p == Ready || p == Inserted || p == Sent || p == SendErr
  }

  predicate PastInsert(p: Phase) {
    p == Inserted || p == Sent || p == SendErr || p == Waiting || p == Unsent
  }

  ghost predicate InRest(readers: seq<Reader>, r: nat, c: nat) {
    r < |readers| && readers[r].Sweeping? && c in readers[r].rest
  }

  /** One call's record: it has left the map at most once, and it is woken exactly by the party
      that removed it. */
  predicate CallOk(k: Call, c: nat, pending: bool, seen: seq<Frame>) {
    && (PastInsert(k.phase) ==> k.inserted)
    && (k.inserted ==> PastInsert(k.phase) || k.phase == Gone)
    && (pending <==> k.inserted && k.exits == [])
    && |k.exits| <= 1
    && (!k.inserted ==> k.exits == [])
    && k.wakes == (if k.done then 1 else 0)
    && (k.exits == [] ==> !k.done)
    && (k.exits != [] ==>
          match k.exits[0]
          case Response(frame) => k.done && frame < |seen| && seen[frame].id == c
          case TimedOut => k.done
          case Shutdown => true
          case SendFailed => !k.done && k.phase == Gone)
  }

  ghost predicate CallsOk(s: State) {
    && (forall c :: c in s.pending ==> c < |s.calls|)
    && (forall c: nat :: c < |s.calls| ==> CallOk(s.calls[c], c, c in s.pending, s.seen))
  }

  ghost predicate WriterOk(s: State) {
    && (forall c: nat :: c < |s.calls| ==> (c in s.writer <==> Writes(s.calls[c].phase)))
    && (forall c :: c in s.writer ==> c < |s.calls| && s.writer == {c})
  }

  /** A call taken by a sweep is in exactly one sweeper's hands until it is failed. */
  ghost predicate RestsOk(s: State) {
    && (forall r: nat, c: nat :: InRest(s.readers, r, c) ==>
          c < |s.calls| && s.calls[c].exits == [Shutdown] && !s.calls[c].done)
    && (forall r, x, c :: InRest(s.readers, r, c) && InRest(s.readers, x, c) ==> r == x)
    && (forall c: nat :: c < |s.calls| && s.calls[c].exits == [Shutdown] && !s.calls[c].done ==>
          exists r :: InRest(s.readers, r, c))
  }

  ghost predicate Holds(readers: seq<Reader>, r: nat) {
    r < |readers| && (readers[r] == Looping || readers[r] == Leaving)
  }

  ghost predicate WillClose(readers: seq<Reader>, r: nat) {
    Holds(readers, r) || Is(readers, r, Flagged)
  }

  ghost predicate WillSweep(readers: seq<Reader>, r: nat) {
    WillClose(readers, r) || Is(readers, r, Closing)
  }

  /** At most one reader owns the running flag. */
  ghost predicate HoldersOk(s: State) {
    && (s.running <==> exists r :: Holds(s.readers, r))
    && (forall r, x :: Holds(s.readers, r) && Holds(s.readers, x) ==> r == x)
  }

  /** An open connection has a reader that will close it before it sweeps, or its creator is
      about to start one. */
  ghost predicate ConnOk(s: State) {
    s.conn == Open ==> (exists r :: WillClose(s.readers, r)) || exists c :: At(s.calls, c, Connected)
  }

  predicate Awaits(calls: seq<Call>, c: nat, pending: set<nat>) {
    (At(calls, c, Sent) || At(calls, c, Waiting)) && c in pending
  }

  /** A written call still in the map has a reader that has yet to sweep. */
  ghost predicate SweepOk(s: State) {
    forall c :: Awaits(s.calls, c, s.pending) ==> exists r :: WillSweep(s.readers, r)
  }

  ghost predicate ReadersOk(s: State) {
    HoldersOk(s) && ConnOk(s) && SweepOk(s)
  }

  ghost predicate Safe(s: State) {
    CallsOk(s) && WriterOk(s) && RestsOk(s) && ReadersOk(s)
  }

  // ---- every event keeps it -----------------------------------------------------------

  lemma {:induction false} CallKeptSending(s: State, e: Event, c: nat)
    requires c < |s.calls| && CallOk(s.calls[c], c, c in s.pending, s.seen) && Sending(e)
    ensures var t := Step(s, e); c < |t.calls| && CallOk(t.calls[c], c, c in t.pending, t.seen)
  {
    var t := Step(s, e);
    assert t.pending == s.pending && t.seen == s.seen;
    assert t.calls[c] == s.calls[c].(phase := t.calls[c].phase);
  }

  lemma {:induction false} CallKeptOther(s: State, e: Event, c: nat)
    requires c < |s.calls| && CallOk(s.calls[c], c, c in s.pending, s.seen) && !ByReader(e) && !Sending(e)
    ensures var t := Step(s, e); c < |t.calls| && CallOk(t.calls[c], c, c in t.pending, t.seen)
  {
  }

  lemma {:induction false} CallKeptByReader(s: State, e: Event, c: nat)
    requires c < |s.calls| && CallOk(s.calls[c], c, c in s.pending, s.seen) && RestsOk(s) && ByReader(e)
    ensures var t := Step(s, e); c < |t.calls| && CallOk(t.calls[c], c, c in t.pending, t.seen)
  {
    assert e.FailOne? ==> InRest(s.readers, e.r, e.c) || Step(s, e) == s;
  }

  lemma {:induction false} CallsKept(s: State, e: Event)
    requires CallsOk(s) && RestsOk(s)
    ensures CallsOk(Step(s, e))
  {
    var t := Step(s, e);
    forall c: nat | c < |t.calls| ensures CallOk(t.calls[c], c, c in t.pending, t.seen) {
      if c < |s.calls| {
        if ByReader(e) {
          CallKeptByReader(s, e, c);
        } else if Sending(e) {
          CallKeptSending(s, e, c);
        } else {
          CallKeptOther(s, e, c);
        }
      }
    }
  }

  /** Steps that are not the writer's own leave the lock alone and no phase enters or leaves it. */
  lemma {:induction false} WriterUntouched(s: State, e: Event, c: nat)
    requires !Sending(e) && c < |Step(s, e).calls|
    requires c < |s.calls|
    ensures Writes(Step(s, e).calls[c].phase) == Writes(s.calls[c].phase)
  {
  }

  lemma {:induction false} WriterKeptSending(s: State, e: Event)
    requires WriterOk(s) && Sending(e)
    ensures WriterOk(Step(s, e))
  {
    var t := Step(s, e);
    forall c: nat | c < |t.calls| ensures c in t.writer <==> Writes(t.calls[c].phase) {
      assert c in s.writer <==> Writes(s.calls[c].phase);
    }
  }

  lemma {:induction false} WriterSame(s: State, e: Event)
    requires !Sending(e)
    ensures Step(s, e).writer == s.writer && |s.calls| <= |Step(s, e).calls|
    ensures forall c :: |s.calls| <= c < |Step(s, e).calls| ==> Step(s, e).calls[c].phase == New
  {
  }

  lemma {:induction false} WriterKept(s: State, e: Event)
    requires WriterOk(s)
    ensures WriterOk(Step(s, e))
  {
    if Sending(e) {
      WriterKeptSending(s, e);
    } else {
      WriterSame(s, e);
      forall c: nat | c < |s.calls| ensures Writes(Step(s, e).calls[c].phase) == Writes(s.calls[c].phase) {
        WriterUntouched(s, e, c);
      }
    }
  }

  lemma {:induction false} RestsKept(s: State, e: Event)
    requires CallsOk(s) && RestsOk(s)
    ensures RestsOk(Step(s, e))
  {
    var t := Step(s, e);
    forall r: nat, c: nat | InRest(t.readers, r, c)
      ensures c < |t.calls| && t.calls[c].exits == [Shutdown] && !t.calls[c].done
    {
      RestKept(s, e, r, c);
    }
    forall r: nat, x: nat, c: nat | InRest(t.readers, r, c) && InRest(t.readers, x, c) ensures r == x {
      RestKept(s, e, r, c);
      RestKept(s, e, x, c);
    }
    forall c: nat | c < |t.calls| && t.calls[c].exits == [Shutdown] && !t.calls[c].done
      ensures exists r :: InRest(t.readers, r, c)
    {
      ShutdownHeld(s, e, c);
    }
  }

  /** A sweeper only gets calls by the swap. */
  lemma {:induction false} RestFrom(s: State, e: Event, r: nat, c: nat)
    requires InRest(Step(s, e).readers, r, c)
    ensures InRest(s.readers, r, c) || (e.Swap? && e.r == r && c in s.pending)
    ensures e.FailOne? && e.c == c && Step(s, e) != s ==> e.r != r
  {
  }

  /** Only its own sweeper touches a call that was taken. */
  lemma {:induction false} TakenUntouched(s: State, e: Event, c: nat)
    requires c < |s.calls| && c !in s.pending && !(e.FailOne? && e.c == c)
    ensures c < |Step(s, e).calls|
    ensures Step(s, e).calls[c].exits == s.calls[c].exits && Step(s, e).calls[c].done == s.calls[c].done
    ensures Step(s, e).calls[c].wakes == s.calls[c].wakes
  {
    if ByReader(e) {
      TakenUnread(s, e, c);
    }
  }

  lemma {:induction false} TakenUnread(s: State, e: Event, c: nat)
    requires c < |s.calls| && c !in s.pending && !(e.FailOne? && e.c == c) && ByReader(e)
    ensures c < |ReaderStep(s, e).calls| && ReaderStep(s, e).calls[c] == s.calls[c]
  {
  }

  lemma {:induction false} RestKept(s: State, e: Event, r: nat, c: nat)
    requires CallsOk(s) && RestsOk(s) && InRest(Step(s, e).readers, r, c)
    ensures InRest(s.readers, r, c) || (e.Swap? && e.r == r && c in s.pending)
    ensures var t := Step(s, e); c < |t.calls| && t.calls[c].exits == [Shutdown] && !t.calls[c].done
  {
    RestFrom(s, e, r, c);
    assert CallOk(s.calls[c], c, c in s.pending, s.seen);
    if InRest(s.readers, r, c) {
      assert c !in s.pending;
      if e.FailOne? && e.c == c {
        assert InRest(s.readers, e.r, c) ==> e.r == r;
        assert Step(s, e) == s;
      } else {
        TakenUntouched(s, e, c);
      }
    }
  }

  lemma {:induction false} RestStays(s: State, e: Event, r: nat, c: nat)
    requires CallsOk(s) && InRest(s.readers, r, c)
    requires c < |Step(s, e).calls| && !Step(s, e).calls[c].done
    ensures InRest(Step(s, e).readers, r, c)
  {
  }

  lemma {:induction false} ShutdownUnread(s: State, e: Event, c: nat)
    requires ByReader(e) && !(e.Swap? && c in s.pending)
    requires var k := ReaderStep(s, e).calls;
             c < |k| && k[c].exits != [] && k[c].exits[|k[c].exits| - 1] == Shutdown && !k[c].done
    ensures c < |s.calls| && s.calls[c].exits == ReaderStep(s, e).calls[c].exits && !s.calls[c].done
  {
  }

  lemma {:induction false} ShutdownUnsent(s: State, e: Event, c: nat)
    requires !ByReader(e)
    requires var k := Step(s, e).calls;
             c < |k| && k[c].exits != [] && k[c].exits[|k[c].exits| - 1] == Shutdown && !k[c].done
    ensures c < |s.calls| && s.calls[c].exits == Step(s, e).calls[c].exits && !s.calls[c].done
  {
  }

  lemma {:induction false} ShutdownBefore(s: State, e: Event, c: nat)
    requires CallsOk(s) && !(e.Swap? && c in s.pending)
    requires c < |Step(s, e).calls| && Step(s, e).calls[c].exits == [Shutdown] && !Step(s, e).calls[c].done
    ensures c < |s.calls| && s.calls[c].exits == [Shutdown] && !s.calls[c].done
  {
    var k := Step(s, e).calls[c].exits;
    assert k[|k| - 1] == Shutdown;
    if ByReader(e) {
      ShutdownUnread(s, e, c);
    } else {
      ShutdownUnsent(s, e, c);
    }
  }

  lemma {:induction false} ShutdownHeld(s: State, e: Event, c: nat)
    requires CallsOk(s) && RestsOk(s)
    requires c < |Step(s, e).calls| && Step(s, e).calls[c].exits == [Shutdown] && !Step(s, e).calls[c].done
    ensures exists r :: InRest(Step(s, e).readers, r, c)
  {
    if e.Swap? && c in s.pending {
      assert CallOk(s.calls[c], c, true, s.seen);
      assert InRest(Step(s, e).readers, e.r, c);
    } else {
      ShutdownBefore(s, e, c);
      var r :| InRest(s.readers, r, c);
      RestStays(s, e, r, c);
    }
  }

  lemma {:induction false} HoldersKept(s: State, e: Event)
    requires HoldersOk(s)
    ensures HoldersOk(Step(s, e))
  {
    var t := Step(s, e);
    if e.StartReader? && t.readers != s.readers {
      assert Holds(t.readers, |s.readers|);
      forall r: nat | r != |s.readers| ensures !Holds(t.readers, r) {
        assert Holds(t.readers, r) ==> Holds(s.readers, r);
      }
    } else if e.DropFlag? && t.readers != s.readers {
      assert Holds(s.readers, e.r);
      forall r: nat ensures !Holds(t.readers, r) {
        assert r != e.r ==> (Holds(t.readers, r) ==> Holds(s.readers, r));
      }
    } else {
      assert forall r: nat :: Holds(t.readers, r) <==> Holds(s.readers, r);
    }
  }

  /** A reader stops being about to close only by closing. */
  lemma {:induction false} CloserKept(s: State, e: Event, r: nat)
    requires WillClose(s.readers, r) && Step(s, e).conn == Open
    ensures WillClose(Step(s, e).readers, r)
  {
  }

  lemma {:induction false} CreatorKept(s: State, e: Event, c: nat)
    requires At(s.calls, c, Connected) && e != StartReader(c)
    ensures At(Step(s, e).calls, c, Connected)
  {
  }

  lemma {:induction false} Opened(s: State, e: Event)
    requires s.conn != Open && Step(s, e).conn == Open
    ensures e.CheckConn? && At(Step(s, e).calls, e.c, Connected)
  {
  }

  lemma {:induction false} ConnKept(s: State, e: Event)
    requires HoldersOk(s) && ConnOk(s)
    ensures ConnOk(Step(s, e))
  {
    var t := Step(s, e);
    if t.conn == Open {
      if s.conn != Open {
        Opened(s, e);
      } else if r: nat :| WillClose(s.readers, r) {
        CloserKept(s, e, r);
      } else {
        var c: nat :| At(s.calls, c, Connected);
        if e == StartReader(c) {
          HoldersKept(s, e);
          assert t.running;
          var r: nat :| Holds(t.readers, r);
          assert WillClose(t.readers, r);
        } else {
          CreatorKept(s, e, c);
        }
      }
    }
  }

  lemma {:induction false} SweeperKept(s: State, e: Event, r: nat, c: nat)
    requires WillSweep(s.readers, r) && c in Step(s, e).pending
    ensures WillSweep(Step(s, e).readers, r)
  {
  }

  /** While a call is writing no other call is creating a connection. */
  lemma {:induction false} OneWriter(s: State, c: nat, d: nat)
    requires WriterOk(s) && At(s.calls, c, Inserted)
    ensures !At(s.calls, d, Connected)
  {
    if d < |s.calls| {
      assert c in s.writer <==> Writes(s.calls[c].phase);
      assert d in s.writer <==> Writes(s.calls[d].phase);
    }
  }

  lemma {:induction false} SweepKept(s: State, e: Event, c: nat)
    requires CallsOk(s) && WriterOk(s) && ConnOk(s) && SweepOk(s)
    requires Awaits(Step(s, e).calls, c, Step(s, e).pending)
    ensures exists r :: WillSweep(Step(s, e).readers, r)
  {
    SentBefore(s, e, c);
    if !Awaits(s.calls, c, s.pending) {
      forall d: nat ensures !At(s.calls, d, Connected) {
        OneWriter(s, c, d);
      }
      var r: nat :| WillClose(s.readers, r);
      assert WillSweep(s.readers, r);
      SweeperKept(s, e, r, c);
    } else {
      var r: nat :| WillSweep(s.readers, r);
      SweeperKept(s, e, r, c);
    }
  }

  lemma {:induction false} SentBeforeSending(s: State, e: Event, c: nat)
    requires Sending(e) && Awaits(SendStep(s, e).calls, c, SendStep(s, e).pending)
    ensures Awaits(s.calls, c, s.pending) || (e == WriteOk(c) && At(s.calls, c, Inserted) && s.conn == Open)
  {
  }

  lemma {:induction false} SentBeforeReading(s: State, e: Event, c: nat)
    requires ByReader(e) && Awaits(ReaderStep(s, e).calls, c, ReaderStep(s, e).pending)
    ensures Awaits(s.calls, c, s.pending)
  {
  }

  lemma {:induction false} SentBefore(s: State, e: Event, c: nat)
    requires CallsOk(s) && Awaits(Step(s, e).calls, c, Step(s, e).pending)
    ensures Awaits(s.calls, c, s.pending) || (e == WriteOk(c) && At(s.calls, c, Inserted) && s.conn == Open)
  {
    if Sending(e) {
      SentBeforeSending(s, e, c);
    } else if ByReader(e) {
      SentBeforeReading(s, e, c);
    }
  }

  lemma {:induction false} ReadersKept(s: State, e: Event)
    requires Safe(s)
    ensures ReadersOk(Step(s, e))
  {
    var t := Step(s, e);
    HoldersKept(s, e);
    ConnKept(s, e);
    forall c: nat | Awaits(t.calls, c, t.pending) ensures exists r :: WillSweep(t.readers, r) {
      SweepKept(s, e, c);
    }
  }

  lemma {:induction false} StepKeepsSafe(s: State, e: Event)
    requires Safe(s)
    ensures Safe(Step(s, e))
  {
    CallsKept(s, e);
    WriterKept(s, e);
    RestsKept(s, e);
    ReadersKept(s, e);
  }

  // ---- whole runs ---------------------------------------------------------------------

  lemma {:induction false} RunIsSafe(es: seq<Event>)
    ensures Safe(Run(es))
    decreases |es|
  {
    if es != [] {
      RunIsSafe(es[..|es| - 1]);
      StepKeepsSafe(Run(es[..|es| - 1]), es[|es| - 1]);
    }
  }

  /** A call has left the map by the time it returns. */
  predicate LeftByReturn(k: Call) {
    k.inserted && k.phase == Gone ==> k.exits != []
  }

  ghost predicate AllLeft(s: State) {
    forall c: nat :: c < |s.calls| ==> LeftByReturn(s.calls[c])
  }

  lemma {:induction false} LeftKept(s: State, e: Event, c: nat)
    requires CallsOk(s) && RestsOk(s) && AllLeft(s) && !e.Foreign? && c < |s.calls|
    ensures c < |Step(s, e).calls| && LeftByReturn(Step(s, e).calls[c])
  {
    assert CallOk(s.calls[c], c, c in s.pending, s.seen);
    assert LeftByReturn(s.calls[c]);
    if ByReader(e) {
      ReaderKeepsPhase(s, e, c);
    } else if Sending(e) {
      SendKeepsExits(s, e, c);
    }
  }

  /** A reader neither moves nor inserts a caller. */
  lemma {:induction false} ReaderKeepsPhase(s: State, e: Event, c: nat)
    requires ByReader(e) && c < |s.calls|
    ensures var t := Step(s, e);
            && c < |t.calls| && t.calls[c].phase == s.calls[c].phase && t.calls[c].inserted == s.calls[c].inserted
            && (s.calls[c].exits != [] ==> t.calls[c].exits != [])
  {
  }

  lemma {:induction false} SendKeepsExits(s: State, e: Event, c: nat)
    requires Sending(e) && c < |s.calls| && CallOk(s.calls[c], c, c in s.pending, s.seen)
    ensures var t := Step(s, e);
            && c < |t.calls| && t.calls[c].exits == s.calls[c].exits && t.calls[c].inserted == s.calls[c].inserted
            && (t.calls[c].phase == Gone ==> s.calls[c].phase == Gone || !s.calls[c].inserted)
  {
  }

  lemma {:induction false} StepLeavesByReturn(s: State, e: Event)
    requires CallsOk(s) && RestsOk(s) && AllLeft(s) && !e.Foreign?
    ensures AllLeft(Step(s, e))
  {
    forall c: nat | c < |Step(s, e).calls| ensures LeftByReturn(Step(s, e).calls[c]) {
      if c < |s.calls| { LeftKept(s, e, c); }
    }
  }

  predicate Undisturbed(es: seq<Event>) {
    forall i :: 0 <= i < |es| ==> !es[i].Foreign?
  }

  lemma {:induction false} RunLeavesByReturn(es: seq<Event>)
    requires Undisturbed(es)
    ensures AllLeft(Run(es))
    decreases |es|
  {
    if es != [] {
      RunIsSafe(es[..|es| - 1]);
      RunLeavesByReturn(es[..|es| - 1]);
      StepLeavesByReturn(Run(es[..|es| - 1]), es[|es| - 1]);
    }
  }

  /** Over any run a call leaves the map at most once and for one reason, and it is in the map exactly
      between its insertion and that exit.  At most one wake is issued, by a response, a timeout or a
      shutdown and never by a send failure.  If nothing else resumes a parked caller, a call that was
      inserted has left exactly once by its return. */
  lemma {:induction false} LeavesExactlyOnce(es: seq<Event>, c: nat)
    requires c < |Run(es).calls|
    ensures var k := Run(es).calls[c];
            && |k.exits| <= 1 && k.wakes <= 1
            && (c in Run(es).pending <==> k.inserted && k.exits == [])
            && (Undisturbed(es) && k.inserted && k.phase == Gone ==> |k.exits| == 1)
            && (k.wakes == 1 ==> k.exits != [] && !k.exits[0].SendFailed?)
            && (k.exits != [] && (k.exits[0].Response? || k.exits[0].TimedOut?) ==> k.wakes == 1)
  {
    RunIsSafe(es);
    if Undisturbed(es) { RunLeavesByReturn(es); }
    assert CallOk(Run(es).calls[c], c, c in Run(es).pending, Run(es).seen);
  }

  lemma {:induction false} ExitKept(s: State, e: Event, c: nat)
    requires Safe(s) && c < |s.calls| && s.calls[c].exits != []
    ensures c < |Step(s, e).calls|
    ensures Step(s, e).calls[c].exits == s.calls[c].exits
    ensures s.calls[c].wakes == 1 ==> Step(s, e).calls[c].wakes == 1
  {
    assert CallOk(s.calls[c], c, c in s.pending, s.seen);
    assert c !in s.pending;
    if e.FailOne? && e.c == c {
      assert Step(s, e) != s ==> InRest(s.readers, e.r, c);
    } else {
      TakenUntouched(s, e, c);
    }
  }

  lemma {:induction false} RunSnoc(es: seq<Event>, e: Event)
    ensures Run(es + [e]) == Step(Run(es), e)
  {
    assert (es + [e])[..|es|] == es;
  }

  /** Call c has left the map for the reason `why`; `woken` says whether it must have been woken. */
  ghost predicate Settled(s: State, c: nat, why: seq<Exit>, woken: bool) {
    c < |s.calls| && s.calls[c].exits == why && (woken ==> s.calls[c].wakes == 1)
  }

  lemma {:induction false} SettledKept(es: seq<Event>, e: Event, c: nat, why: seq<Exit>, woken: bool)
    requires Settled(Run(es), c, why, woken) && why != []
    ensures Settled(Run(es + [e]), c, why, woken)
  {
    RunIsSafe(es);
    RunSnoc(es, e);
    ExitKept(Run(es), e, c);
  }

  /** The reason is final: no continuation changes it, and none wakes a woken call again. */
  lemma {:induction false} ExitIsFinal(es: seq<Event>, later: seq<Event>, c: nat, why: seq<Exit>, woken: bool)
    requires Settled(Run(es), c, why, woken) && why != []
    ensures Settled(Run(es + later), c, why, woken)
    decreases |later|
  {
    if later == [] {
      assert es + later == es;
    } else {
      var n := |later| - 1;
      ExitIsFinal(es, later[..n], c, why, woken);
      SettledKept(es + later[..n], later[n], c, why, woken);
      assert es + later == es + later[..n] + [later[n]];
    }
  }

  /** A call completed by a response was completed by a frame carrying its own id, whatever ids
      the peer puts on its frames. */
  lemma {:induction false} ResponseMatchesCall(es: seq<Event>, c: nat)
    requires c < |Run(es).calls| && Run(es).calls[c].exits != [] && Run(es).calls[c].exits[0].Response?
    ensures var k := Run(es).calls[c].exits[0].frame;
            k < |Run(es).seen| && Run(es).seen[k].id == c
  {
    RunIsSafe(es);
    assert CallOk(Run(es).calls[c], c, c in Run(es).pending, Run(es).seen);
  }

  /** A fully written call that has not been woken is either in the map, with a reader that has
      yet to sweep it, or already in the hands of a sweeping reader. */
  lemma {:induction false} NeverStranded(es: seq<Event>, c: nat)
    requires At(Run(es).calls, c, Sent) || At(Run(es).calls, c, Waiting)
    requires Run(es).calls[c].wakes == 0
    ensures var s := Run(es);
            || (c in s.pending && exists r :: WillSweep(s.readers, r))
            || (exists r :: InRest(s.readers, r, c))
  {
    RunIsSafe(es);
    var s := Run(es);
    assert CallOk(s.calls[c], c, c in s.pending, s.seen);
    if c in s.pending {
      assert Awaits(s.calls, c, s.pending);
    } else {
      assert s.calls[c].exits == [Shutdown];
    }
  }

  /** A finite continuation of a run. */
  function Continue(s: State, es: seq<Event>): State
    decreases |es|
  {
    if es == [] then s else Continue(Step(s, es[0]), es[1..])
  }

  /** Whatever the peer does, a reader can leave its loop and reach the sweep. */
  lemma {:induction false} ReaderReachesSweep(s: State, r: nat)
    requires WillSweep(s.readers, r)
    ensures var t := Step(Step(Step(s, Break(r)), DropFlag(r)), CloseConn(r));
            t.pending == s.pending && t.calls == s.calls && Is(t.readers, r, Closing)
  {
    var s1 := Step(s, Break(r));
    assert s1.readers == s.readers || s1.readers == s.readers[r := Leaving];
    var s2 := Step(s1, DropFlag(r));
    assert s2.readers == s1.readers || s2.readers == s1.readers[r := Flagged];
  }

  lemma {:induction false} SwapTakes(s: State, r: nat, c: nat)
    requires Is(s.readers, r, Closing) && c in s.pending && c < |s.calls|
    ensures var t := Step(s, Swap(r));
            InRest(t.readers, r, c) && c < |t.calls| && t.calls[c].done == s.calls[c].done
                                    && t.calls[c].wakes == s.calls[c].wakes
  {
  }

  predicate Completed(s: State, c: nat) {
    c < |s.calls| && s.calls[c].done && s.calls[c].wakes == 1
  }

  lemma {:induction false} FailOneWakes(s: State, r: nat, c: nat)
    requires InRest(s.readers, r, c) && c < |s.calls| && !s.calls[c].done && s.calls[c].wakes == 0
    ensures Completed(Step(s, FailOne(r, c)), c)
  {
  }

  /** A step of reader r's own code. */
  predicate OfReader(e: Event, r: nat) {
    ByReader(e) && e.r == r
  }

  /** The steps es of reader r, and of nobody else, wake the call. */
  ghost predicate Wakes(s: State, es: seq<Event>, r: nat, c: nat) {
    (forall i :: 0 <= i < |es| ==> OfReader(es[i], r)) && Completed(Continue(s, es), c)
  }

  ghost predicate WokenBy(s: State, r: nat, c: nat, n: nat) {
    exists es :: |es| <= n && Wakes(s, es, r, c)
  }

  lemma {:induction false} ContinueCons(s: State, e: Event, es: seq<Event>)
    ensures Continue(s, [e] + es) == Continue(Step(s, e), es)
  {
    assert ([e] + es)[1..] == es;
  }

  lemma {:induction false} WakesCons(s: State, e: Event, es: seq<Event>, r: nat, c: nat)
    requires Wakes(Step(s, e), es, r, c) && OfReader(e, r)
    ensures Wakes(s, [e] + es, r, c)
  {
    ContinueCons(s, e, es);
  }

  lemma {:induction false} OneMore(s: State, e: Event, r: nat, c: nat, n: nat)
    requires WokenBy(Step(s, e), r, c, n) && OfReader(e, r)
    ensures WokenBy(s, r, c, n + 1)
  {
    var es :| |es| <= n && Wakes(Step(s, e), es, r, c);
    WakesCons(s, e, es, r, c);
    assert |[e] + es| <= n + 1;
  }

  /** From every reachable state some one reader can wake a parked call by its own steps alone, with no
      timer, response or other caller needed. */
  lemma {:induction false} ParkedCallCanAlwaysBeWoken(es: seq<Event>, c: nat)
    requires At(Run(es).calls, c, Waiting) && Run(es).calls[c].wakes == 0
    ensures exists r: nat :: WokenBy(Run(es), r, c, 5)
  {
    NeverStranded(es, c);
    RunIsSafe(es);
    var s := Run(es);
    assert CallOk(s.calls[c], c, c in s.pending, s.seen);
    if c in s.pending {
      var r: nat :| WillSweep(s.readers, r);
      WokenBySweep(s, r, c);
    } else {
      var r: nat :| InRest(s.readers, r, c);
      WokenByFail(s, r, c);
      assert WokenBy(s, r, c, 1);
      assert WokenBy(s, r, c, 5);
    }
  }

  lemma {:induction false} WokenByFail(s: State, r: nat, c: nat)
    requires InRest(s.readers, r, c) && c < |s.calls| && !s.calls[c].done && s.calls[c].wakes == 0
    ensures WokenBy(s, r, c, 1)
  {
    FailOneWakes(s, r, c);
    var none: seq<Event> := [];
    assert Wakes(Step(s, FailOne(r, c)), none, r, c);
    OneMore(s, FailOne(r, c), r, c, 0);
  }

  lemma {:induction false} WokenBySweep(s: State, r: nat, c: nat)
    requires WillSweep(s.readers, r) && c in s.pending && c < |s.calls|
    requires !s.calls[c].done && s.calls[c].wakes == 0
    ensures WokenBy(s, r, c, 5)
  {
    ReaderReachesSweep(s, r);
    var s3 := Step(Step(Step(s, Break(r)), DropFlag(r)), CloseConn(r));
    SwapTakes(s3, r, c);
    WokenByFail(Step(s3, Swap(r)), r, c);
    OneMore(s3, Swap(r), r, c, 1);
    OneMore(Step(Step(s, Break(r)), DropFlag(r)), CloseConn(r), r, c, 2);
    OneMore(Step(s, Break(r)), DropFlag(r), r, c, 3);
    OneMore(s, Break(r), r, c, 4);
  }

  // ---- a resume that outlives its call ------------------------------------------------

  /** The caller has failed to send and is about to return without waiting for the resume that a reader has
      queued for its fiber, which can then reach the fiber wherever it waits next. */
  predicate ResumeOutlives(s: State, c: nat) {
    At(s.calls, c, Unsent) && s.calls[c].wakes == 1
  }

  lemma {:induction false} Then(es: seq<Event>, e: Event) returns (fs: seq<Event>)
    ensures fs == es + [e] && Run(fs) == Step(Run(es), e)
  {
    fs := es + [e];
    RunSnoc(es, e);
  }

  /** One caller, inserted and writing, and the reader it has started. */
  predicate Writing(s: State) {
    && s.calls == [Call(Inserted, true, [], false, 0)] && s.pending == {0} && s.writer == {0}
    && s.conn == Open && s.running && s.readers == [Looping]
  }

  lemma {:induction false} ReachWriting() returns (es: seq<Event>)
    ensures Writing(Run(es))
  {
    es := [];
    es := Then(es, Begin);
    es := Then(es, LockWrite(0));
    assert Run(es) == INIT.(calls := [Call(Locked, false, [], false, 0)], writer := {0});
    es := Then(es, CheckConn(0, true));
    es := Then(es, StartReader(0));
    es := Then(es, Insert(0));
  }

  lemma {:induction false} TakesTheOne(calls: seq<Call>, pending: set<nat>)
    requires calls == [Call(Inserted, true, [], false, 0)] && pending == {0}
    ensures TakeAll(calls, pending) == [Call(Inserted, true, [Shutdown], false, 0)]
  {
    assert Leave(calls[0], Shutdown) == Call(Inserted, true, [Shutdown], false, 0);
  }

  lemma {:induction false} ReaderCloses(es: seq<Event>) returns (fs: seq<Event>)
    requires Writing(Run(es))
    ensures Run(fs).calls == [Call(Inserted, true, [], false, 0)] && Run(fs).pending == {0}
    ensures Run(fs).readers == [Closing]
  {
    fs := Then(es, Break(0));
    fs := Then(fs, DropFlag(0));
    fs := Then(fs, CloseConn(0));
  }

  lemma {:induction false} SweepWhileWriting(es: seq<Event>) returns (fs: seq<Event>)
    requires Writing(Run(es))
    ensures Run(fs).calls == [Call(Inserted, true, [Shutdown], true, 1)]
  {
    fs := ReaderCloses(es);
    TakesTheOne(Run(fs).calls, Run(fs).pending);
    fs := Then(fs, Swap(0));
    assert Run(fs).calls == [Call(Inserted, true, [Shutdown], false, 0)] && Run(fs).readers == [Sweeping({0})];
    fs := Then(fs, FailOne(0, 0));
  }

  /** The reader closes the connection, takes the call and queues its resume while the caller is still
      writing; the write fails and the call returns. */
  lemma {:induction false} ResumeCanOutliveItsCall()
    ensures exists es :: ResumeOutlives(Run(es), 0)
  {
    var es := ReachWriting();
    es := SweepWhileWriting(es);
    es := Then(es, WriteFail(0));
    es := Then(es, Release(0));
    assert ResumeOutlives(Run(es), 0);
  }

  /** A parked caller that something else resumes returns although its call is still in the map. */
  lemma {:induction false} ForeignResumeAbandonsTheCall()
    ensures exists es :: !AllLeft(Run(es))
  {
    var es := ReachWriting();
    es := Then(es, WriteOk(0));
    es := Then(es, Release(0));
    assert Run(es).calls == [Call(Waiting, true, [], false, 0)];
    es := Then(es, Foreign(0));
    assert !LeftByReturn(Run(es).calls[0]);
  }

  ghost predicate AlwaysLeave(foreign: bool) {
    forall es :: foreign || Undisturbed(es) ==> AllLeft(Run(es))
  }

  /** Every call has left the map by its return in every run exactly when nothing else resumes a parked
      caller. */
  lemma {:induction false} LeavesByReturnIffUndisturbed(foreign: bool)
    ensures AlwaysLeave(foreign) <==> !foreign
  {
    if foreign {
      ForeignResumeAbandonsTheCall();
    } else {
      forall es | Undisturbed(es) ensures AllLeft(Run(es)) {
        RunLeavesByReturn(es);
      }
    }
  }

  // ---- the object ---------------------------------------------------------------------

  class MuxChannel {
    var calls: seq<Call>
    var pending: set<nat>
    var writer: set<nat>
    var conn: Conn
    var running: bool
    var readers: seq<Reader>
    var seen: seq<Frame>

    ghost function View(): State
      reads this
    {
      State(calls, pending, writer, conn, running, readers, seen)
    }

    ghost predicate Valid()
      reads this
    {
      Safe(View())
    }

    constructor ()
      ensures View() == INIT && Valid()
    {
      calls, pending, writer, conn, running, readers := [], {}, {}, NoConn, false, [];
      seen := [];
    }

    /** Insertion comes before the write: from here until it leaves, exactly once, the call is found by
        a response, its timer or a sweep. */
    method InsertCall(c: nat)
      requires Valid() && At(calls, c, Ready)
      modifies this
      ensures Valid() && View() == Step(old(View()), Insert(c))
      ensures pending == old(pending) + {c} && c !in old(pending)
      ensures calls[c].exits == [] && calls[c].wakes == 0
    {
      ghost var v := View();
      ReadyIsNew(v, c);
      pending := pending + {c};
      calls := calls[c := calls[c].(phase := Inserted, inserted := true)];
      assert View() == Step(v, Insert(c));
      StepKeepsSafe(v, Insert(c));
    }

    method EraseUnsentCall(c: nat)
      requires Valid() && At(calls, c, Unsent)
      modifies this
      ensures Valid() && View() == Step(old(View()), EraseUnsent(c)) && c !in pending
    {
      ghost var v := View();
      if c in pending {
        pending := pending - {c};
        calls := calls[c := Leave(calls[c], SendFailed).(phase := Gone)];
      } else {
        calls := calls[c := calls[c].(phase := Gone)];
      }
      assert View() == Step(v, EraseUnsent(c));
      StepKeepsSafe(v, EraseUnsent(c));
    }

    /** The timer callback, which may run after the call has returned: it wakes the call only if it
        still found it in the map. */
    method OnTimer(c: nat) returns (needWake: bool)
      requires Valid() && (At(calls, c, Waiting) || (At(calls, c, Gone) && calls[c].inserted))
      modifies this
      ensures Valid() && View() == Step(old(View()), Timer(c)) && needWake == old(c in pending)
      ensures old(At(calls, c, Gone) && calls[c].exits != []) ==> !needWake && View() == old(View())
      ensures needWake ==> calls[c].exits == [TimedOut] && calls[c].wakes == 1
    {
      ghost var v := View();
      assert CallOk(calls[c], c, c in pending, seen);
      needWake := c in pending;
      if needWake {
        pending := pending - {c};
        calls := calls[c := Woken(Leave(calls[c], TimedOut))];
      }
      assert View() == Step(v, Timer(c));
      StepKeepsSafe(v, Timer(c));
    }

    /** One response frame read by a looping reader. */
    method OnFrame(r: nat, f: Frame) returns (matched: bool)
      requires Valid() && Is(readers, r, Looping)
      modifies this
      ensures Valid() && View() == Step(old(View()), Read(r, f)) && matched == old(f.id in pending)
    {
      ghost var v := View();
      matched := f.id in pending;
      if matched {
        pending := pending - {f.id};
        calls := calls[f.id := Woken(Leave(calls[f.id], Response(|seen|)))];
      }
      seen := seen + [f];
      assert View() == Step(v, Read(r, f));
      StepKeepsSafe(v, Read(r, f));
    }

    /** The flag had one owner: afterwards nobody owns it, so the next call that connects starts a
        reader of its own. */
    method DropReaderFlag(r: nat)
      requires Valid() && Is(readers, r, Leaving)
      modifies this
      ensures Valid() && View() == Step(old(View()), DropFlag(r))
      ensures old(running) && !running && forall x :: !Holds(readers, x)
    {
      ghost var v := View();
      assert Holds(readers, r);
      running := false;
      readers := readers[r := Flagged];
      assert View() == Step(v, DropFlag(r));
      StepKeepsSafe(v, DropFlag(r));
    }

    method CloseCurrent(r: nat)
      requires Valid() && Is(readers, r, Flagged)
      modifies this
      ensures Valid() && View() == Step(old(View()), CloseConn(r)) && conn != Open
    {
      ghost var v := View();
      if conn == Open {
        conn := Closed;
      }
      readers := readers[r := Closing];
      assert View() == Step(v, CloseConn(r));
      StepKeepsSafe(v, CloseConn(r));
    }

    method SwapOut(r: nat)
      requires Valid() && Is(readers, r, Closing)
      modifies this
      ensures Valid() && View() == Step(old(View()), Swap(r)) && pending == {}
    {
      ghost var v := View();
      calls := TakeAll(calls, pending);
      readers := readers[r := Sweeping(pending)];
      pending := {};
      assert View() == Step(v, Swap(r));
      StepKeepsSafe(v, Swap(r));
    }

    /** The loop that fails the calls swapped out: each is woken exactly once, nobody else is. */
    method FailRemaining(r: nat)
      requires Valid() && r < |readers| && readers[r].Sweeping?
      modifies this
      ensures Valid() && readers == old(readers)[r := Finished] && |calls| == old(|calls|)
      ensures pending == old(pending) && conn == old(conn) && running == old(running)
      ensures forall c: nat :: c < |calls| ==>
                calls[c] == if c in old(readers[r].rest) then Woken(old(calls)[c]) else old(calls)[c]
    {
      calls := FailAll(View(), calls, readers[r].rest, r);
      readers := readers[r := Finished];
    }
  }

  /** The sweep of the calls `rest`, which reader r of s took. */
  method FailAll(ghost s: State, calls: seq<Call>, rest: set<nat>, ghost r: nat) returns (woken: seq<Call>)
    requires Safe(s) && s.calls == calls && Is(s.readers, r, Sweeping(rest))
    ensures |woken| == |calls| && Safe(Turn(s, r, Finished).(calls := woken))
    ensures forall c: nat :: c < |calls| ==> woken[c] == if c in rest then Woken(calls[c]) else calls[c]
  {
    woken := calls;
    var remaining := rest;
    SweepStart(s, r);
    while remaining != {}
      invariant Safe(Sweep(s, r, remaining, woken))
      invariant |woken| == |calls| && remaining <= rest
      invariant forall c: nat :: c < |calls| ==>
                  woken[c] == if c in rest && c !in remaining then Woken(calls[c]) else calls[c]
      decreases remaining
    {
      var c :| c in remaining;
      SweepOne(s, r, remaining, woken, c);
      if !woken[c].done {
        woken := woken[c := Woken(woken[c])];
      }
      remaining := remaining - {c};
    }
    SweepDone(s, r, woken);
  }

  /** Reader r of s has the calls `remaining` left to fail. */
  function Sweep(s: State, r: nat, remaining: set<nat>, calls: seq<Call>): State
    requires r < |s.readers|
  {
    s.(readers := s.readers[r := Sweeping(remaining)], calls := calls)
  }

  lemma {:induction false} SweepStart(s: State, r: nat)
    requires Safe(s) && r < |s.readers| && s.readers[r].Sweeping?
    ensures Safe(Sweep(s, r, s.readers[r].rest, s.calls))
  {
    assert Sweep(s, r, s.readers[r].rest, s.calls) == s by {
      assert s.readers[r := s.readers[r]] == s.readers;
    }
  }

  /** What a sweep holds is neither done nor out of range, so failing it always wakes it. */
  lemma {:induction false} SweepOne(s: State, r: nat, remaining: set<nat>, calls: seq<Call>, c: nat)
    requires r < |s.readers| && Safe(Sweep(s, r, remaining, calls)) && c in remaining
    ensures c < |calls| && !calls[c].done
    ensures Safe(Sweep(s, r, remaining - {c}, calls[c := Woken(calls[c])]))
  {
    var t := Sweep(s, r, remaining, calls);
    assert InRest(t.readers, r, c);
    StepKeepsSafe(t, FailOne(r, c));
    assert t.readers[r := Sweeping(remaining - {c})] == s.readers[r := Sweeping(remaining - {c})];
  }

  lemma {:induction false} SweepDone(s: State, r: nat, calls: seq<Call>)
    requires r < |s.readers| && Safe(Sweep(s, r, {}, calls))
    ensures Safe(Turn(s, r, Finished).(calls := calls))
  {
    var t := Sweep(s, r, {}, calls);
    StepKeepsSafe(t, Finish(r));
    assert t.readers[r := Finished] == s.readers[r := Finished];
  }

  lemma {:induction false} ReadyIsNew(s: State, c: nat)
    requires Safe(s) && At(s.calls, c, Ready)
    ensures c !in s.pending && s.calls[c].exits == [] && s.calls[c].wakes == 0
  {
    assert CallOk(s.calls[c], c, c in s.pending, s.seen);
  }
}
