/** A fiber waiting on a connection (src/net.cpp:40-51, 90-148) over the registration table of the
    I/O manager (src/iomanager.cpp:92-103, 158-310).  Readiness, Close and timer expiry race to wake
    the fiber.

    Each event is one critical section of the connection or of its FdContext, one compare-and-swap, or
    one call to the scheduler.  `Foreign` is a resume that was queued for the fiber elsewhere.  A
    connection has at most one reader and one writer at a time, the guard its callers keep; epoll_ctl
    succeeds. */
module ConnectionWaits {
  import opened Prelude

  datatype Ev = Read | Write

  /** The fiber inside `Wait`: still running, parked, or returned with its verdict. */
  datatype Fiber = Running | Parked | Returned(result: Result)
  datatype Result = Ready | TimedOut | Closed

  /** The timer callback: after `Won` it cancels the registration, then schedules the fiber. */
  datatype Timer = Unarmed | Armed | Won | Unregistered | Woke | Spent

  /** `queued` and `ran` count the readiness callback in the scheduler and after it ran. */
  datatype Wait = Wait(ev: Ev, fiber: Fiber, timer: Timer, outcome: nat, scheduled: nat, queued: nat, ran: nat)

  /** `read` and `write` name the wait registered for the event; `panicked` is the duplicate check
      in `addEvent`. */
  datatype State = State(closed: bool, read: Option<nat>, write: Option<nat>, pendingEvents: int,
                         waits: seq<Wait>, panicked: bool)

  datatype Event =
    | Begin(ev: Ev)
    | Arm(w: nat)
    | Park(w: nat)
    | Readiness(ev: Ev)
    | RunCallback(w: nat)
    | Expire(w: nat)
    | ExpireUnregister(w: nat)
    | ExpireSchedule(w: nat)
    | Close
    | Return(w: nat)
    | Foreign(w: nat)

  const INIT := State(false, None, None, 0, [], false)

  function Reg(s: State, ev: Ev): Option<nat> {
    if ev.Read? then s.read else s.write
  }

  function SetReg(s: State, ev: Ev, r: Option<nat>): State {
    if ev.Read? then s.(read := r) else s.(write := r)
  }

  predicate Active(x: Wait) {
    !x.fiber.Returned?
  }

  predicate Busy(s: State, ev: Ev) {
    exists w :: 0 <= w < |s.waits| && s.waits[w].ev == ev && Active(s.waits[w])
  }

  /** `triggerEvent` under the FdContext lock: the registration becomes a queued callback. */
  function Trigger(s: State, ev: Ev): State {
    match Reg(s, ev)
    case None => s
    case Some(w) =>
      if w < |s.waits|
      then SetReg(s, ev, None).(pendingEvents := s.pendingEvents - 1,
                                waits := s.waits[w := s.waits[w].(queued := s.waits[w].queued + 1)])
      else s
  }

  function BeginStep(s: State, ev: Ev): State {
    if s.closed || Busy(s, ev) then s
    else if Reg(s, ev).Some? then s.(panicked := true)
    else SetReg(s, ev, Some(|s.waits|)).(pendingEvents := s.pendingEvents + 1,
                                         waits := s.waits + [Wait(ev, Running, Unarmed, 0, 0, 0, 0)])
  }

  function CloseStep(s: State): State {
    if s.closed then s else Trigger(Trigger(s, Read), Write).(closed := true)
  }

  /** WaitState::Finish. */
  function Finish(x: Wait, value: nat): Wait {
    if x.outcome == 0 then x.(outcome := value, scheduled := x.scheduled + 1) else x
  }

  /** What Wait does after its yield. */
  function Leave(x: Wait, closed: bool): Wait {
    x.(fiber := Returned(if x.outcome == 2 then TimedOut else if closed then Closed else Ready),
       timer := if x.timer.Armed? then Spent else x.timer)
  }

  /** The steps that touch only one wait's own record. */
  function Own(x: Wait, e: Event, closed: bool): Wait {
    match e
    case Arm(_) => if x.fiber.Running? && x.timer.Unarmed? then x.(timer := Armed) else x
    case Park(_) => if x.fiber.Running? then x.(fiber := Parked) else x
    case RunCallback(_) =>
      if x.queued > 0 then Finish(x, 1).(queued := x.queued - 1, ran := x.ran + 1) else x
    case Expire(_) =>
      if !x.timer.Armed? then x
      else if x.outcome == 0 then x.(outcome := 2, timer := Won) else x.(timer := Spent)
    case ExpireSchedule(_) =>
      if x.timer.Unregistered? then x.(timer := Woke, scheduled := x.scheduled + 1) else x
    case Return(_) => if x.fiber.Parked? && x.scheduled > 0 then Leave(x, closed) else x
    case Foreign(_) => if x.fiber.Parked? then Leave(x, closed) else x
    case _ => x
  }

  /** The timer callback's critical section: cancelEvent unless the connection is closed. */
  function UnregisterStep(s: State, w: nat): State
    requires w < |s.waits|
  {
    if !s.waits[w].timer.Won? then s
    else
      var t := if s.closed then s else Trigger(s, s.waits[w].ev);
      if w < |t.waits| then t.(waits := t.waits[w := t.waits[w].(timer := Unregistered)]) else t
  }

  function Step(s: State, e: Event): State {
    match e
    case Begin(ev) => BeginStep(s, ev)
    case Readiness(ev) => Trigger(s, ev)
    case Close => CloseStep(s)
    case ExpireUnregister(w) => if w < |s.waits| then UnregisterStep(s, w) else s
    case _ => if e.w < |s.waits| then s.(waits := s.waits[e.w := Own(s.waits[e.w], e, s.closed)]) else s
  }

  function Run(es: seq<Event>): State {
    if es == [] then INIT else Step(Run(es[..|es| - 1]), es[|es| - 1])
  }

  // ----- what every step keeps

  /** One wait against whether it is registered: a single token moves from the table to the scheduler
      to the callback, and the outcome decides who schedules the fiber. */
  ghost predicate WaitOk(registered: bool, x: Wait) {
    && (if registered then 1 else 0) + x.queued + x.ran == 1
    && x.outcome <= 2
    && (x.outcome == 1 ==> x.ran == 1)
    && (x.ran == 1 ==> x.outcome != 0)
    && (x.outcome == 2 <==> x.timer.Won? || x.timer.Unregistered? || x.timer.Woke?)
    && x.scheduled == (if x.outcome == 1 || x.timer.Woke? then 1 else 0)
    && (x.timer.Unregistered? || x.timer.Woke? ==> !registered)
    && (x.fiber.Returned? ==> !x.timer.Armed? && (x.fiber.result.TimedOut? <==> x.outcome == 2))
  }

  ghost predicate Waits(s: State) {
    forall w :: 0 <= w < |s.waits| ==> WaitOk(Reg(s, s.waits[w].ev) == Some(w), s.waits[w])
  }

  ghost predicate RegOk(s: State, ev: Ev) {
    Reg(s, ev).Some? ==> Reg(s, ev).value < |s.waits| && s.waits[Reg(s, ev).value].ev == ev
  }

  /** At most one reader and one writer are active. */
  ghost predicate Single(waits: seq<Wait>) {
    forall v, w :: 0 <= v < w < |waits| && waits[v].ev == waits[w].ev ==> !Active(waits[v])
  }

  function Count(r: Option<nat>): nat { if r.Some? then 1 else 0 }

  ghost predicate Safe(s: State) {
    && Waits(s) && RegOk(s, Read) && RegOk(s, Write) && Single(s.waits)
    && s.pendingEvents == Count(s.read) + Count(s.write)
    && (s.closed ==> s.read.None? && s.write.None?)
  }

  lemma {:induction false} TriggerKeeps(s: State, ev: Ev)
    requires Safe(s)
    ensures Safe(Trigger(s, ev)) && Reg(Trigger(s, ev), ev).None?
    ensures |Trigger(s, ev).waits| == |s.waits|
  {
    assert RegOk(s, ev);
    if Reg(s, ev).Some? {
      var t, r := Trigger(s, ev), Reg(s, ev).value;
      forall w | 0 <= w < |t.waits| ensures WaitOk(Reg(t, t.waits[w].ev) == Some(w), t.waits[w]) {
        assert WaitOk(Reg(s, s.waits[w].ev) == Some(w), s.waits[w]);
      }
    }
  }

  /** What holds as long as nothing else resumes the fibers: a wait returns only after it was scheduled,
      and the duplicate check of addEvent has not failed. */
  ghost predicate Tight(s: State) {
    !s.panicked && forall w :: 0 <= w < |s.waits| && s.waits[w].fiber.Returned? ==> s.waits[w].scheduled == 1
  }

  /** A returned wait is then not registered, so with one reader and one writer the duplicate check cannot
      fail. */
  lemma {:induction false} FreeWhenIdle(s: State, ev: Ev)
    requires Safe(s) && Tight(s) && !Busy(s, ev)
    ensures Reg(s, ev).None?
  {
    assert RegOk(s, ev);
    forall w | 0 <= w < |s.waits| && s.waits[w].ev == ev ensures Reg(s, ev) != Some(w) {
      assert !Active(s.waits[w]);
      assert WaitOk(Reg(s, ev) == Some(w), s.waits[w]);
    }
  }

  lemma {:induction false} BeginKeeps(s: State, ev: Ev)
    requires Safe(s)
    ensures Safe(BeginStep(s, ev))
  {
    if !s.closed && !Busy(s, ev) && Reg(s, ev).None? {
      var t := BeginStep(s, ev);
      forall w | 0 <= w < |t.waits| ensures WaitOk(Reg(t, t.waits[w].ev) == Some(w), t.waits[w]) {
        if w < |s.waits| {
          assert t.waits[w] == s.waits[w];
          assert WaitOk(Reg(s, s.waits[w].ev) == Some(w), s.waits[w]);
        }
      }
      assert RegOk(s, Read) && RegOk(s, Write);
    }
  }

  lemma {:induction false} OwnKeeps(registered: bool, x: Wait, e: Event, closed: bool)
    requires WaitOk(registered, x)
    ensures var y := Own(x, e, closed);
            && WaitOk(registered, y) && y.ev == x.ev
            && (Active(y) ==> Active(x)) && x.scheduled <= y.scheduled
  {
  }

  /** Replacing one record by another that is in order keeps the rest. */
  lemma {:induction false} ReplaceKeeps(s: State, w: nat, y: Wait)
    requires Safe(s) && w < |s.waits| && y.ev == s.waits[w].ev && (Active(y) ==> Active(s.waits[w]))
    requires WaitOk(Reg(s, y.ev) == Some(w), y)
    ensures Safe(s.(waits := s.waits[w := y]))
  {
    var t := s.(waits := s.waits[w := y]);
    forall v | 0 <= v < |t.waits| ensures WaitOk(Reg(t, t.waits[v].ev) == Some(v), t.waits[v]) {
      assert WaitOk(Reg(s, s.waits[v].ev) == Some(v), s.waits[v]);
    }
    assert RegOk(s, Read) && RegOk(s, Write);
    assert RegOk(t, Read) && RegOk(t, Write);
  }

  lemma {:induction false} OwnStepKeeps(s: State, e: Event, w: nat)
    requires Safe(s) && w < |s.waits|
    ensures Safe(s.(waits := s.waits[w := Own(s.waits[w], e, s.closed)]))
  {
    var x := s.waits[w];
    assert WaitOk(Reg(s, x.ev) == Some(w), x);
    OwnKeeps(Reg(s, x.ev) == Some(w), x, e, s.closed);
    ReplaceKeeps(s, w, Own(x, e, s.closed));
  }

  lemma {:induction false} TriggerAt(s: State, ev: Ev, w: nat)
    requires Safe(s) && w < |s.waits|
    ensures var x, y := s.waits[w], Trigger(s, ev).waits[w];
            y == x || y == x.(queued := x.queued + 1)
  {
  }

  lemma {:induction false} UnregisterKeeps(s: State, w: nat)
    requires Safe(s) && w < |s.waits|
    ensures Safe(UnregisterStep(s, w))
  {
    if s.waits[w].timer.Won? {
      var ev := s.waits[w].ev;
      var t := if s.closed then s else Trigger(s, ev);
      TriggerKeeps(s, ev);
      TriggerAt(s, ev, w);
      assert WaitOk(Reg(t, t.waits[w].ev) == Some(w), t.waits[w]);
      ReplaceKeeps(t, w, t.waits[w].(timer := Unregistered));
    }
  }

  lemma {:induction false} StepKeepsSafe(s: State, e: Event)
    requires Safe(s)
    ensures Safe(Step(s, e))
  {
    match e
    case Begin(ev) => BeginKeeps(s, ev);
    case Readiness(ev) => TriggerKeeps(s, ev);
    case Close => CloseKeeps(s);
    case ExpireUnregister(w) => if w < |s.waits| { UnregisterKeeps(s, w); }
    case _ => if e.w < |s.waits| { OwnStepKeeps(s, e, e.w); }
  }

  lemma {:induction false} CloseKeeps(s: State)
    requires Safe(s)
    ensures Safe(CloseStep(s))
  {
    TriggerKeeps(s, Read);
    TriggerKeeps(Trigger(s, Read), Write);
  }

  lemma {:induction false} RunIsSafe(es: seq<Event>)
    ensures Safe(Run(es))
    decreases |es|
  {
    if es != [] {
      RunIsSafe(es[..|es| - 1]);
      StepKeepsSafe(Run(es[..|es| - 1]), es[|es| - 1]);
    }
  }

  lemma {:induction false} StepKeepsTight(s: State, e: Event)
    requires Safe(s) && Tight(s) && !e.Foreign?
    ensures Tight(Step(s, e))
  {
    if e.Begin? {
      if !Busy(s, e.ev) { FreeWhenIdle(s, e.ev); }
    } else if e.ExpireUnregister? || e.Readiness? || e.Close? {
      CallbacksOnly(s, e);
    } else if e.w < |s.waits| {
      var x := s.waits[e.w];
      assert WaitOk(Reg(s, x.ev) == Some(e.w), x);
      OwnKeeps(Reg(s, x.ev) == Some(e.w), x, e, s.closed);
    }
  }

  /** Triggers change neither a fiber nor how often it was scheduled. */
  lemma {:induction false} CallbacksOnly(s: State, e: Event)
    requires e.ExpireUnregister? || e.Readiness? || e.Close?
    ensures var t := Step(s, e);
            && t.panicked == s.panicked && |t.waits| == |s.waits|
            && (forall w :: 0 <= w < |s.waits| ==> t.waits[w].fiber == s.waits[w].fiber)
            && (forall w :: 0 <= w < |s.waits| ==> t.waits[w].scheduled == s.waits[w].scheduled)
  {
  }

  predicate Undisturbed(es: seq<Event>) {
    forall i :: 0 <= i < |es| ==> !es[i].Foreign?
  }

  lemma {:induction false} RunIsTight(es: seq<Event>)
    requires Undisturbed(es)
    ensures Tight(Run(es))
    decreases |es|
  {
    if es != [] {
      RunIsSafe(es[..|es| - 1]);
      RunIsTight(es[..|es| - 1]);
      StepKeepsTight(Run(es[..|es| - 1]), es[|es| - 1]);
    }
  }

  // ----- theorems over whole runs

  /** Each wait schedules its fiber at most once, and the pending counter counts the registrations.  If
      nothing else resumes the fibers it is exactly once by the time the wait returns, no registration is
      left then, and the duplicate check in addEvent never fires. */
  lemma {:induction false} WakesExactlyOnce(es: seq<Event>, w: nat)
    requires w < |Run(es).waits|
    ensures var s := Run(es); var x := s.waits[w];
            && x.scheduled <= 1
            && s.pendingEvents == Count(s.read) + Count(s.write)
            && (Undisturbed(es) ==>
                  && (x.fiber.Returned? ==> x.scheduled == 1 && s.read != Some(w) && s.write != Some(w))
                  && !s.panicked)
  {
    RunIsSafe(es);
    if Undisturbed(es) { RunIsTight(es); }
    var s := Run(es);
    assert WaitOk(Reg(s, s.waits[w].ev) == Some(w), s.waits[w]);
    assert RegOk(s, Read) && RegOk(s, Write);
  }

  lemma {:induction false} RunSnoc(es: seq<Event>, e: Event)
    ensures Run(es + [e]) == Step(Run(es), e)
  {
    assert (es + [e])[..|es|] == es;
  }

  /** One reader, at this point of its wait. */
  predicate OneReader(s: State, fiber: Fiber) {
    s == State(false, Some(0), None, 1, [Wait(Read, fiber, Unarmed, 0, 0, 0, 0)], false)
  }

  lemma {:induction false} ReaderParks(s: State)
    requires s == INIT
    ensures OneReader(Step(Step(s, Begin(Read)), Park(0)), Parked)
  {
    assert !Busy(s, Read);
    assert OneReader(Step(s, Begin(Read)), Running);
  }

  lemma {:induction false} ReaderReturns(s: State)
    requires OneReader(s, Parked)
    ensures OneReader(Step(s, Foreign(0)), Returned(Ready))
  {
  }

  lemma {:induction false} ReaderWaitsAgain(s: State)
    requires OneReader(s, Returned(Ready))
    ensures Step(s, Begin(Read)).panicked
  {
    assert !Busy(s, Read);
  }

  /** A reader parked on the connection and resumed from elsewhere returns with its registration left, and
      its next wait hits the duplicate check. */
  lemma {:induction false} ForeignResumePanics()
    ensures exists es :: Run(es).panicked
  {
    var es: seq<Event> := [];
    ReaderParks(Run(es));
    RunSnoc(es, Begin(Read));
    es := es + [Begin(Read)];
    RunSnoc(es, Park(0));
    es := es + [Park(0)];
    ReaderReturns(Run(es));
    RunSnoc(es, Foreign(0));
    es := es + [Foreign(0)];
    ReaderWaitsAgain(Run(es));
    RunSnoc(es, Begin(Read));
    es := es + [Begin(Read)];
    assert Run(es).panicked;
  }

  ghost predicate NeverPanics(foreign: bool) {
    forall es :: foreign || Undisturbed(es) ==> !Run(es).panicked
  }

  /** The duplicate check of addEvent is dead exactly when nothing else resumes a fiber that waits. */
  lemma {:induction false} PanicFreeIffUndisturbed(foreign: bool)
    ensures NeverPanics(foreign) <==> !foreign
  {
    if foreign {
      ForeignResumePanics();
    } else {
      forall es | Undisturbed(es) ensures !Run(es).panicked {
        RunIsTight(es);
      }
    }
  }

  /** A wait that nobody has scheduled yet still has a source that will: its registration, its queued
      callback, or a timer callback that has already won. */
  lemma {:induction false} NeverStranded(es: seq<Event>, w: nat)
    requires w < |Run(es).waits| && Run(es).waits[w].scheduled == 0
    ensures var s := Run(es); var x := s.waits[w];
            Reg(s, x.ev) == Some(w) || x.queued > 0 || x.timer.Won? || x.timer.Unregistered?
  {
    RunIsSafe(es);
    assert WaitOk(Reg(Run(es), Run(es).waits[w].ev) == Some(w), Run(es).waits[w]);
  }

  function Then(s: State, es: seq<Event>): State
    decreases |es|
  {
    if es == [] then s else Then(Step(s, es[0]), es[1..])
  }

  /** The steps that remain for a wait on a closed connection. */
  function Remaining(x: Wait, w: nat): seq<Event> {
    if x.scheduled > 0 then []
    else if x.timer.Won? then [ExpireUnregister(w), ExpireSchedule(w)]
    else if x.timer.Unregistered? then [ExpireSchedule(w)]
    else [RunCallback(w)]
  }

  /** After Close every wait is woken by steps that are already enabled, with no further readiness or
      expiry needed. */
  lemma {:induction false} CloseReleases(es: seq<Event>, w: nat)
    requires Run(es).closed && w < |Run(es).waits|
    ensures var s := Run(es); var t := Then(s, Remaining(s.waits[w], w));
            w < |t.waits| && t.waits[w].scheduled == 1
  {
    RunIsSafe(es);
    var s := Run(es);
    var x := s.waits[w];
    assert WaitOk(Reg(s, x.ev) == Some(w), x);
    if x.scheduled == 0 && x.timer.Won? {
      var t := Step(s, ExpireUnregister(w));
      assert t.waits[w] == x.(timer := Unregistered);
      assert Remaining(x, w)[1..] == [ExpireSchedule(w)];
      assert Then(t, [ExpireSchedule(w)]) == Step(t, ExpireSchedule(w));
    } else if x.scheduled == 0 {
      assert Then(s, Remaining(x, w)) == Step(s, Remaining(x, w)[0]);
    }
  }

  /** A returned wait reports a timeout exactly when its timer won the race.  If nothing else resumed it,
      the timer has then scheduled it, and otherwise its readiness callback ran, once. */
  lemma {:induction false} VerdictMatchesWinner(es: seq<Event>, w: nat)
    requires w < |Run(es).waits| && Run(es).waits[w].fiber.Returned?
    ensures var x := Run(es).waits[w];
            && (x.fiber.result.TimedOut? <==> x.outcome == 2)
            && (Undisturbed(es) ==>
                  && (x.fiber.result.TimedOut? <==> x.timer.Woke?)
                  && (!x.fiber.result.TimedOut? ==> x.ran == 1))
  {
    RunIsSafe(es);
    if Undisturbed(es) { RunIsTight(es); }
    assert WaitOk(Reg(Run(es), Run(es).waits[w].ev) == Some(w), Run(es).waits[w]);
  }

  // ----- the registration table itself

  datatype Added = Registered | EpollFailed | Duplicate

  /** How often the callback of wait w has been queued. */
  function Times(tasks: seq<nat>, w: nat): nat {
    multiset(tasks)[w]
  }

  /** One `FdContext` and its share of `pendingEventCnt_`.  The event mask and the two contexts are
      separate fields, as in the source; a context holds the callback of a wait.  `tasks` are the
      callbacks handed to the scheduler and `epoll` is the result of epoll_ctl. */
  class FdContext {
    var onRead: bool
    var onWrite: bool
    var readCb: Option<nat>
    var writeCb: Option<nat>
    var pendingEvents: int
    var tasks: seq<nat>

    /** The mask and the contexts agree, and the counter counts the mask. */
    ghost predicate Valid()
      reads this
    {
      && (onRead <==> readCb.Some?) && (onWrite <==> writeCb.Some?)
      && pendingEvents == Count(readCb) + Count(writeCb)
    }

    /** This table is the one of s: the same registrations, and every callback queued as often. */
    ghost predicate Mirrors(s: State)
      reads this
    {
      && Valid() && readCb == s.read && writeCb == s.write && pendingEvents == s.pendingEvents
      && RegOk(s, Read) && RegOk(s, Write)
      && (forall w :: w in tasks ==> w < |s.waits|)
      && (forall w :: 0 <= w < |s.waits| ==> Times(tasks, w) == s.waits[w].queued + s.waits[w].ran)
    }

    function Registration(ev: Ev): Option<nat>
      reads this
    {
      if ev.Read? then readCb else writeCb
    }

    constructor ()
      ensures Mirrors(INIT) && tasks == []
    {
      onRead, onWrite, readCb, writeCb, pendingEvents, tasks := false, false, None, None, 0, [];
    }

    predicate On(ev: Ev)
      reads this
    {
      if ev.Read? then onRead else onWrite
    }

    method Clear(ev: Ev)
      modifies this
      ensures On(ev) == false && Registration(ev).None?
      ensures ev.Read? ==> onWrite == old(onWrite) && writeCb == old(writeCb)
      ensures ev.Write? ==> onRead == old(onRead) && readCb == old(readCb)
      ensures pendingEvents == old(pendingEvents) && tasks == old(tasks)
    {
      if ev.Read? {
        onRead, readCb := false, None;
      } else {
        onWrite, writeCb := false, None;
      }
    }

    /** Registers the callback of the next wait, as Wait does; a registration that is already there is
        the panic of the run. */
    method AddEvent(ev: Ev, cb: nat, epoll: bool, ghost s: State) returns (r: Added)
      requires Mirrors(s) && cb == |s.waits|
      modifies this
      ensures r.Duplicate? <==> Reg(s, ev).Some?
      ensures r.Registered? <==> Reg(s, ev).None? && epoll
      ensures !r.Registered? ==> Mirrors(s)
      ensures r.Registered? && !s.closed && !Busy(s, ev) ==> Mirrors(BeginStep(s, ev))
      ensures r.Registered? ==> Valid() && Registration(ev) == Some(cb) && tasks == old(tasks)
    {
      if On(ev) {
        return Duplicate;
      }
      if !epoll {
        return EpollFailed;
      }
      pendingEvents := pendingEvents + 1;
      if ev.Read? {
        onRead, readCb := true, Some(cb);
      } else {
        onWrite, writeCb := true, Some(cb);
      }
      assert cb !in tasks;
      return Registered;
    }

    /** Forgets the registration without running it. */
    method DelEvent(ev: Ev, epoll: bool) returns (removed: bool)
      requires Valid()
      modifies this
      ensures Valid() && tasks == old(tasks)
      ensures removed <==> old(Registration(ev)).Some? && epoll
      ensures readCb == (if ev.Read? && removed then None else old(readCb))
      ensures writeCb == (if ev.Write? && removed then None else old(writeCb))
    {
      removed := On(ev) && epoll;
      if removed {
        pendingEvents := pendingEvents - 1;
        Clear(ev);
      }
    }

    /** Queues the registered callback and forgets the registration, as `Trigger` does; the decrement
        that every caller makes right after is part of it. */
    method TriggerEvent(ev: Ev, ghost s: State)
      requires Mirrors(s) && Reg(s, ev).Some?
      modifies this
      ensures Mirrors(Trigger(s, ev))
      ensures tasks == old(tasks) + [Reg(s, ev).value]
    {
      ghost var w := Reg(s, ev).value;
      assert RegOk(s, ev);
      QueuedOnceMore(tasks, s, w);
      tasks := tasks + [Registration(ev).value];
      Clear(ev);
      pendingEvents := pendingEvents - 1;
    }

    /** Removes the registration by scheduling its callback. */
    method CancelEvent(ev: Ev, epoll: bool, ghost s: State) returns (cancelled: bool)
      requires Mirrors(s)
      modifies this
      ensures cancelled <==> Reg(s, ev).Some? && epoll
      ensures Mirrors(if cancelled then Trigger(s, ev) else s)
      ensures tasks == old(tasks) + if cancelled then [Reg(s, ev).value] else []
    {
      cancelled := On(ev) && epoll;
      if cancelled {
        TriggerEvent(ev, s);
      }
    }

    /** Schedules whatever is registered, reader first; afterwards nothing is. */
    method CancelAll(epoll: bool, ghost s: State) returns (cancelled: bool)
      requires Mirrors(s)
      modifies this
      ensures cancelled <==> epoll && (s.read.Some? || s.write.Some?)
      ensures Mirrors(if cancelled then Trigger(Trigger(s, Read), Write) else s)
      ensures cancelled ==> readCb.None? && writeCb.None? && pendingEvents == 0
      ensures cancelled ==>
                tasks == old(tasks) + (if s.read.Some? then [s.read.value] else [])
                                    + (if s.write.Some? then [s.write.value] else [])
    {
      cancelled := (onRead || onWrite) && epoll;
      if cancelled {
        if onRead {
          TriggerEvent(Read, s);
        }
        if onWrite {
          TriggerEvent(Write, Trigger(s, Read));
        }
      }
    }
  }

  lemma {:induction false} QueuedOnceMore(tasks: seq<nat>, s: State, w: nat)
    requires w < |s.waits|
    requires forall x :: 0 <= x < |s.waits| ==> Times(tasks, x) == s.waits[x].queued + s.waits[x].ran
    ensures var waits := s.waits[w := s.waits[w].(queued := s.waits[w].queued + 1)];
            forall x :: 0 <= x < |waits| ==> Times(tasks + [w], x) == waits[x].queued + waits[x].ran
  {
    forall x: nat ensures Times(tasks + [w], x) == Times(tasks, x) + if x == w then 1 else 0 {}
  }
}
