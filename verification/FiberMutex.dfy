/** FiberMutex with reserved handoff (src/sync.cpp:105-177) as a transition system over any
    number of fibers.  Each event is one critical section of `guard_`; a run is any finite list
    of events, and an event whose fiber is not at that point of the code changes nothing.

    Completing a record queues a task that resumes its fiber.  `Deliver` runs such a task: it
    resumes the fiber wherever that is parked by then, which need not be on the same record.
    `Foreign` is a resume that was queued for the fiber outside this mutex. */
module FiberMutexes {
  import opened Prelude
  import opened WaitQueues

  /** Where a fiber is inside lock(). */
  datatype Pc =
    | Out                                // not inside lock()
    | Parked(w: nat, timed: bool)        // queued as record w, until it has read its error
    | Unsupported(w: nat)                // queued as w, about to take the ENOTSUP branch
    | Selected(w: nat, timed: bool)      // selected_waiter is true, at the top of the loop

  datatype Entry = Took(f: nat) | Handed(f: nat, w: nat) | Gave(f: nat)

  /** `delivered` are the records whose resume has run; `hist` is a history of acquisitions and
      releases that the code never reads. */
  datatype State = State(owner: Option<nat>, handoff: bool, q: Queue, pc: map<nat, Pc>, delivered: set<nat>,
                         hist: seq<Entry>)

  /** A fiber that re-enters the loop is still on the worker that parked it, and a timed wait is
      only parked where there are timers. */
  datatype Event =
    | Lock(f: nat, thread: int, timed: bool, expired: bool, ctx: Context)
    | TryLock(f: nat)
    | Unlock(f: nat)
    | Cancel(error: int)
    | Timeout(w: nat)
    | NotSupported(f: nat)
    | Deliver(w: nat)
    | Foreign(f: nat)
    | Reenter(f: nat, thread: int, expired: bool)

  const INIT := State(None, false, EMPTY, map[], {}, [])

  function At(pc: map<nat, Pc>, f: nat): Pc {
    if f in pc then pc[f] else Out
  }

  function Goto(s: State, f: nat, p: Pc): State {
    s.(pc := s.pc[f := p])
  }

  predicate Acquires(s: State, sel: Option<nat>) {
    s.owner.None? && (!s.handoff || sel.Some?)
  }

  /** The errors of one pass, in the order of the code; 0 if it acquires or waits. */
  function PassError(s: State, f: nat, timed: bool, expired: bool, ctx: Context, sel: Option<nat>): int {
    if Acquires(s, sel) then 0
    else if s.owner == Some(f) then EDEADLK
    else if timed && expired then ETIMEDOUT
    else if ctx.NoScheduler? then EINVAL
    else 0
  }

  /** One iteration of the loop in lock(): `sel` is the record by which the fiber was selected. */
  function Attempt(s: State, f: nat, thread: int, timed: bool, expired: bool, ctx: Context,
                   sel: Option<nat>): State
  {
    if Acquires(s, sel) then
      Goto(s, f, Out).(owner := Some(f), handoff := false,
                       hist := s.hist + [if sel.Some? then Handed(f, sel.value) else Took(f)])
    else if PassError(s, f, timed, expired, ctx, sel) != 0 then
      Goto(s, f, Out)
    else
      var w := |s.q.table|;
      Goto(s, f, if timed && ctx.PlainScheduler? then Unsupported(w) else Parked(w, timed))
        .(q := Push(s.q, f, thread))
  }

  /** The resume of record w is queued in the scheduler. */
  predicate Undelivered(s: State, w: nat) {
    w in s.q.resumes && w !in s.delivered && w < |s.q.table|
  }

  /** Fiber f is resumed.  If it is parked here it reads the error of its record. */
  function ResumeStep(s: State, f: nat): State {
    var p := At(s.pc, f);
    if p.Parked? && p.w < |s.q.table| then
      var (error, q) := AfterYield(s.q, p.w);
      Goto(s, f, if error == 0 then Selected(p.w, p.timed) else Out).(q := q)
    else s
  }

  /** The scheduler runs the resume of record w.  A fiber that has left is resumed somewhere else, and
      one that is running cannot be resumed yet. */
  function DeliverStep(s: State, w: nat): State {
    if !Undelivered(s, w) then s
    else
      var f := s.q.table[w].fiber;
      if At(s.pc, f).Parked? || At(s.pc, f).Out?
      then ResumeStep(s, f).(delivered := s.delivered + {w})
      else s
  }

  ghost function Step(s: State, e: Event): State
    requires Inv(s.q)
  {
    match e
    case Lock(f, thread, timed, expired, ctx) =>
      if At(s.pc, f).Out? then Attempt(s, f, thread, timed, expired, ctx, None) else s
    case TryLock(f) =>
      if At(s.pc, f).Out? && s.owner.None? && !s.handoff
      then s.(owner := Some(f), hist := s.hist + [Took(f)]) else s
    case Unlock(f) =>
      if At(s.pc, f).Out? && s.owner == Some(f)
      then s.(owner := None, handoff := s.q.waiters != [], q := WakeOne(s.q, 0), hist := s.hist + [Gave(f)])
      else s
    case Cancel(error) => s.(q := WakeAll(s.q, error))
    case Timeout(w) => s.(q := Complete(s.q, w, ETIMEDOUT))
    case NotSupported(f) =>
      if At(s.pc, f).Unsupported?
      then Goto(s, f, Out).(q := Complete(s.q, At(s.pc, f).w, ENOTSUP)) else s
    case Deliver(w) => DeliverStep(s, w)
    case Foreign(f) => ResumeStep(s, f)
    case Reenter(f, thread, expired) =>
      var p := At(s.pc, f);
      if p.Selected? then Attempt(s, f, thread, p.timed, expired, WithTimers, Some(p.w)) else s
  }

  lemma {:induction false} StepKeepsQueue(s: State, e: Event)
    requires Inv(s.q)
    ensures Inv(Step(s, e).q)
  {
    match e
    case Lock(f, thread, _, _, _) => PushKeepsInv(s.q, f, thread);
    case TryLock(_) =>
    case Unlock(_) => if s.q.waiters != [] { FrontCompletes(s.q, 0); }
    case Cancel(error) => WakeAllDrains(s.q, error);
    case Timeout(w) => CompleteKeepsInv(s.q, w, ETIMEDOUT);
    case NotSupported(f) => if At(s.pc, f).Unsupported? { CompleteKeepsInv(s.q, At(s.pc, f).w, ENOTSUP); }
    case Deliver(w) =>
      if Undelivered(s, w) && At(s.pc, s.q.table[w].fiber).Parked? {
        CompleteKeepsInv(s.q, At(s.pc, s.q.table[w].fiber).w, ECANCELED);
      }
    case Foreign(f) => if At(s.pc, f).Parked? { CompleteKeepsInv(s.q, At(s.pc, f).w, ECANCELED); }
    case Reenter(f, thread, _) => PushKeepsInv(s.q, f, thread);
  }

  /** The state after a run: every interleaving of the critical sections of every fiber. */
  ghost function Run(es: seq<Event>): (s: State)
    ensures Inv(s.q)
  {
    if es == [] then INIT
    else
      var s := Run(es[..|es| - 1]);
      StepKeepsQueue(s, es[|es| - 1]);
      Step(s, es[|es| - 1])
  }

  lemma {:induction false} RunSnoc(es: seq<Event>, e: Event)
    ensures Run(es + [e]) == Step(Run(es), e)
  {
    assert (es + [e])[..|es|] == es;
  }

  // ---- what every run keeps -----------------------------------------------------------

  /** p is parked on record w or about to leave it by the ENOTSUP branch. */
  predicate On(p: Pc, w: nat) {
    (p.Parked? || p.Unsupported?) && p.w == w
  }

  ghost predicate FiberTidy(s: State, f: nat) {
    var p := At(s.pc, f);
    p.Parked? || p.Unsupported? ==> p.w < |s.q.table| && s.q.table[p.w].fiber == f && p.w !in s.delivered
  }

  /** What holds over every run, misuse included. */
  ghost predicate Tidy(s: State) {
    && Inv(s.q)
    && (forall w :: w in s.q.waiters && w < |s.q.table| ==> On(At(s.pc, s.q.table[w].fiber), w))
    && (forall f: nat :: FiberTidy(s, f))
    && (forall w :: w in s.delivered ==> w in s.q.resumes)
  }

  /** Moving one fiber to a point where it is on no record keeps the rest, if its record is completed. */
  lemma {:induction false} FreeKeepsTidy(s: State, t: State, f: nat)
    requires Tidy(s) && Inv(t.q) && |t.q.table| == |s.q.table|
    requires forall g: nat :: g != f ==> At(t.pc, g) == At(s.pc, g)
    requires !At(t.pc, f).Parked? && !At(t.pc, f).Unsupported?
    requires forall x: nat :: x < |s.q.table| ==> t.q.table[x].fiber == s.q.table[x].fiber
    requires forall x :: x in t.q.waiters ==> x in s.q.waiters && !On(At(s.pc, f), x)
    requires forall x :: x in t.delivered ==> x in t.q.resumes
    requires forall x :: x in t.delivered ==> x in s.delivered || (x < |s.q.table| && s.q.table[x].fiber == f)
    ensures Tidy(t)
  {
    forall g: nat ensures FiberTidy(t, g) {
      assert FiberTidy(s, g);
    }
    forall w | w in t.q.waiters && w < |t.q.table| ensures On(At(t.pc, t.q.table[w].fiber), w) {
      assert On(At(s.pc, s.q.table[w].fiber), w);
    }
  }

  lemma {:induction false} CompleteKeepsTidy(s: State, w: nat, error: int)
    requires Tidy(s)
    ensures Tidy(s.(q := Complete(s.q, w, error)))
  {
    var t := s.(q := Complete(s.q, w, error));
    CompleteKeepsInv(s.q, w, error);
    EraseSorted(s.q.waiters, w);
    forall g: nat ensures FiberTidy(t, g) {
      assert FiberTidy(s, g);
    }
  }

  lemma {:induction false} CancelKeepsTidy(s: State, error: int)
    requires Tidy(s)
    ensures Tidy(s.(q := WakeAll(s.q, error)))
    decreases |s.q.waiters|
  {
    if s.q.waiters != [] {
      var t := s.(q := WakeOne(s.q, error));
      FrontCompletes(s.q, error);
      CompleteKeepsTidy(s, s.q.waiters[0], error);
      CancelKeepsTidy(t, error);
      assert s.(q := WakeAll(s.q, error)) == t.(q := WakeAll(t.q, error));
    } else {
      assert s.(q := WakeAll(s.q, error)) == s;
    }
  }

  lemma {:induction false} AttemptKeepsTidy(s: State, f: nat, thread: int, timed: bool, expired: bool, ctx: Context,
                                            sel: Option<nat>)
    requires Tidy(s) && (At(s.pc, f).Out? || At(s.pc, f).Selected?)
    ensures Tidy(Attempt(s, f, thread, timed, expired, ctx, sel))
  {
    var t := Attempt(s, f, thread, timed, expired, ctx, sel);
    if Acquires(s, sel) || PassError(s, f, timed, expired, ctx, sel) != 0 {
      FreeKeepsTidy(s, t, f);
    } else {
      PushKeepsInv(s.q, f, thread);
      assert forall g: nat :: g != f ==> At(t.pc, g) == At(s.pc, g);
      forall g: nat ensures FiberTidy(t, g) {
        assert FiberTidy(s, g);
      }
      forall w | w in t.q.waiters && w < |t.q.table| ensures On(At(t.pc, t.q.table[w].fiber), w) {
        if w != |s.q.table| {
          assert w in s.q.waiters;
          assert On(At(s.pc, s.q.table[w].fiber), w);
        }
      }
    }
  }

  /** Leaving a record that is thereby completed. */
  lemma {:induction false} LeaveKeepsTidy(s: State, f: nat, error: int, p: Pc, delivered: set<nat>)
    requires Tidy(s) && (At(s.pc, f).Parked? || At(s.pc, f).Unsupported?) && !p.Parked? && !p.Unsupported?
    requires s.delivered <= delivered && forall x :: x in delivered ==> x in s.q.resumes
    requires forall x :: x in delivered && x !in s.delivered ==> x < |s.q.table| && s.q.table[x].fiber == f
    ensures Tidy(s.(pc := s.pc[f := p], q := Complete(s.q, At(s.pc, f).w, error), delivered := delivered))
  {
    var w := At(s.pc, f).w;
    assert FiberTidy(s, f);
    var t := s.(pc := s.pc[f := p], q := Complete(s.q, w, error), delivered := delivered);
    CompleteKeepsInv(s.q, w, error);
    EraseSorted(s.q.waiters, w);
    FreeKeepsTidy(s, t, f);
  }

  lemma {:induction false} DeliverKeepsTidy(s: State, w: nat)
    requires Tidy(s)
    ensures Tidy(DeliverStep(s, w))
  {
    if Undelivered(s, w) {
      var f := s.q.table[w].fiber;
      if At(s.pc, f).Parked? {
        ResumeKeepsTidy(s, f, s.delivered + {w});
      } else if At(s.pc, f).Out? {
        FreeKeepsTidy(s, s.(delivered := s.delivered + {w}), f);
      }
    }
  }

  lemma {:induction false} ResumeKeepsTidy(s: State, f: nat, delivered: set<nat>)
    requires Tidy(s) && At(s.pc, f).Parked?
    requires s.delivered <= delivered && forall x :: x in delivered ==> x in s.q.resumes
    requires forall x :: x in delivered && x !in s.delivered ==> x < |s.q.table| && s.q.table[x].fiber == f
    ensures Tidy(ResumeStep(s, f).(delivered := delivered))
  {
    var p := At(s.pc, f);
    assert FiberTidy(s, f);
    LeaveKeepsTidy(s, f, ECANCELED, if s.q.table[p.w].error == 0 then Selected(p.w, p.timed) else Out, delivered);
  }

  lemma {:induction false} UnlockKeepsTidy(s: State, f: nat)
    requires Tidy(s)
    ensures Tidy(Step(s, Unlock(f)))
  {
    if s.q.waiters != [] { CompleteKeepsTidy(s, s.q.waiters[0], 0); }
    if At(s.pc, f).Out? && s.owner == Some(f) { SameIsTidy(s.(q := WakeOne(s.q, 0)), Step(s, Unlock(f))); }
  }

  lemma {:induction false} StepKeepsTidy(s: State, e: Event)
    requires Tidy(s)
    ensures Tidy(Step(s, e))
  {
    match e
    case Lock(f, thread, timed, expired, ctx) =>
      if At(s.pc, f).Out? { AttemptKeepsTidy(s, f, thread, timed, expired, ctx, None); }
    case TryLock(f) => SameIsTidy(s, Step(s, e));
    case Unlock(f) => UnlockKeepsTidy(s, f);
    case Cancel(error) => CancelKeepsTidy(s, error);
    case Timeout(w) => CompleteKeepsTidy(s, w, ETIMEDOUT);
    case NotSupported(f) => if At(s.pc, f).Unsupported? { LeaveKeepsTidy(s, f, ENOTSUP, Out, s.delivered); }
    case Deliver(w) => DeliverKeepsTidy(s, w);
    case Foreign(f) => if At(s.pc, f).Parked? { ResumeKeepsTidy(s, f, s.delivered); }
    case Reenter(f, thread, expired) =>
      var p := At(s.pc, f);
      if p.Selected? { AttemptKeepsTidy(s, f, thread, p.timed, expired, WithTimers, Some(p.w)); }
  }

  lemma {:induction false} SameIsTidy(s: State, t: State)
    requires Tidy(s) && ((t.q == s.q && t.pc == s.pc && t.delivered == s.delivered) || t == s)
    ensures Tidy(t)
  {
    forall g: nat ensures FiberTidy(t, g) {
      assert FiberTidy(s, g);
    }
  }

  lemma {:induction false} RunIsTidy(es: seq<Event>)
    ensures Tidy(Run(es))
    decreases |es|
  {
    if es != [] {
      RunIsTidy(es[..|es| - 1]);
      StepKeepsTidy(Run(es[..|es| - 1]), es[|es| - 1]);
    } else {
      forall f: nat ensures FiberTidy(INIT, f) {}
    }
  }

  /** Acquisitions and releases alternate, and the releaser is the last acquirer. */
  predicate Alternates(h: seq<Entry>, i: nat)
    requires i < |h|
  {
    if h[i].Gave? then 0 < i && !h[i - 1].Gave? && h[i - 1].f == h[i].f else i == 0 || h[i - 1].Gave?
  }

  ghost predicate Exclusive(s: State) {
    && (forall i: nat :: i < |s.hist| ==> Alternates(s.hist, i))
    && s.owner == if s.hist == [] || s.hist[|s.hist| - 1].Gave? then None else Some(s.hist[|s.hist| - 1].f)
  }

  lemma {:induction false} ExclusiveSnoc(s: State, t: State, x: Entry)
    requires Exclusive(s) && t.hist == s.hist + [x]
    requires if x.Gave? then s.owner == Some(x.f) && t.owner.None? else s.owner.None? && t.owner == Some(x.f)
    ensures Exclusive(t)
  {
    assert |s.hist| == 0 ==> s.hist == [];
    forall i: nat | i < |t.hist| ensures Alternates(t.hist, i) {
      if i < |s.hist| {
        assert Alternates(s.hist, i);
      }
    }
  }

  lemma {:induction false} StepKeepsExclusive(s: State, e: Event)
    requires Inv(s.q) && Exclusive(s)
    ensures Exclusive(Step(s, e))
  {
    var t := Step(s, e);
    if t.hist != s.hist {
      ExclusiveSnoc(s, t, t.hist[|s.hist|]);
    }
  }

  /** Mutual exclusion, whatever callers, timers and stray resumes do. */
  lemma {:induction false} RunIsExclusive(es: seq<Event>)
    ensures Exclusive(Run(es))
    decreases |es|
  {
    if es != [] {
      RunIsExclusive(es[..|es| - 1]);
      StepKeepsExclusive(Run(es[..|es| - 1]), es[|es| - 1]);
    }
  }

  /** f was woken as record w without an error and has not re-entered the loop yet. */
  ghost predicate ChosenAs(s: State, f: nat, w: nat) {
    var p := At(s.pc, f);
    || (p.Selected? && p.w == w)
    || (p.Parked? && p.w == w && w < |s.q.table| && !s.q.table[w].waiting && s.q.table[w].error == 0)
  }

  lemma {:induction false} ChosenKept(s: State, e: Event, f: nat, w: nat)
    requires Tidy(s) && ChosenAs(s, f, w) && !(e.Reenter? && e.f == f)
    ensures ChosenAs(Step(s, e), f, w)
  {
    if e.Cancel? && At(s.pc, f).Parked? {
      WakeAllRecords(s.q, e.error, w);
    }
  }

  /** A selected fiber stays selected until it re-enters, whatever everybody else does. */
  lemma {:induction false} ChosenStays(es: seq<Event>, later: seq<Event>, f: nat, w: nat)
    requires ChosenAs(Run(es), f, w)
    requires forall i :: 0 <= i < |later| ==> !(later[i].Reenter? && later[i].f == f)
    ensures ChosenAs(Run(es + later), f, w)
    decreases |later|
  {
    if later == [] {
      assert es + later == es;
    } else {
      var n := |later| - 1;
      ChosenStays(es, later[..n], f, w);
      ChosenSnoc(es + later[..n], later[n], f, w);
      assert es + later[..n] + [later[n]] == es + later;
    }
  }

  lemma {:induction false} ChosenSnoc(es: seq<Event>, e: Event, f: nat, w: nat)
    requires ChosenAs(Run(es), f, w) && !(e.Reenter? && e.f == f)
    ensures ChosenAs(Run(es + [e]), f, w)
  {
    RunIsTidy(es);
    RunSnoc(es, e);
    ChosenKept(Run(es), e, f, w);
  }

  // ---- no wakeup is lost --------------------------------------------------------------

  /** A timed lock is only issued where there are timers. */
  predicate Supported(e: Event) {
    e.Lock? && e.timed ==> !e.ctx.PlainScheduler?
  }

  predicate AllSupported(es: seq<Event>) {
    forall i :: 0 <= i < |es| ==> Supported(es[i])
  }

  /** No wakeup is lost: a free mutex nobody is reserved for has no waiter, and a reserved mutex
      is free and some fiber selected for it will come back. */
  ghost predicate NoLostWakeup(s: State) {
    && (s.owner.None? && !s.handoff ==> s.q.waiters == [])
    && (s.handoff ==> s.owner.None? && exists f, w :: ChosenAs(s, f, w))
  }

  /** What holds however waiters are cancelled and whatever else resumes them. */
  ghost predicate Sound(s: State) {
    Tidy(s) && (forall f: nat :: !At(s.pc, f).Unsupported?) && NoLostWakeup(s)
  }

  /** Releasing completes the front record with error 0, which selects its fiber. */
  lemma {:induction false} UnlockSelects(s: State, f: nat)
    requires Sound(s) && At(s.pc, f).Out? && s.owner == Some(f) && s.q.waiters != []
    ensures var w := s.q.waiters[0]; w < |s.q.table| && ChosenAs(Step(s, Unlock(f)), s.q.table[w].fiber, w)
  {
    var w := s.q.waiters[0];
    FrontCompletes(s.q, 0);
    assert On(At(s.pc, s.q.table[w].fiber), w);
  }

  lemma {:induction false} StepKeepsWakeups(s: State, e: Event)
    requires Sound(s) && Supported(e)
    ensures NoLostWakeup(Step(s, e))
  {
    var t := Step(s, e);
    if e.Unlock? {
      if t != s && s.q.waiters != [] { UnlockSelects(s, e.f); }
    } else if e.Cancel? {
      WakeAllDrains(s.q, e.error);
    }
    if t.handoff && s.handoff {
      var f, w :| ChosenAs(s, f, w);
      if e.Reenter? {
        assert t == s;
      } else {
        ChosenKept(s, e, f, w);
      }
    }
  }

  lemma {:induction false} StepKeepsSound(s: State, e: Event)
    requires Sound(s) && Supported(e)
    ensures Sound(Step(s, e))
  {
    StepKeepsTidy(s, e);
    StepKeepsWakeups(s, e);
    forall f: nat ensures !At(Step(s, e).pc, f).Unsupported? {
      assert !At(s.pc, f).Unsupported?;
    }
  }

  lemma {:induction false} RunIsSound(es: seq<Event>)
    requires AllSupported(es)
    ensures Sound(Run(es))
    decreases |es|
  {
    if es != [] {
      RunIsSound(es[..|es| - 1]);
      StepKeepsSound(Run(es[..|es| - 1]), es[|es| - 1]);
    } else {
      RunIsTidy([]);
    }
  }

  // ---- undisturbed runs: resumes and records stay paired ------------------------------

  /** ... and fibers that wait here are resumed by nobody else. */
  predicate Undisturbed(e: Event) {
    Supported(e) && !e.Foreign?
  }

  predicate AllUndisturbed(es: seq<Event>) {
    forall i :: 0 <= i < |es| ==> Undisturbed(es[i])
  }

  ghost predicate FiberOk(s: State, f: nat) {
    var p := At(s.pc, f);
    && !p.Unsupported?
    && (p.Parked? || p.Selected? ==> p.w < |s.q.table| && s.q.table[p.w].fiber == f)
    && (p.Parked? ==> p.w !in s.delivered)
    && (p.Selected? ==> !s.q.table[p.w].waiting && s.q.table[p.w].error == 0)
  }

  /** Fibers and records agree, and every queued resume is for a fiber still parked on its record. */
  ghost predicate Linked(s: State) {
    && (forall w :: w in s.q.waiters && w < |s.q.table| ==>
          At(s.pc, s.q.table[w].fiber).Parked? && At(s.pc, s.q.table[w].fiber).w == w)
    && (forall f: nat :: FiberOk(s, f))
    && (forall w: nat :: Undelivered(s, w) ==>
          At(s.pc, s.q.table[w].fiber).Parked? && At(s.pc, s.q.table[w].fiber).w == w)
    && (forall w :: w in s.delivered ==> w in s.q.resumes)
  }

  predicate Granted(s: State, w: nat) {
    w < |s.q.table| && !s.q.table[w].waiting && s.q.table[w].error == 0
  }

  /** Completing a queued record selects its fiber if the error is 0 and nobody otherwise. */
  lemma {:induction false} CompleteKeepsLinked(s: State, w: nat, error: int)
    requires Inv(s.q) && Linked(s) && CanComplete(s.q, w)
    ensures var t := s.(q := Complete(s.q, w, error));
            && Inv(t.q) && Linked(t) && |t.q.table| == |s.q.table|
            && (forall x :: x in t.q.waiters <==> x in s.q.waiters && x != w)
            && (forall f, x :: ChosenAs(t, f, x) <==>
                  ChosenAs(s, f, x) || (error == 0 && x == w && f == s.q.table[w].fiber))
            && (forall x: nat :: Granted(t, x) <==> Granted(s, x) || (error == 0 && x == w))
            && (forall x: nat :: x < |s.q.table| ==> t.q.table[x].fiber == s.q.table[x].fiber
                                                     && (t.q.table[x].waiting ==> s.q.table[x].waiting))
  {
    CompleteKeepsInv(s.q, w, error);
    EraseSorted(s.q.waiters, w);
    var t := s.(q := Complete(s.q, w, error));
    assert w !in s.delivered;
    forall f: nat ensures FiberOk(t, f) {
      assert FiberOk(s, f);
    }
    forall f: nat, x: nat
      ensures ChosenAs(t, f, x) <==> ChosenAs(s, f, x) || (error == 0 && x == w && f == s.q.table[w].fiber)
    {
      assert FiberOk(s, f);
    }
    forall x: nat | Undelivered(t, x)
      ensures At(t.pc, t.q.table[x].fiber).Parked? && At(t.pc, t.q.table[x].fiber).w == x
    {
      assert x != w ==> Undelivered(s, x);
    }
  }

  /** A pass that acquires or gives up leaves everybody else where they were. */
  lemma {:induction false} LeaveKeepsLinked(s: State, f: nat, t: State)
    requires Inv(s.q) && Linked(s) && (At(s.pc, f).Out? || At(s.pc, f).Selected?)
    requires t.q == s.q && t.delivered == s.delivered && t.pc == s.pc[f := Out]
    ensures Linked(t)
    ensures forall g, x :: ChosenAs(t, g, x) <==> ChosenAs(s, g, x) && g != f
    ensures forall x: nat :: Granted(t, x) <==> Granted(s, x)
  {
    forall g: nat ensures FiberOk(t, g) {
      assert FiberOk(s, g);
    }
    assert forall x: nat :: Undelivered(t, x) <==> Undelivered(s, x);
    assert forall g: nat :: g != f ==> At(t.pc, g) == At(s.pc, g);
    assert At(t.pc, f) == Out;
  }

  lemma {:induction false} ParkKeepsLinked(s: State, f: nat, thread: int, timed: bool)
    requires Inv(s.q) && Linked(s) && (At(s.pc, f).Out? || At(s.pc, f).Selected?)
    ensures var t := Goto(s, f, Parked(|s.q.table|, timed)).(q := Push(s.q, f, thread));
            && Inv(t.q) && Linked(t)
            && (forall g, x :: ChosenAs(t, g, x) <==> ChosenAs(s, g, x) && g != f)
            && (forall x: nat :: Granted(t, x) <==> Granted(s, x))
  {
    var n := |s.q.table|;
    var t := Goto(s, f, Parked(n, timed)).(q := Push(s.q, f, thread));
    PushKeepsInv(s.q, f, thread);
    assert At(t.pc, f) == Parked(n, timed);
    assert forall g: nat :: g != f ==> At(t.pc, g) == At(s.pc, g);
    forall g: nat ensures FiberOk(t, g) {
      assert FiberOk(s, g);
    }
    forall g: nat, x: nat ensures ChosenAs(t, g, x) <==> ChosenAs(s, g, x) && g != f {
      assert FiberOk(s, g);
    }
    assert forall x: nat :: Undelivered(t, x) <==> Undelivered(s, x);
    assert forall x :: x in t.q.waiters <==> x in s.q.waiters || x == n;
  }

  /** With no stray resumes about, a delivered resume finds its fiber parked on the completed record. */
  lemma {:induction false} DeliverFinds(s: State, w: nat)
    requires Inv(s.q) && Linked(s) && Undelivered(s, w)
    ensures var f := s.q.table[w].fiber; var p := At(s.pc, f);
            && p.Parked? && p.w == w && !s.q.table[w].waiting
            && DeliverStep(s, w) == Goto(s, f, if s.q.table[w].error == 0 then Selected(w, p.timed) else Out)
                                      .(delivered := s.delivered + {w})
  {
    assert !CanComplete(s.q, w);
  }

  lemma {:induction false} DeliverKeepsLinked(s: State, w: nat)
    requires Inv(s.q) && Linked(s) && Undelivered(s, w)
    ensures Inv(DeliverStep(s, w).q) && Linked(DeliverStep(s, w))
    ensures forall f, x :: ChosenAs(DeliverStep(s, w), f, x) <==> ChosenAs(s, f, x)
    ensures forall x: nat :: Granted(DeliverStep(s, w), x) <==> Granted(s, x)
  {
    DeliverFinds(s, w);
    var f, t := s.q.table[w].fiber, DeliverStep(s, w);
    assert forall g: nat :: g != f ==> At(t.pc, g) == At(s.pc, g);
    forall g: nat ensures FiberOk(t, g) {
      assert FiberOk(s, g);
    }
    forall x: nat | Undelivered(t, x)
      ensures At(t.pc, t.q.table[x].fiber).Parked? && At(t.pc, t.q.table[x].fiber).w == x
    {
      assert Undelivered(s, x);
    }
    forall x | x in s.q.waiters && x < |s.q.table| ensures s.q.table[x].fiber != f {
      assert x != w;
    }
  }

  lemma {:induction false} AttemptKeepsLinked(s: State, f: nat, thread: int, timed: bool, expired: bool, ctx: Context,
                                              sel: Option<nat>)
    requires Inv(s.q) && Linked(s) && (timed ==> !ctx.PlainScheduler?)
    requires At(s.pc, f).Out? || At(s.pc, f).Selected?
    ensures Linked(Attempt(s, f, thread, timed, expired, ctx, sel))
  {
    var t := Attempt(s, f, thread, timed, expired, ctx, sel);
    if Acquires(s, sel) || PassError(s, f, timed, expired, ctx, sel) != 0 {
      LeaveKeepsLinked(s, f, t);
    } else {
      ParkKeepsLinked(s, f, thread, timed);
    }
  }

  lemma {:induction false} CancelKeepsLinked(s: State, error: int)
    requires Inv(s.q) && Linked(s)
    ensures Linked(s.(q := WakeAll(s.q, error)))
    decreases |s.q.waiters|
  {
    if s.q.waiters != [] {
      var t := s.(q := WakeOne(s.q, error));
      FrontCompletes(s.q, error);
      CompleteKeepsLinked(s, s.q.waiters[0], error);
      CancelKeepsLinked(t, error);
      assert s.(q := WakeAll(s.q, error)) == t.(q := WakeAll(t.q, error));
    } else {
      assert s.(q := WakeAll(s.q, error)) == s;
    }
  }

  /** Nothing but the fibers, the records and the deliveries matters for the links. */
  lemma {:induction false} SameFibers(s: State, t: State)
    requires Linked(s) && t.q == s.q && t.delivered == s.delivered && forall g: nat :: At(t.pc, g) == At(s.pc, g)
    ensures Linked(t)
    ensures forall f, x :: ChosenAs(t, f, x) <==> ChosenAs(s, f, x)
    ensures forall x: nat :: Granted(t, x) <==> Granted(s, x)
  {
    forall g: nat ensures FiberOk(t, g) {
      assert FiberOk(s, g);
    }
    assert forall x: nat :: Undelivered(t, x) <==> Undelivered(s, x);
  }

  lemma {:induction false} UnlockKeepsLinked(s: State, f: nat)
    requires Inv(s.q) && Linked(s)
    ensures Linked(Step(s, Unlock(f)))
  {
    var t := Step(s, Unlock(f));
    if t != s && s.q.waiters != [] {
      FrontCompletes(s.q, 0);
      CompleteKeepsLinked(s, s.q.waiters[0], 0);
      SameFibers(s.(q := Complete(s.q, s.q.waiters[0], 0)), t);
    } else {
      SameFibers(s, t);
    }
  }

  lemma {:induction false} StepKeepsLinked(s: State, e: Event)
    requires Inv(s.q) && Linked(s) && Undisturbed(e)
    ensures Linked(Step(s, e))
  {
    match e
    case Lock(f, thread, timed, expired, ctx) =>
      if At(s.pc, f).Out? { AttemptKeepsLinked(s, f, thread, timed, expired, ctx, None); }
    case TryLock(_) => SameFibers(s, Step(s, e));
    case Unlock(f) => UnlockKeepsLinked(s, f);
    case Cancel(error) => CancelKeepsLinked(s, error);
    case Timeout(w) => if CanComplete(s.q, w) { CompleteKeepsLinked(s, w, ETIMEDOUT); }
    case NotSupported(f) => assert FiberOk(s, f);
    case Deliver(w) => if Undelivered(s, w) { DeliverKeepsLinked(s, w); }
    case Reenter(f, thread, expired) =>
      var p := At(s.pc, f);
      if p.Selected? { AttemptKeepsLinked(s, f, thread, p.timed, expired, WithTimers, Some(p.w)); }
  }

  lemma {:induction false} RunIsLinked(es: seq<Event>)
    requires AllUndisturbed(es)
    ensures Linked(Run(es))
    decreases |es|
  {
    if es != [] {
      RunIsLinked(es[..|es| - 1]);
      StepKeepsLinked(Run(es[..|es| - 1]), es[|es| - 1]);
    } else {
      forall f: nat ensures FiberOk(INIT, f) {}
    }
  }

  /** While timed locks have timers and nobody else resumes a waiter, a resume always finds its own
      record, completed, with its fiber parked on it: the defensive branch of waitLocked is not taken. */
  lemma {:induction false} ResumeFindsItsRecordDone(es: seq<Event>, w: nat)
    requires AllUndisturbed(es) && Undelivered(Run(es), w)
    ensures var s := Run(es); var p := At(s.pc, s.q.table[w].fiber);
            p.Parked? && p.w == w && !s.q.table[w].waiting && DeliverStep(s, w).q == s.q
  {
    RunIsLinked(es);
    DeliverFinds(Run(es), w);
  }

  // ---- well-used runs: the reservation is exact and the order is FIFO -----------------

  /** ... and a cancellation carries a non-zero error. */
  predicate Good(e: Event) {
    Undisturbed(e) && (e.Cancel? ==> e.error != 0)
  }

  predicate AllGood(es: seq<Event>) {
    forall i :: 0 <= i < |es| ==> Good(es[i])
  }

  /** The reservation is exact: a fiber is selected only while the mutex is reserved, and only one. */
  ghost predicate ExactReservation(s: State) {
    && (s.handoff <==> exists f, w :: ChosenAs(s, f, w))
    && (forall f, w, g, x :: ChosenAs(s, f, w) && ChosenAs(s, g, x) ==> f == g && w == x)
  }

  ghost predicate Fifo(s: State) {
    && (forall w: nat :: Granted(s, w) ==>
          ChosenAs(s, s.q.table[w].fiber, w) || Handed(s.q.table[w].fiber, w) in s.hist)
    && (forall v: nat, w: nat :: v < w && Granted(s, w) ==> !s.q.table[v].waiting)
    && (forall f: nat, w: nat :: Handed(f, w) in s.hist ==> Granted(s, w) && f == s.q.table[w].fiber)
    && (forall f, w, g, x :: ChosenAs(s, f, w) && Handed(g, x) in s.hist ==> x < w)
    && (forall i, j :: 0 <= i < j < |s.hist| && s.hist[i].Handed? && s.hist[j].Handed? ==>
          s.hist[i].w < s.hist[j].w)
  }

  ghost predicate Ordered(s: State) {
    ExactReservation(s) && Fifo(s)
  }

  ghost predicate Safe(s: State) {
    Sound(s) && Linked(s) && Ordered(s) && Exclusive(s)
  }

  /** Steps that neither acquire nor release nor select. */
  lemma {:induction false} QuietKeepsOrder(s: State, t: State)
    requires Inv(s.q) && Ordered(s)
    requires t.owner == s.owner && t.handoff == s.handoff && t.hist == s.hist
    requires forall f, x :: ChosenAs(t, f, x) <==> ChosenAs(s, f, x)
    requires forall x: nat :: Granted(t, x) <==> Granted(s, x)
    requires |s.q.table| <= |t.q.table|
    requires forall x: nat :: x < |s.q.table| ==> t.q.table[x].fiber == s.q.table[x].fiber
                                                  && (t.q.table[x].waiting ==> s.q.table[x].waiting)
    ensures Ordered(t)
  {
    forall w: nat | Granted(t, w)
      ensures ChosenAs(t, t.q.table[w].fiber, w) || Handed(t.q.table[w].fiber, w) in t.hist
    {
      assert Granted(s, w);
    }
    forall v: nat, w: nat | v < w && Granted(t, w) ensures !t.q.table[v].waiting {
      assert Granted(s, w);
    }
    assert s.handoff <==> exists f, w :: ChosenAs(s, f, w);
    if f, w :| ChosenAs(t, f, w) {
      assert ChosenAs(s, f, w);
    }
    if f, w :| ChosenAs(s, f, w) {
      assert ChosenAs(t, f, w);
    }
  }

  lemma {:induction false} ErrorKeepsOrder(s: State, w: nat, error: int)
    requires Inv(s.q) && Linked(s) && Ordered(s) && error != 0
    ensures Ordered(s.(q := Complete(s.q, w, error)))
  {
    if CanComplete(s.q, w) {
      CompleteKeepsLinked(s, w, error);
      QuietKeepsOrder(s, s.(q := Complete(s.q, w, error)));
    }
  }

  lemma {:induction false} CancelKeepsOrder(s: State, error: int)
    requires Inv(s.q) && Linked(s) && Ordered(s) && error != 0
    ensures Ordered(s.(q := WakeAll(s.q, error)))
    decreases |s.q.waiters|
  {
    if s.q.waiters != [] {
      var t := s.(q := WakeOne(s.q, error));
      FrontCompletes(s.q, error);
      CompleteKeepsLinked(s, s.q.waiters[0], error);
      ErrorKeepsOrder(s, s.q.waiters[0], error);
      CancelKeepsOrder(t, error);
      assert s.(q := WakeAll(s.q, error)) == t.(q := WakeAll(t.q, error));
    } else {
      assert s.(q := WakeAll(s.q, error)) == s;
    }
  }

  lemma {:induction false} DeliverKeepsOrder(s: State, w: nat)
    requires Inv(s.q) && Linked(s) && Ordered(s)
    ensures Ordered(DeliverStep(s, w))
  {
    if Undelivered(s, w) {
      DeliverKeepsLinked(s, w);
      DeliverFinds(s, w);
      QuietKeepsOrder(s, DeliverStep(s, w));
    }
  }

  /** A fiber that did not park takes a mutex that is free and not reserved. */
  lemma {:induction false} TookKeepsOrder(s: State, t: State, f: nat)
    requires Inv(s.q) && Ordered(s) && s.owner.None? && !s.handoff
    requires t.owner == Some(f) && !t.handoff && t.hist == s.hist + [Took(f)] && t.q == s.q
    requires forall g, x :: ChosenAs(t, g, x) ==> ChosenAs(s, g, x)
    ensures Ordered(t)
  {
    assert forall g, x :: !ChosenAs(s, g, x);
    assert forall g, x :: Handed(g, x) in t.hist <==> Handed(g, x) in s.hist;
    assert forall x: nat :: Granted(t, x) <==> Granted(s, x);
  }

  /** The selected fiber takes the mutex reserved for it. */
  lemma {:induction false} HandedKeepsOrder(s: State, t: State, f: nat, w: nat)
    requires Safe(s) && At(s.pc, f).Selected? && At(s.pc, f).w == w
    requires t == Goto(s, f, Out).(owner := Some(f), handoff := false, hist := s.hist + [Handed(f, w)])
    ensures s.owner.None? && s.handoff && Ordered(t)
  {
    assert ChosenAs(s, f, w);
    assert FiberOk(s, f);
    LeaveKeepsLinked(s, f, t);
    forall g, x ensures !ChosenAs(t, g, x) {
      assert ChosenAs(t, g, x) ==> ChosenAs(s, g, x) && g != f;
    }
    assert forall g, x :: Handed(g, x) in t.hist <==> Handed(g, x) in s.hist || (g == f && x == w);
    assert forall i :: 0 <= i < |s.hist| && s.hist[i].Handed? ==> Handed(s.hist[i].f, s.hist[i].w) in s.hist;
  }

  lemma {:induction false} LockKeepsOrder(s: State, f: nat, thread: int, timed: bool, expired: bool, ctx: Context)
    requires Safe(s) && At(s.pc, f).Out? && (timed ==> !ctx.PlainScheduler?)
    ensures Ordered(Attempt(s, f, thread, timed, expired, ctx, None))
  {
    var t := Attempt(s, f, thread, timed, expired, ctx, None);
    forall x ensures !ChosenAs(s, f, x) {}
    if Acquires(s, None) {
      LeaveKeepsLinked(s, f, t);
      TookKeepsOrder(s, t, f);
    } else if PassError(s, f, timed, expired, ctx, None) != 0 {
      LeaveKeepsLinked(s, f, t);
      QuietKeepsOrder(s, t);
    } else {
      ParkKeepsLinked(s, f, thread, timed);
      QuietKeepsOrder(s, t);
    }
  }

  lemma {:induction false} FrontIsOldest(q: Queue)
    requires Inv(q) && q.waiters != []
    ensures forall v: nat :: v < q.waiters[0] ==> v < |q.table| && !q.table[v].waiting
  {
    assert q.waiters[0] in q.waiters;
    assert forall i :: 0 <= i < |q.waiters| ==> q.waiters[0] <= q.waiters[i];
  }

  lemma {:induction false} UnlockKeepsOrder(s: State, f: nat)
    requires Safe(s) && At(s.pc, f).Out? && s.owner == Some(f)
    ensures Ordered(Step(s, Unlock(f)))
  {
    var t := Step(s, Unlock(f));
    assert forall g, x :: !ChosenAs(s, g, x);
    if s.q.waiters != [] {
      UnlockReserves(s, f);
    } else {
      SameFibers(s, t);
      assert forall g, x :: Handed(g, x) in t.hist <==> Handed(g, x) in s.hist;
    }
  }

  /** The oldest waiter, and nobody else, is then selected. */
  lemma {:induction false} UnlockReserves(s: State, f: nat)
    requires Safe(s) && At(s.pc, f).Out? && s.owner == Some(f) && s.q.waiters != []
    ensures Ordered(Step(s, Unlock(f)))
  {
    var t, w := Step(s, Unlock(f)), s.q.waiters[0];
    FrontCompletes(s.q, 0);
    CompleteKeepsLinked(s, w, 0);
    SameFibers(s.(q := Complete(s.q, w, 0)), t);
    FrontIsOldest(s.q);
    assert forall g, x :: !ChosenAs(s, g, x);
    assert ChosenAs(t, s.q.table[w].fiber, w);
    assert forall g, x :: Handed(g, x) in t.hist <==> Handed(g, x) in s.hist;
    FrontFifo(s, t, w);
  }

  lemma {:induction false} FrontFifo(s: State, t: State, w: nat)
    requires Inv(s.q) && Fifo(s) && w < |s.q.table| && s.q.table[w].waiting && |t.q.table| == |s.q.table|
    requires forall v: nat :: v < w ==> !s.q.table[v].waiting
    requires forall g, x :: ChosenAs(t, g, x) <==> x == w && g == s.q.table[w].fiber
    requires forall x: nat :: Granted(t, x) <==> Granted(s, x) || x == w
    requires forall g, x :: !ChosenAs(s, g, x)
    requires forall g, x :: Handed(g, x) in t.hist <==> Handed(g, x) in s.hist
    requires |t.hist| == |s.hist| + 1 && t.hist[..|s.hist|] == s.hist && !t.hist[|s.hist|].Handed?
    requires forall x: nat :: x < |s.q.table| ==> t.q.table[x].fiber == s.q.table[x].fiber
                                                  && (t.q.table[x].waiting ==> s.q.table[x].waiting)
    ensures Fifo(t)
  {
    forall g: nat, x: nat | Handed(g, x) in t.hist ensures Granted(t, x) && g == t.q.table[x].fiber && x < w {
      assert Granted(s, x);
      assert x <= w;
    }
    forall i, j | 0 <= i < j < |t.hist| && t.hist[i].Handed? && t.hist[j].Handed?
      ensures t.hist[i].w < t.hist[j].w
    {
      assert t.hist[i] == s.hist[i] && t.hist[j] == s.hist[j];
    }
  }

  lemma {:induction false} ReenterKeepsOrder(s: State, f: nat, thread: int, expired: bool)
    requires Safe(s) && At(s.pc, f).Selected?
    ensures var t := Step(s, Reenter(f, thread, expired)); Ordered(t) && t.owner == Some(f) && !t.handoff
  {
    var w := At(s.pc, f).w;
    HandedKeepsOrder(s, Goto(s, f, Out).(owner := Some(f), handoff := false, hist := s.hist + [Handed(f, w)]), f, w);
  }

  lemma {:induction false} StepKeepsOrder(s: State, e: Event)
    requires Safe(s) && Good(e)
    ensures Ordered(Step(s, e))
  {
    match e
    case Lock(f, thread, timed, expired, ctx) =>
      if At(s.pc, f).Out? { LockKeepsOrder(s, f, thread, timed, expired, ctx); }
    case TryLock(f) =>
      if At(s.pc, f).Out? && s.owner.None? && !s.handoff {
        SameFibers(s, Step(s, e));
        TookKeepsOrder(s, Step(s, e), f);
      }
    case Unlock(f) => if At(s.pc, f).Out? && s.owner == Some(f) { UnlockKeepsOrder(s, f); }
    case Cancel(error) => CancelKeepsOrder(s, error);
    case Timeout(w) => ErrorKeepsOrder(s, w, ETIMEDOUT);
    case NotSupported(f) => assert FiberOk(s, f);
    case Deliver(w) => DeliverKeepsOrder(s, w);
    case Reenter(f, thread, expired) => if At(s.pc, f).Selected? { ReenterKeepsOrder(s, f, thread, expired); }
  }

  lemma {:induction false} StepKeepsSafe(s: State, e: Event)
    requires Safe(s) && Good(e)
    ensures Safe(Step(s, e))
  {
    StepKeepsSound(s, e);
    StepKeepsLinked(s, e);
    StepKeepsOrder(s, e);
    StepKeepsExclusive(s, e);
  }

  lemma {:induction false} RunIsSafe(es: seq<Event>)
    requires AllGood(es)
    ensures Safe(Run(es))
    decreases |es|
  {
    if es != [] {
      RunIsSafe(es[..|es| - 1]);
      StepKeepsSafe(Run(es[..|es| - 1]), es[|es| - 1]);
    } else {
      RunIsSound([]);
      RunIsLinked([]);
    }
  }

  /** When the parked fiber of record w acquires by handoff, every fiber that parked before it has
      acquired earlier, unless it was timed out or cancelled. */
  ghost predicate InParkOrder(s: State) {
    forall j: nat, v: nat :: j < |s.hist| && s.hist[j].Handed? && v < s.hist[j].w ==> EarlierServed(s, j, v)
  }

  ghost predicate EarlierServed(s: State, j: nat, v: nat)
    requires j < |s.hist|
  {
    && v < |s.q.table|
    && (s.q.table[v].error == 0 ==> exists i :: 0 <= i < j && s.hist[i] == Handed(s.q.table[v].fiber, v))
  }

  lemma {:induction false} OrderedServes(s: State, j: nat, v: nat)
    requires Inv(s.q) && Ordered(s)
    requires j < |s.hist| && s.hist[j].Handed? && v < s.hist[j].w
    ensures EarlierServed(s, j, v)
  {
    var w := s.hist[j].w;
    assert Handed(s.hist[j].f, w) in s.hist;
    assert Granted(s, w) && !s.q.table[v].waiting;
    if s.q.table[v].error == 0 {
      assert Granted(s, v) && !ChosenAs(s, s.q.table[v].fiber, v);
      var i :| 0 <= i < |s.hist| && s.hist[i] == Handed(s.q.table[v].fiber, v);
      assert i < j;
    }
  }

  /** FIFO over every well-used run. */
  lemma {:induction false} AcquiresInParkOrder(es: seq<Event>)
    requires AllGood(es)
    ensures InParkOrder(Run(es))
  {
    RunIsSafe(es);
    var s := Run(es);
    forall j: nat, v: nat | j < |s.hist| && s.hist[j].Handed? && v < s.hist[j].w ensures EarlierServed(s, j, v) {
      OrderedServes(s, j, v);
    }
  }

  /** No barging: lock() or try_lock() by a fiber that has not parked only succeeds when no waiter is
      queued, and in a well-used run when no fiber is selected either. */
  lemma {:induction false} NoBarging(es: seq<Event>, e: Event)
    requires AllSupported(es) && (e.Lock? || e.TryLock?) && Step(Run(es), e).hist != Run(es).hist
    ensures Run(es).q.waiters == [] && Step(Run(es), e).owner == Some(e.f)
    ensures AllGood(es) ==> forall f, w :: !ChosenAs(Run(es), f, w)
  {
    RunIsSound(es);
    if AllGood(es) { RunIsSafe(es); }
  }

  /** In a well-used run the next attempt of a selected fiber acquires, even if its deadline has
      passed. */
  lemma {:induction false} ChosenAcquires(es: seq<Event>, f: nat, thread: int, expired: bool)
    requires AllGood(es) && At(Run(es).pc, f).Selected?
    ensures Step(Run(es), Reenter(f, thread, expired)).owner == Some(f)
    ensures !Step(Run(es), Reenter(f, thread, expired)).handoff
  {
    RunIsSafe(es);
    ReenterKeepsOrder(Run(es), f, thread, expired);
  }

  // ---- the object ---------------------------------------------------------------------

  datatype Outcome = Done | Failed(error: int) | Waits(w: nat)

  class FiberMutex {
    var owner: Option<nat>
    var handoff: bool
    const waiters: WaitQueue
    ghost var pc: map<nat, Pc>
    ghost var delivered: set<nat>
    ghost var hist: seq<Entry>

    ghost function View(): State
      reads this, waiters
    {
      State(owner, handoff, waiters.View(), pc, delivered, hist)
    }

    constructor ()
      ensures View() == INIT && Inv(waiters.View()) && fresh(waiters)
    {
      owner, handoff := None, false;
      waiters := new WaitQueue();
      pc, delivered, hist := map[], {}, [];
    }

    /** One pass of the loop in lock(), up to the yield. */
    method LockAttempt(f: nat, thread: int, timed: bool, expired: bool, ctx: Context, ghost sel: Option<nat>,
                       selectedWaiter: bool)
      returns (r: Outcome)
      requires Inv(waiters.View()) && selectedWaiter == sel.Some?
      requires At(pc, f) == if sel.Some? then Selected(sel.value, timed) else Out
      requires sel.Some? ==> !ctx.NoScheduler? && (timed ==> ctx.WithTimers?)
      modifies this, waiters
      ensures Inv(waiters.View())
      ensures View() == Step(old(View()), if sel.Some? then Reenter(f, thread, expired)
                                          else Lock(f, thread, timed, expired, ctx))
      ensures r.Done? <==> Acquires(old(View()), sel)
      ensures r.Done? ==> owner == Some(f) && !handoff
      ensures r.Failed? <==> PassError(old(View()), f, timed, expired, ctx, sel) != 0
      ensures r.Failed? ==> r.error == PassError(old(View()), f, timed, expired, ctx, sel)
      ensures r.Waits? ==> waiters.waiters == old(waiters.waiters) + [r.w]
      ensures !r.Waits? ==> waiters.waiters == old(waiters.waiters)
    {
      PushKeepsInv(waiters.View(), f, thread);
      if owner.None? && (!handoff || selectedWaiter) {
        owner := Some(f);
        handoff := false;
        r := Done;
        pc, hist := pc[f := Out], hist + [if sel.Some? then Handed(f, sel.value) else Took(f)];
      } else if owner == Some(f) {
        r := Failed(EDEADLK);
        pc := pc[f := Out];
      } else if timed && expired {
        r := Failed(ETIMEDOUT);
        pc := pc[f := Out];
      } else if ctx.NoScheduler? {
        r := Failed(EINVAL);
        pc := pc[f := Out];
      } else {
        var w := waiters.PushBack(f, thread);
        r := Waits(w);
        pc := pc[f := if timed && ctx.PlainScheduler? then Unsupported(w) else Parked(w, timed)];
      }
    }

    method TryLock(f: nat) returns (r: Outcome)
      requires Inv(waiters.View()) && At(pc, f).Out?
      modifies this
      ensures View() == Step(old(View()), Event.TryLock(f))
      ensures r == if old(owner.None? && !handoff) then Done
                   else if old(owner) == Some(f) then Failed(EDEADLK) else Failed(EBUSY)
    {
      if owner.None? && !handoff {
        owner := Some(f);
        r := Done;
        hist := hist + [Took(f)];
      } else {
        r := Failed(if owner == Some(f) then EDEADLK else EBUSY);
      }
    }

    method Unlock(f: nat) returns (r: Outcome)
      requires Inv(waiters.View()) && At(pc, f).Out?
      modifies this, waiters
      ensures Inv(waiters.View())
      ensures View() == Step(old(View()), Event.Unlock(f))
      ensures r == if old(owner) == Some(f) then Done else Failed(EPERM)
    {
      if owner != Some(f) {
        r := Failed(EPERM);
      } else {
        owner := None;
        handoff := waiters.WakeOneLocked(0);
        r := Done;
        hist := hist + [Gave(f)];
      }
    }

    method CancelWaiters(error: int) returns (count: nat)
      requires Inv(waiters.View())
      modifies waiters
      ensures Inv(waiters.View())
      ensures View() == Step(old(View()), Cancel(error))
      ensures count == old(|waiters.waiters|)
    {
      count := waiters.WakeAllLocked(error);
    }

    /** The timer callback of a parked waiter, possibly long after it was completed. */
    method OnTimeout(w: nat)
      requires Inv(waiters.View())
      modifies waiters
      ensures Inv(waiters.View())
      ensures View() == Step(old(View()), Timeout(w))
    {
      var _ := waiters.CompleteLocked(w, ETIMEDOUT);
    }

    /** The branch of a timed wait that finds no IOManager, after the guard was released. */
    method FailUnsupported(f: nat, w: nat) returns (r: Outcome)
      requires Inv(waiters.View()) && At(pc, f) == Unsupported(w)
      modifies this, waiters
      ensures Inv(waiters.View())
      ensures View() == Step(old(View()), NotSupported(f)) && r == Failed(ENOTSUP)
    {
      var _ := waiters.CompleteLocked(w, ENOTSUP);
      pc := pc[f := Out];
      r := Failed(ENOTSUP);
    }

    /** The parked fiber is resumed by the task of a record, which need not be its own, or by a task from
        outside. */
    method AfterYield(f: nat, w: nat, timed: bool, ghost task: Option<nat>) returns (error: int)
      requires Inv(waiters.View()) && At(pc, f) == Parked(w, timed) && w < |waiters.table|
      requires task.Some? ==> Undelivered(View(), task.value) && waiters.table[task.value].fiber == f
      modifies this, waiters
      ensures Inv(waiters.View())
      ensures View() == Step(old(View()), if task.Some? then Deliver(task.value) else Foreign(f))
      ensures error != 0 <==> old(w in waiters.resumes && waiters.table[w].error != 0)
      ensures w !in waiters.waiters
    {
      error := waiters.Resumed(w);
      pc := pc[f := if error == 0 then Selected(w, timed) else Out];
      if task.Some? {
        delivered := delivered + {task.value};
      }
    }
  }
}
