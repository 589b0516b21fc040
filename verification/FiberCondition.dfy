/** FiberConditionVariable over FiberMutex (src/sync.cpp:179-217), with any number of fibers waiting and
    notifying.  `wait` takes the condition's guard, releases the mutex, queues the fiber and only then
    gives the guard back; afterwards it locks the mutex again, as often as that fails with EINTR.

    Each event is one critical section of either guard.  A resume that was queued for a fiber by one of
    the two wait queues, or from elsewhere, reaches it in whichever of them it is parked by then. */
module FiberConditions {
  import opened Prelude
  import opened WaitQueues
  import M = FiberMutexes

  /** Where a fiber is inside wait(), and the scheduler it runs under. */
  datatype Pc =
    | Away                                  // not inside wait()
    | Entered                               // holds the guard and the mutex
    | Released                              // holds the guard, has released the mutex
    | Queued(w: nat, ctx: Context)          // queued as record w, until it has read its error
    | Unsupported(w: nat)                   // queued as w, about to take the ENOTSUP branch
    | Relocking(called: bool, ctx: Context) // locking the mutex again; called: mutex.lock() was called

  datatype State = State(m: M.State, q: Queue, guard: Option<nat>, pc: map<nat, Pc>, delivered: set<nat>)

  /** The timeout of a wait. */
  datatype Limit = Zero | Finite | Forever

  /** `Mutex` is any use of the mutex outside wait(), and what the scheduler and timers do for it. */
  datatype Event =
    | Mutex(e: M.Event)
    | Enter(f: nat)
    | Release(f: nat)
    | Enqueue(f: nat, thread: int, limit: Limit, ctx: Context)
    | NotSupported(f: nat)
    | NotifyOne
    | NotifyAll
    | Cancel(error: int)
    | Timeout(w: nat)
    | Deliver(w: nat)
    | Foreign(f: nat)
    | Relock(f: nat, thread: int)
    | Return(f: nat)

  const INIT := State(M.INIT, EMPTY, None, map[], {})

  function At(pc: map<nat, Pc>, f: nat): Pc {
    if f in pc then pc[f] else Away
  }

  /** f is parked in one of the two queues, or somewhere else altogether. */
  predicate Resumable(s: State, f: nat) {
    At(s.pc, f).Away? || At(s.pc, f).Queued? || M.At(s.m.pc, f).Parked?
  }

  /** A fiber inside wait() issues no lock, try_lock or unlock of its own, only a timed wait for the mutex
      has a timer, and a fiber that is running cannot be resumed. */
  predicate Enabled(s: State, e: M.Event) {
    && (e.Lock? || e.TryLock? || e.Unlock? ==> At(s.pc, e.f).Away?)
    && (e.Timeout? ==> e.w < |s.m.q.table| && M.At(s.m.pc, s.m.q.table[e.w].fiber) == M.Parked(e.w, true))
    && (e.Deliver? ==> e.w < |s.m.q.table| && Resumable(s, s.m.q.table[e.w].fiber))
    && !e.Foreign?
  }

  ghost predicate Ready(s: State) {
    Inv(s.m.q) && Inv(s.q)
  }

  function Goto(s: State, f: nat, p: Pc): State {
    s.(pc := s.pc[f := p])
  }

  /** w is the record of the last wait of f for the mutex. */
  ghost predicate Latest(m: M.State, f: nat, w: nat) {
    w < |m.q.table| && m.q.table[w].fiber == f && forall x: nat :: w < x < |m.q.table| ==> m.q.table[x].fiber != f
  }

  /** ... and it was cancelled with EINTR. */
  ghost predicate Interrupted(m: M.State, f: nat) {
    exists w: nat :: Latest(m, f, w) && m.q.table[w].error == EINTR
  }

  /** mutex.lock() has been called and has returned. */
  predicate LockReturned(s: State, f: nat) {
    At(s.pc, f).Relocking? && At(s.pc, f).called && M.At(s.m.pc, f).Out?
  }

  /** ... with EINTR.  Outside a scheduler it fails with EINVAL instead. */
  ghost predicate Retries(s: State, f: nat) {
    LockReturned(s, f) && s.m.owner != Some(f) && Interrupted(s.m, f) && !At(s.pc, f).ctx.NoScheduler?
  }

  /** mutex.lock() is called for the first time, or again because it has failed with EINTR. */
  ghost predicate CanRelock(s: State, f: nat) {
    Retries(s, f) || (At(s.pc, f).Relocking? && !At(s.pc, f).called && M.At(s.m.pc, f).Out?)
  }

  /** The loop around mutex.lock() ends. */
  ghost predicate CanReturn(s: State, f: nat) {
    LockReturned(s, f) && !Retries(s, f)
  }

  /** Fiber f, parked in the condition's queue, reads its error and goes on to lock the mutex. */
  function LeaveStep(s: State, f: nat): State {
    var p := At(s.pc, f);
    if p.Queued? && p.w < |s.q.table| && s.guard.None?
    then Goto(s, f, Relocking(false, p.ctx)).(q := AfterYield(s.q, p.w).1) else s
  }

  /** A resume of f that neither queue issued for the place it is parked at. */
  ghost function ForeignStep(s: State, f: nat): State
    requires Ready(s)
  {
    if At(s.pc, f).Queued? then LeaveStep(s, f) else s.(m := M.Step(s.m, M.Foreign(f)))
  }

  /** The resume of record w of the condition runs. */
  ghost function DeliverStep(s: State, w: nat): State
    requires Ready(s)
  {
    if w !in s.q.resumes || w in s.delivered || w >= |s.q.table| then s
    else
      var f := s.q.table[w].fiber;
      if !Resumable(s, f) || (At(s.pc, f).Queued? && s.guard.Some?) then s
      else ForeignStep(s, f).(delivered := s.delivered + {w})
  }

  /** An event of the mutex; the resume of one of its records may find the fiber in the condition's
      queue. */
  ghost function MutexStep(s: State, e: M.Event): State
    requires Ready(s)
  {
    if !Enabled(s, e) then s
    else if e.Deliver? && M.Undelivered(s.m, e.w) && At(s.pc, s.m.q.table[e.w].fiber).Queued? then
      if s.guard.Some? then s else LeaveStep(s.(m := M.Step(s.m, e)), s.m.q.table[e.w].fiber)
    else s.(m := M.Step(s.m, e))
  }

  ghost function EnqueueStep(s: State, f: nat, thread: int, limit: Limit, ctx: Context): State {
    if !At(s.pc, f).Released? then s
    else if ctx.NoScheduler? || limit.Zero? then Goto(s, f, Relocking(false, ctx)).(guard := None)
    else
      var w := |s.q.table|;
      Goto(s, f, if limit.Finite? && ctx.PlainScheduler? then Unsupported(w) else Queued(w, ctx))
        .(q := Push(s.q, f, thread), guard := None)
  }

  ghost function Step(s: State, e: Event): State
    requires Ready(s)
  {
    match e
    case Mutex(e) => MutexStep(s, e)
    case Enter(f) =>
      if At(s.pc, f).Away? && M.At(s.m.pc, f).Out? && s.m.owner == Some(f) && s.guard.None?
      then Goto(s, f, Entered).(guard := Some(f)) else s
    case Release(f) => if At(s.pc, f).Entered? then Goto(s, f, Released).(m := M.Step(s.m, M.Unlock(f))) else s
    case Enqueue(f, thread, limit, ctx) => EnqueueStep(s, f, thread, limit, ctx)
    case NotSupported(f) =>
      if At(s.pc, f).Unsupported? && s.guard.None?
      then Goto(s, f, Relocking(false, PlainScheduler)).(q := Complete(s.q, At(s.pc, f).w, ENOTSUP)) else s
    case NotifyOne => if s.guard.None? then s.(q := WakeOne(s.q, 0)) else s
    case NotifyAll => if s.guard.None? then s.(q := WakeAll(s.q, 0)) else s
    case Cancel(error) => if s.guard.None? then s.(q := WakeAll(s.q, error)) else s
    case Timeout(w) => if s.guard.None? then s.(q := Complete(s.q, w, ETIMEDOUT)) else s
    case Deliver(w) => DeliverStep(s, w)
    case Foreign(f) => ForeignStep(s, f)
    case Relock(f, thread) =>
      if CanRelock(s, f)
      then Goto(s, f, Relocking(true, At(s.pc, f).ctx))
             .(m := M.Step(s.m, M.Lock(f, thread, false, false, At(s.pc, f).ctx)))
      else s
    case Return(f) => if CanReturn(s, f) then Goto(s, f, Away) else s
  }

  lemma {:induction false} LeaveKeepsReady(s: State, f: nat)
    requires Ready(s)
    ensures Ready(LeaveStep(s, f))
  {
    if At(s.pc, f).Queued? { CompleteKeepsInv(s.q, At(s.pc, f).w, ECANCELED); }
  }

  lemma {:induction false} ForeignKeepsReady(s: State, f: nat)
    requires Ready(s)
    ensures Ready(ForeignStep(s, f))
  {
    LeaveKeepsReady(s, f);
    M.StepKeepsQueue(s.m, M.Foreign(f));
  }

  lemma {:induction false} MutexKeepsReady(s: State, e: M.Event)
    requires Ready(s)
    ensures Ready(MutexStep(s, e))
  {
    M.StepKeepsQueue(s.m, e);
    if e.Deliver? && M.Undelivered(s.m, e.w) { LeaveKeepsReady(s.(m := M.Step(s.m, e)), s.m.q.table[e.w].fiber); }
  }

  lemma {:induction false} StepKeepsReady(s: State, e: Event)
    requires Ready(s)
    ensures Ready(Step(s, e))
  {
    match e
    case Mutex(e) => MutexKeepsReady(s, e);
    case Enter(_) =>
    case Release(f) => M.StepKeepsQueue(s.m, M.Unlock(f));
    case Enqueue(f, thread, _, _) => PushKeepsInv(s.q, f, thread);
    case NotSupported(f) => if At(s.pc, f).Unsupported? { CompleteKeepsInv(s.q, At(s.pc, f).w, ENOTSUP); }
    case NotifyOne => if s.q.waiters != [] { FrontCompletes(s.q, 0); }
    case NotifyAll => WakeAllDrains(s.q, 0);
    case Cancel(error) => WakeAllDrains(s.q, error);
    case Timeout(w) => CompleteKeepsInv(s.q, w, ETIMEDOUT);
    case Deliver(w) => if w < |s.q.table| { ForeignKeepsReady(s, s.q.table[w].fiber); }
    case Foreign(f) => ForeignKeepsReady(s, f);
    case Relock(f, thread) =>
      if CanRelock(s, f) { M.StepKeepsQueue(s.m, M.Lock(f, thread, false, false, At(s.pc, f).ctx)); }
    case Return(_) =>
  }

  ghost function Run(es: seq<Event>): (s: State)
    ensures Ready(s)
  {
    if es == [] then INIT
    else
      var s := Run(es[..|es| - 1]);
      StepKeepsReady(s, es[|es| - 1]);
      Step(s, es[|es| - 1])
  }

  // ---- no notification is lost --------------------------------------------------------

  /** Between the release of the mutex and the queueing the fiber holds the guard; a fiber on a record
      owns that record. */
  ghost predicate FiberOk(s: State, f: nat) {
    var p := At(s.pc, f);
    && (p.Entered? || p.Released? ==> s.guard == Some(f))
    && (p.Queued? || p.Unsupported? ==> p.w < |s.q.table| && s.q.table[p.w].fiber == f)
  }

  ghost predicate Guarded(s: State) {
    Ready(s) && forall f: nat :: FiberOk(s, f)
  }

  lemma {:induction false} StepKeepsTable(s: State, e: Event)
    requires Ready(s)
    ensures |s.q.table| <= |Step(s, e).q.table|
    ensures forall w :: 0 <= w < |s.q.table| ==> Step(s, e).q.table[w].fiber == s.q.table[w].fiber
  {
    if e.NotifyAll? || e.Cancel? {
      var error := if e.NotifyAll? then 0 else e.error;
      WakeAllDrains(s.q, error);
      forall w: nat | w < |s.q.table| ensures WakeAll(s.q, error).table[w].fiber == s.q.table[w].fiber {
        WakeAllRecords(s.q, error, w);
      }
    }
  }

  lemma {:induction false} StepKeepsGuarded(s: State, e: Event)
    requires Guarded(s)
    ensures Guarded(Step(s, e))
  {
    var t := Step(s, e);
    StepKeepsReady(s, e);
    StepKeepsTable(s, e);
    forall f: nat ensures FiberOk(t, f) {
      assert FiberOk(s, f);
      if e.Enqueue? && At(s.pc, e.f).Released? { assert FiberOk(s, e.f); }
    }
  }

  lemma {:induction false} RunIsGuarded(es: seq<Event>)
    ensures Guarded(Run(es))
    decreases |es|
  {
    if es != [] {
      RunIsGuarded(es[..|es| - 1]);
      StepKeepsGuarded(Run(es[..|es| - 1]), es[|es| - 1]);
    } else {
      forall f: nat ensures FiberOk(INIT, f) {}
    }
  }

  /** The fiber has released the mutex inside wait() and has not been taken out of the wait yet. */
  predicate InWait(p: Pc) {
    p.Released? || p.Queued? || p.Unsupported?
  }

  /** At every moment at which a notification can take effect, each fiber that has released the mutex in
      a wait is queued or was already resumed; there is no window in which a notification passes it. */
  lemma {:induction false} NoNotifyIsLost(es: seq<Event>, f: nat)
    requires Run(es).guard.None? && InWait(At(Run(es).pc, f))
    ensures var s := Run(es); var p := At(s.pc, f);
            !p.Released? && p.w < |s.q.table| && s.q.table[p.w].fiber == f && (p.w in s.q.waiters || p.w in s.q.resumes)
  {
    RunIsGuarded(es);
    assert FiberOk(Run(es), f);
  }

  /** So notifyAll leaves nobody who released the mutex before it without a resume ... */
  lemma {:induction false} NotifyAllReachesEveryWaiter(es: seq<Event>, f: nat)
    requires Run(es).guard.None? && InWait(At(Run(es).pc, f))
    ensures var p := At(Run(es).pc, f); !p.Released? && p.w in Step(Run(es), NotifyAll).q.resumes
    ensures Step(Run(es), NotifyAll).q.waiters == []
  {
    NoNotifyIsLost(es, f);
    WakeAllDrains(Run(es).q, 0);
  }

  /** ... and notifyOne resumes the fiber that has waited longest, unless nobody waits. */
  lemma {:induction false} NotifyOneResumesTheOldest(es: seq<Event>)
    requires Run(es).guard.None? && Run(es).q.waiters != []
    ensures var s, t := Run(es), Step(Run(es), NotifyOne);
            && t.q.resumes == s.q.resumes + [s.q.waiters[0]] && t.q.waiters == s.q.waiters[1..]
            && forall w :: w in s.q.waiters ==> s.q.waiters[0] <= w
  {
    FrontCompletes(Run(es).q, 0);
  }

  // ---- wait() returns with the mutex held ---------------------------------------------

  /** The errors with which the mutex's waiters may be cancelled: 0 sends the fiber round the loop in
      lock(), EINTR round the loop in wait(). */
  predicate Gentle(error: int) {
    error == 0 || error == EINTR
  }

  /** Every wait is made under a scheduler, and the mutex's waiters are cancelled gently.  Anything else
      goes: timed locks and waits without timers, resumes from elsewhere, any cancel of the condition. */
  predicate Good(e: Event) {
    && (e.Mutex? && e.e.Cancel? ==> Gentle(e.e.error))
    && (e.Enqueue? ==> !e.ctx.NoScheduler?)
  }

  predicate AllGood(es: seq<Event>) {
    forall i :: 0 <= i < |es| ==> Good(es[i])
  }

  /** f is not in lock() and owns the mutex, or does not. */
  ghost predicate Owns(m: M.State, f: nat) {
    M.At(m.pc, f).Out? && m.owner == Some(f)
  }

  ghost predicate Without(m: M.State, f: nat) {
    M.At(m.pc, f).Out? && m.owner != Some(f)
  }

  /** f has called lock() without a timeout: it owns the mutex, was interrupted, is going round the loop,
      or is parked on its last record, which nobody completes with any other error. */
  ghost predicate Locking(m: M.State, f: nat) {
    var p := M.At(m.pc, f);
    && (p.Out? ==> m.owner == Some(f) || Interrupted(m, f))
    && !p.Unsupported?
    && (p.Parked? || p.Selected? ==> !p.timed && m.owner != Some(f))
    && (p.Parked? ==> Latest(m, f, p.w) && Mild(m.q.table[p.w]))
  }

  predicate Mild(k: Waiter) {
    k.waiting || Gentle(k.error)
  }

  /** An event of the mutex that fiber f does not issue itself. */
  predicate ByOthers(m: M.State, e: M.Event, f: nat) {
    && (e.Cancel? ==> Gentle(e.error))
    && (e.Lock? || e.TryLock? || e.Unlock? ==> e.f != f)
    && (e.Timeout? ==> e.w < |m.q.table| && M.At(m.pc, m.q.table[e.w].fiber) == M.Parked(e.w, true))
  }

  lemma {:induction false} OutsideKept(m: M.State, e: M.Event, f: nat)
    requires Inv(m.q) && ByOthers(m, e, f) && M.At(m.pc, f).Out?
    ensures M.At(M.Step(m, e).pc, f).Out?
    ensures m.owner == Some(f) <==> M.Step(m, e).owner == Some(f)
  {
  }

  /** Nobody else adds a record for f, and completed records stay as they are. */
  ghost predicate Extends(a: seq<Waiter>, b: seq<Waiter>, f: nat) {
    && |a| <= |b|
    && (forall x: nat :: x < |a| ==> b[x].fiber == a[x].fiber && (!a[x].waiting ==> b[x] == a[x]))
    && (forall x: nat :: |a| <= x < |b| ==> b[x].fiber != f)
  }

  lemma {:induction false} CancelExtends(q: Queue, error: int, f: nat)
    requires Inv(q)
    ensures Extends(q.table, WakeAll(q, error).table, f)
  {
    WakeAllDrains(q, error);
    forall x: nat | x < |q.table|
      ensures WakeAll(q, error).table[x].fiber == q.table[x].fiber
              && (!q.table[x].waiting ==> WakeAll(q, error).table[x] == q.table[x])
    {
      WakeAllRecords(q, error, x);
    }
  }

  lemma {:induction false} TableKept(m: M.State, e: M.Event, f: nat)
    requires Inv(m.q) && ByOthers(m, e, f) && !M.At(m.pc, f).Selected?
    ensures Extends(m.q.table, M.Step(m, e).q.table, f)
  {
    if e.Cancel? {
      CancelExtends(m.q, e.error, f);
    } else if e.Unlock? && m.q.waiters != [] {
      FrontCompletes(m.q, 0);
    }
  }

  lemma {:induction false} LatestKept(m: M.State, e: M.Event, f: nat, w: nat)
    requires Inv(m.q) && ByOthers(m, e, f) && !M.At(m.pc, f).Selected? && Latest(m, f, w)
    ensures Latest(M.Step(m, e), f, w)
    ensures !m.q.table[w].waiting ==> M.Step(m, e).q.table[w] == m.q.table[w]
  {
    TableKept(m, e, f);
  }

  lemma {:induction false} InterruptedKept(m: M.State, e: M.Event, f: nat)
    requires Inv(m.q) && ByOthers(m, e, f) && M.At(m.pc, f).Out? && Interrupted(m, f)
    ensures Interrupted(M.Step(m, e), f)
  {
    var w: nat :| Latest(m, f, w) && m.q.table[w].error == EINTR;
    LatestKept(m, e, f, w);
  }

  /** Event e resumes the fiber f that is parked in the mutex. */
  predicate Resumes(m: M.State, e: M.Event, f: nat) {
    || (e.Deliver? && M.Undelivered(m, e.w) && m.q.table[e.w].fiber == f)
    || (e.Foreign? && e.f == f)
  }

  /** Apart from its resume, an event leaves a parked fiber parked on a record that is still mild. */
  lemma {:induction false} MildKept(m: M.State, e: M.Event, f: nat)
    requires M.Tidy(m) && ByOthers(m, e, f) && M.At(m.pc, f).Parked? && Locking(m, f) && !Resumes(m, e, f)
    ensures M.At(M.Step(m, e).pc, f) == M.At(m.pc, f) && M.Step(m, e).owner != Some(f)
    ensures var w := M.At(m.pc, f).w; w < |M.Step(m, e).q.table| && Mild(M.Step(m, e).q.table[w])
  {
    var w := M.At(m.pc, f).w;
    assert M.FiberTidy(m, f);
    TableKept(m, e, f);
    if e.Cancel? {
      WakeAllRecords(m.q, e.error, w);
    } else if e.NotSupported? || e.Foreign? {
      assert M.FiberTidy(m, e.f);
    } else if e.Deliver? && M.Undelivered(m, e.w) {
      assert M.FiberTidy(m, m.q.table[e.w].fiber);
    }
  }

  /** Its resume sends it round a loop. */
  lemma {:induction false} ResumedKept(m: M.State, e: M.Event, f: nat)
    requires M.Tidy(m) && M.At(m.pc, f).Parked? && Locking(m, f) && Resumes(m, e, f)
    ensures Locking(M.Step(m, e), f)
  {
    var w := M.At(m.pc, f).w;
    LatestKept(m, e, f, w);
    if !m.q.table[w].waiting && m.q.table[w].error == EINTR {
      assert Interrupted(M.Step(m, e), f);
    }
  }

  lemma {:induction false} SelectedKept(m: M.State, e: M.Event, f: nat)
    requires Inv(m.q) && ByOthers(m, e, f) && M.At(m.pc, f).Selected? && Locking(m, f)
    ensures Locking(M.Step(m, e), f)
  {
  }

  lemma {:induction false} LockingKept(m: M.State, e: M.Event, f: nat)
    requires M.Tidy(m) && ByOthers(m, e, f) && Locking(m, f)
    ensures Locking(M.Step(m, e), f)
  {
    var p := M.At(m.pc, f);
    if p.Out? {
      OutsideKept(m, e, f);
      if Interrupted(m, f) { InterruptedKept(m, e, f); }
    } else if p.Selected? {
      SelectedKept(m, e, f);
    } else if Resumes(m, e, f) {
      ResumedKept(m, e, f);
    } else {
      LatestKept(m, e, f, p.w);
      MildKept(m, e, f);
    }
  }

  ghost predicate Holding(s: State, f: nat) {
    var p := At(s.pc, f);
    && (p.Entered? ==> Owns(s.m, f))
    && (p.Released? || p.Queued? || p.Unsupported? ==> Without(s.m, f))
    && (p.Queued? || p.Relocking? ==> !p.ctx.NoScheduler?)
    && (p.Relocking? ==> if p.called then Locking(s.m, f) else Without(s.m, f))
  }

  ghost predicate Safe(s: State) {
    Ready(s) && M.Tidy(s.m) && forall f: nat :: Holding(s, f)
  }

  /** An event of the mutex by somebody else keeps every fiber where its wait needs it. */
  lemma {:induction false} OthersKeep(s: State, e: M.Event, f: nat)
    requires M.Tidy(s.m) && Holding(s, f) && (!At(s.pc, f).Away? ==> ByOthers(s.m, e, f))
    ensures Holding(s.(m := M.Step(s.m, e)), f)
  {
    var p := At(s.pc, f);
    if p.Relocking? && p.called {
      LockingKept(s.m, e, f);
    } else if !p.Away? {
      OutsideKept(s.m, e, f);
    }
  }

  lemma {:induction false} OthersKeepSafe(s: State, e: M.Event)
    requires Safe(s) && forall f: nat :: !At(s.pc, f).Away? ==> ByOthers(s.m, e, f)
    ensures Safe(s.(m := M.Step(s.m, e)))
  {
    M.StepKeepsTidy(s.m, e);
    var t := s.(m := M.Step(s.m, e));
    forall f: nat ensures Holding(t, f) {
      assert Holding(s, f);
      OthersKeep(s, e, f);
    }
  }

  /** Steps that leave the mutex alone and move at most fiber f. */
  lemma {:induction false} MoveKeepsSafe(s: State, t: State, f: nat)
    requires Safe(s) && Ready(t) && t.m == s.m && Holding(t, f)
    requires forall g: nat :: g != f ==> At(t.pc, g) == At(s.pc, g)
    ensures Safe(t)
  {
    forall g: nat ensures Holding(t, g) {
      assert Holding(s, g);
    }
  }

  lemma {:induction false} LeaveKeepsSafe(s: State, f: nat)
    requires Safe(s)
    ensures Safe(LeaveStep(s, f))
  {
    LeaveKeepsReady(s, f);
    assert Holding(s, f);
    MoveKeepsSafe(s, LeaveStep(s, f), f);
  }

  lemma {:induction false} ForeignKeepsSafe(s: State, f: nat)
    requires Safe(s)
    ensures Safe(ForeignStep(s, f))
  {
    if At(s.pc, f).Queued? { LeaveKeepsSafe(s, f); } else { OthersKeepSafe(s, M.Foreign(f)); }
  }

  lemma {:induction false} MutexKeepsSafe(s: State, e: M.Event)
    requires Safe(s) && (e.Cancel? ==> Gentle(e.error))
    ensures Safe(MutexStep(s, e))
  {
    if Enabled(s, e) {
      OthersKeepSafe(s, e);
      if e.Deliver? && M.Undelivered(s.m, e.w) {
        LeaveKeepsSafe(s.(m := M.Step(s.m, e)), s.m.q.table[e.w].fiber);
      }
    }
  }

  /** lock() without a timeout under a scheduler cannot fail at once for a fiber that does not own the
      mutex. */
  lemma {:induction false} LockBegins(m: M.State, f: nat, e: M.Event)
    requires Inv(m.q) && Without(m, f) && e.Lock? && e.f == f && !e.timed && !e.ctx.NoScheduler?
    ensures Locking(M.Step(m, e), f)
  {
  }

  lemma {:induction false} ReleaseGives(m: M.State, f: nat)
    requires Inv(m.q) && Owns(m, f)
    ensures Without(M.Step(m, M.Unlock(f)), f)
  {
  }

  /** The steps in which fiber f itself unlocks or locks. */
  lemma {:induction false} OwnKeepsSafe(s: State, f: nat, p: Pc, e: M.Event)
    requires Safe(s)
    requires || (e == M.Unlock(f) && At(s.pc, f).Entered? && p.Released?)
             || (e.Lock? && e.f == f && !e.timed && CanRelock(s, f) && e.ctx == At(s.pc, f).ctx
                 && p == Relocking(true, e.ctx))
    ensures Safe(Goto(s, f, p).(m := M.Step(s.m, e)))
  {
    var t := Goto(s, f, p).(m := M.Step(s.m, e));
    M.StepKeepsTidy(s.m, e);
    assert Holding(s, f);
    forall g: nat ensures Holding(t, g) {
      assert Holding(s, g);
      if g == f {
        if e.Unlock? { ReleaseGives(s.m, f); } else { LockBegins(s.m, f, e); }
      } else {
        assert At(t.pc, g) == At(s.pc, g);
        OthersKeep(s, e, g);
        assert Holding(s.(m := M.Step(s.m, e)), g);
      }
    }
  }

  lemma {:induction false} DeliverKeepsSafe(s: State, w: nat)
    requires Safe(s)
    ensures Safe(DeliverStep(s, w))
  {
    if w < |s.q.table| && DeliverStep(s, w) != s {
      var f := s.q.table[w].fiber;
      ForeignKeepsSafe(s, f);
      assert Holding(ForeignStep(s, f), f);
      MoveKeepsSafe(ForeignStep(s, f), DeliverStep(s, w), f);
    }
  }

  /** The steps that leave the mutex alone. */
  lemma {:induction false} LocalKeepsSafe(s: State, e: Event)
    requires Safe(s) && Good(e)
    requires !e.Mutex? && !e.Release? && !e.Relock? && !e.Deliver? && !e.Foreign?
    ensures Safe(Step(s, e))
  {
    var f := if e.Enter? || e.Enqueue? || e.NotSupported? || e.Return? then e.f else 0;
    StepKeepsReady(s, e);
    assert Holding(s, f);
    MoveKeepsSafe(s, Step(s, e), f);
  }

  lemma {:induction false} StepKeepsSafe(s: State, e: Event)
    requires Safe(s) && Good(e)
    ensures Safe(Step(s, e))
  {
    if e.Mutex? {
      MutexKeepsSafe(s, e.e);
    } else if e.Release? {
      if At(s.pc, e.f).Entered? { OwnKeepsSafe(s, e.f, Released, M.Unlock(e.f)); }
    } else if e.Relock? {
      if CanRelock(s, e.f) {
        var ctx := At(s.pc, e.f).ctx;
        OwnKeepsSafe(s, e.f, Relocking(true, ctx), M.Lock(e.f, e.thread, false, false, ctx));
      }
    } else if e.Deliver? {
      DeliverKeepsSafe(s, e.w);
    } else if e.Foreign? {
      ForeignKeepsSafe(s, e.f);
    } else {
      LocalKeepsSafe(s, e);
    }
  }

  lemma {:induction false} RunIsSafe(es: seq<Event>)
    requires AllGood(es)
    ensures Safe(Run(es))
    decreases |es|
  {
    if es != [] {
      RunIsSafe(es[..|es| - 1]);
      StepKeepsSafe(Run(es[..|es| - 1]), es[|es| - 1]);
    } else {
      M.RunIsTidy([]);
      forall f: nat ensures Holding(INIT, f) {}
    }
  }

  /** wait() of f returns here without the mutex. */
  ghost predicate ReturnsWithout(s: State, f: nat) {
    CanReturn(s, f) && s.m.owner != Some(f)
  }

  /** Whatever woke it, wait() returns only while its fiber owns the mutex, and from the release until then
      its fiber does not own it. */
  lemma {:induction false} WaitReturnsHoldingTheMutex(es: seq<Event>, f: nat)
    requires AllGood(es)
    ensures InWait(At(Run(es).pc, f)) ==> Run(es).m.owner != Some(f)
    ensures !ReturnsWithout(Run(es), f)
  {
    RunIsSafe(es);
    assert Holding(Run(es), f);
  }

  // ---- exactly when it does -----------------------------------------------------------

  /** Whether a wait may be made outside a scheduler, and how the mutex's own waiters are cancelled. */
  datatype Policy = Policy(unscheduled: bool, errors: set<int>)

  predicate Allowed(p: Policy, e: Event) {
    && (e.Mutex? && e.e.Cancel? ==> e.e.error in p.errors)
    && (e.Enqueue? && e.ctx.NoScheduler? ==> p.unscheduled)
  }

  predicate AllAllowed(p: Policy, es: seq<Event>) {
    forall i :: 0 <= i < |es| ==> Allowed(p, es[i])
  }

  ghost predicate AlwaysHeld(p: Policy) {
    forall es, f: nat :: AllAllowed(p, es) ==> !ReturnsWithout(Run(es), f)
  }

  lemma {:induction false} RunSnoc(es: seq<Event>, e: Event)
    ensures Run(es + [e]) == Step(Run(es), e)
  {
    assert (es + [e])[..|es|] == es;
  }

  // The mutex while fiber 1 owns it, after fiber 1 released it, and after fiber 2 took it.
  ghost function Owned(): M.State {
    M.State(Some(1), false, EMPTY, map[1 := M.Out], {}, [M.Took(1)])
  }

  ghost function Freed(): M.State {
    M.State(None, false, EMPTY, map[1 := M.Out], {}, [M.Took(1), M.Gave(1)])
  }

  ghost function Passed(): M.State {
    M.State(Some(2), false, EMPTY, map[1 := M.Out, 2 := M.Out], {}, [M.Took(1), M.Gave(1), M.Took(2)])
  }

  ghost function OneQueued(): Queue { Queue([0], [Waiter(1, 0, true, 0)], []) }
  ghost function OneWoken(): Queue { Queue([], [Waiter(1, 0, false, 0)], [0]) }

  lemma {:induction false} Locks(s: State)
    requires s == INIT
    ensures Ready(s)
    ensures Step(s, Mutex(M.Lock(1, 0, false, false, WithTimers))) == State(Owned(), EMPTY, None, map[], {})
  {
  }

  lemma {:induction false} Enters(s: State)
    requires s == State(Owned(), EMPTY, None, map[], {})
    ensures Ready(s) && Step(s, Enter(1)) == State(Owned(), EMPTY, Some(1), map[1 := Entered], {})
  {
  }

  lemma {:induction false} Releases(s: State)
    requires s == State(Owned(), EMPTY, Some(1), map[1 := Entered], {})
    ensures Ready(s) && Step(s, Release(1)) == State(Freed(), EMPTY, Some(1), map[1 := Released], {})
  {
    assert M.Step(s.m, M.Unlock(1)) == Freed();
  }

  lemma {:induction false} Queues(s: State)
    requires s == State(Freed(), EMPTY, Some(1), map[1 := Released], {})
    ensures Ready(s)
    ensures Step(s, Enqueue(1, 0, Forever, WithTimers))
         == State(Freed(), OneQueued(), None, map[1 := Queued(0, WithTimers)], {})
  {
  }

  lemma {:induction false} OtherLocks(s: State)
    requires s == State(Freed(), OneQueued(), None, map[1 := Queued(0, WithTimers)], {})
    ensures Ready(s)
    ensures Step(s, Mutex(M.Lock(2, 0, false, false, WithTimers)))
         == State(Passed(), OneQueued(), None, map[1 := Queued(0, WithTimers)], {})
  {
  }

  lemma {:induction false} WakesOne(q: Queue)
    requires q == OneQueued()
    ensures Inv(q) && WakeOne(q, 0) == OneWoken()
  {
    FrontCompletes(q, 0);
    assert WakeOne(q, 0).table == [Waiter(1, 0, false, 0)];
  }

  lemma {:induction false} Notifies(s: State)
    requires s == State(Passed(), OneQueued(), None, map[1 := Queued(0, WithTimers)], {})
    ensures Ready(s) && Step(s, NotifyOne) == State(Passed(), OneWoken(), None, map[1 := Queued(0, WithTimers)], {})
  {
    WakesOne(s.q);
  }

  lemma {:induction false} WokenLeaves(s: State)
    requires s == State(Passed(), OneWoken(), None, map[1 := Queued(0, WithTimers)], {})
    ensures Ready(s)
    ensures Step(s, Deliver(0)) == State(Passed(), OneWoken(), None, map[1 := Relocking(false, WithTimers)], {0})
  {
    assert !CanComplete(s.q, 0);
  }

  ghost function Waited(): M.State {
    Passed().(q := OneQueued(), pc := map[1 := M.Parked(0, false), 2 := M.Out])
  }

  lemma {:induction false} LockParks(m: M.State)
    requires m == Passed()
    ensures Inv(m.q) && M.Step(m, M.Lock(1, 0, false, false, WithTimers)) == Waited()
  {
  }

  lemma {:induction false} RelockParks(s: State)
    requires s == State(Passed(), OneWoken(), None, map[1 := Relocking(false, WithTimers)], {0})
    ensures Ready(s)
    ensures Step(s, Relock(1, 0)) == State(Waited(), OneWoken(), None, map[1 := Relocking(true, WithTimers)], {0})
  {
    LockParks(s.m);
  }

  lemma {:induction false} CancelsOne(q: Queue, error: int)
    requires q == OneQueued()
    ensures Inv(q) && WakeAll(q, error) == Queue([], [Waiter(1, 0, false, error)], [0])
  {
    WakeAllDrains(q, error);
    WakeAllRecords(q, error, 0);
    assert WakeAll(q, error).table == [Waiter(1, 0, false, error)];
  }

  ghost function Cancelled(error: int): M.State {
    Waited().(q := Queue([], [Waiter(1, 0, false, error)], [0]))
  }

  lemma {:induction false} MutexCancelled(s: State, error: int)
    requires s == State(Waited(), OneWoken(), None, map[1 := Relocking(true, WithTimers)], {0})
    ensures Ready(s)
    ensures Step(s, Mutex(M.Cancel(error)))
         == State(Cancelled(error), OneWoken(), None, map[1 := Relocking(true, WithTimers)], {0})
  {
    CancelsOne(s.m.q, error);
  }

  lemma {:induction false} LockFails(s: State, error: int)
    requires s == State(Cancelled(error), OneWoken(), None, map[1 := Relocking(true, WithTimers)], {0})
    requires !Gentle(error)
    ensures Ready(s) && ReturnsWithout(Step(s, Mutex(M.Deliver(0))), 1)
  {
    assert M.Undelivered(s.m, 0);
  }

  /** Fiber 1 is notified while fiber 2 owns the mutex, and the mutex's waiters are cancelled. */
  function CancelledRun(error: int): seq<Event> {
    [] + [Mutex(M.Lock(1, 0, false, false, WithTimers))] + [Enter(1)] + [Release(1)]
    + [Enqueue(1, 0, Forever, WithTimers)] + [Mutex(M.Lock(2, 0, false, false, WithTimers))]
    + [NotifyOne] + [Deliver(0)] + [Relock(1, 0)] + [Mutex(M.Cancel(error))] + [Mutex(M.Deliver(0))]
  }

  lemma {:induction false} CancelledMutexIsNotHeld(error: int)
    requires !Gentle(error)
    ensures ReturnsWithout(Run(CancelledRun(error)), 1)
  {
    var es: seq<Event> := [];
    Locks(Run(es));
    es := Then(es, Mutex(M.Lock(1, 0, false, false, WithTimers)));
    Enters(Run(es));
    es := Then(es, Enter(1));
    Releases(Run(es));
    es := Then(es, Release(1));
    Queues(Run(es));
    es := Then(es, Enqueue(1, 0, Forever, WithTimers));
    OtherLocks(Run(es));
    es := Then(es, Mutex(M.Lock(2, 0, false, false, WithTimers)));
    Notifies(Run(es));
    es := Then(es, NotifyOne);
    WokenLeaves(Run(es));
    es := Then(es, Deliver(0));
    RelockParks(Run(es));
    es := Then(es, Relock(1, 0));
    MutexCancelled(Run(es), error);
    es := Then(es, Mutex(M.Cancel(error)));
    LockFails(Run(es), error);
    es := Then(es, Mutex(M.Deliver(0)));
    assert es == CancelledRun(error);
  }

  lemma {:induction false} Then(es: seq<Event>, e: Event) returns (fs: seq<Event>)
    ensures fs == es + [e] && Run(fs) == Step(Run(es), e)
  {
    fs := es + [e];
    RunSnoc(es, e);
  }

  lemma {:induction false} CancelledRunAllowed(p: Policy, error: int)
    requires error in p.errors
    ensures AllAllowed(p, CancelledRun(error))
  {
  }

  /** A wait outside a scheduler fails at once, and so does the lock after it if another fiber has come
      first. */
  function UnscheduledRun(): seq<Event> {
    [] + [Mutex(M.Lock(1, 0, false, false, WithTimers))] + [Enter(1)] + [Release(1)]
    + [Enqueue(1, 0, Forever, NoScheduler)] + [Mutex(M.Lock(2, 0, false, false, WithTimers))] + [Relock(1, 0)]
  }

  lemma {:induction false} FailsToQueue(s: State)
    requires s == State(Freed(), EMPTY, Some(1), map[1 := Released], {})
    ensures Ready(s)
    ensures Step(s, Enqueue(1, 0, Forever, NoScheduler))
         == State(Freed(), EMPTY, None, map[1 := Relocking(false, NoScheduler)], {})
  {
  }

  lemma {:induction false} OtherLocksFirst(s: State)
    requires s == State(Freed(), EMPTY, None, map[1 := Relocking(false, NoScheduler)], {})
    ensures Ready(s)
    ensures Step(s, Mutex(M.Lock(2, 0, false, false, WithTimers)))
         == State(Passed(), EMPTY, None, map[1 := Relocking(false, NoScheduler)], {})
  {
  }

  lemma {:induction false} RelockFails(s: State)
    requires s == State(Passed(), EMPTY, None, map[1 := Relocking(false, NoScheduler)], {})
    ensures Ready(s) && ReturnsWithout(Step(s, Relock(1, 0)), 1)
  {
    assert M.PassError(s.m, 1, false, false, NoScheduler, None) == EINVAL;
  }

  lemma {:induction false} UnscheduledWaitIsNotHeld()
    ensures ReturnsWithout(Run(UnscheduledRun()), 1)
  {
    var es: seq<Event> := [];
    Locks(Run(es));
    es := Then(es, Mutex(M.Lock(1, 0, false, false, WithTimers)));
    Enters(Run(es));
    es := Then(es, Enter(1));
    Releases(Run(es));
    es := Then(es, Release(1));
    FailsToQueue(Run(es));
    es := Then(es, Enqueue(1, 0, Forever, NoScheduler));
    OtherLocksFirst(Run(es));
    es := Then(es, Mutex(M.Lock(2, 0, false, false, WithTimers)));
    RelockFails(Run(es));
    es := Then(es, Relock(1, 0));
    assert es == UnscheduledRun();
  }

  lemma {:induction false} UnscheduledRunAllowed(p: Policy)
    requires p.unscheduled
    ensures AllAllowed(p, UnscheduledRun())
  {
  }

  lemma {:induction false} AllowedIsGood(p: Policy, es: seq<Event>)
    requires !p.unscheduled && (forall x :: x in p.errors ==> Gentle(x)) && AllAllowed(p, es)
    ensures AllGood(es)
  {
    forall i | 0 <= i < |es| ensures Good(es[i]) {
      assert Allowed(p, es[i]);
    }
  }

  /** wait() holds the mutex at every return exactly if every wait is made under a scheduler and the
      mutex's own waiters are cancelled with no error but 0 and EINTR. */
  lemma {:induction false} HeldOnReturnIffScheduledAndGentle(p: Policy)
    ensures AlwaysHeld(p) <==> !p.unscheduled && forall x :: x in p.errors ==> Gentle(x)
  {
    if p.unscheduled {
      UnscheduledWaitIsNotHeld();
      UnscheduledRunAllowed(p);
    } else if error :| error in p.errors && !Gentle(error) {
      CancelledMutexIsNotHeld(error);
      CancelledRunAllowed(p, error);
    } else {
      forall es, f: nat | AllAllowed(p, es) ensures !ReturnsWithout(Run(es), f) {
        AllowedIsGood(p, es);
        WaitReturnsHoldingTheMutex(es, f);
      }
    }
  }
}
