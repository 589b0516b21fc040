/** FiberSemaphore with multi-unit requests (src/sync.cpp:219-263), over any number of fibers.
    `count_` is a uint64_t, so a signal wraps.  As in the mutex, `Deliver` runs the resume of a
    completed record, which may find its fiber parked on a later one, and `Foreign` is a resume that was
    queued elsewhere. */
module FiberSemaphores {
  import opened WaitQueues

  const WORD: nat := 0x1_0000_0000_0000_0000

  datatype Pc =
    | Out
    | Parked(w: nat, n: nat, timed: bool)      // yielded as record w, asking for n permits
    | Unsupported(w: nat)                      // queued as w, about to take the ENOTSUP branch
    | Retry(n: nat, timed: bool)               // woken, at the top of the loop

  /** `want` is the request behind each record; `granted`, `signalled` and `wraps` are totals
      over the run.  None of the four is read by the code. */
  datatype State = State(count: nat, q: Queue, pc: map<nat, Pc>, delivered: set<nat>,
                         want: seq<nat>, granted: nat, signalled: nat, wraps: nat)

  datatype Event =
    | Wait(f: nat, thread: int, n: nat, timed: bool, expired: bool, ctx: Context)
    | Signal(n: nat)
    | Cancel(error: int)
    | Timeout(w: nat)
    | NotSupported(f: nat)
    | Deliver(w: nat)
    | Foreign(f: nat)
    | Reenter(f: nat, thread: int, expired: bool)

  function Init(initial: nat): State {
    State(initial, EMPTY, map[], {}, [], 0, 0, 0)
  }

  function At(pc: map<nat, Pc>, f: nat): Pc {
    if f in pc then pc[f] else Out
  }

  /** The errors of one pass, in the order of the code; 0 if it takes the permits or waits. */
  function PassError(count: nat, n: nat, timed: bool, expired: bool, ctx: Context): int {
    if count >= n then 0 else if timed && expired then ETIMEDOUT else if ctx.NoScheduler? then EINVAL else 0
  }

  /** One iteration of the loop in wait(). */
  function Attempt(s: State, f: nat, thread: int, n: nat, timed: bool, expired: bool, ctx: Context): State {
    if s.count >= n then s.(count := s.count - n, granted := s.granted + n, pc := s.pc[f := Out])
    else if PassError(s.count, n, timed, expired, ctx) != 0 then s.(pc := s.pc[f := Out])
    else
      var w := |s.q.table|;
      s.(q := Push(s.q, f, thread), want := s.want + [n],
         pc := s.pc[f := if timed && ctx.PlainScheduler? then Unsupported(w) else Parked(w, n, timed)])
  }

  /** Fiber f is resumed.  If it is parked here it retries or fails by the error of its record. */
  function ResumeStep(s: State, f: nat): State {
    var p := At(s.pc, f);
    if p.Parked? && p.w < |s.q.table| then
      var (error, q) := AfterYield(s.q, p.w);
      s.(q := q, pc := s.pc[f := if error == 0 then Retry(p.n, p.timed) else Out])
    else s
  }

  /** The scheduler runs the resume of record w.  A fiber that has left is resumed somewhere else, and
      one that is running cannot be resumed yet. */
  function DeliverStep(s: State, w: nat): State {
    if w !in s.q.resumes || w in s.delivered || w >= |s.q.table| then s
    else
      var f := s.q.table[w].fiber;
      if At(s.pc, f).Parked? || At(s.pc, f).Out?
      then ResumeStep(s, f).(delivered := s.delivered + {w})
      else s
  }

  ghost function Step(s: State, e: Event): State
    requires Inv(s.q)
  {
    match e
    case Wait(f, thread, n, timed, expired, ctx) =>
      if n > 0 && At(s.pc, f).Out? then Attempt(s, f, thread, n, timed, expired, ctx) else s
    case Signal(n) =>
      if n == 0 then s
      else s.(count := (s.count + n) % WORD, q := WakeAll(s.q, 0), signalled := s.signalled + n,
              wraps := s.wraps + (s.count + n) / WORD)
    case Cancel(error) => s.(q := WakeAll(s.q, error))
    case Timeout(w) => s.(q := Complete(s.q, w, ETIMEDOUT))
    case NotSupported(f) =>
      if At(s.pc, f).Unsupported?
      then s.(q := Complete(s.q, At(s.pc, f).w, ENOTSUP), pc := s.pc[f := Out]) else s
    case Deliver(w) => DeliverStep(s, w)
    case Foreign(f) => ResumeStep(s, f)
    case Reenter(f, thread, expired) =>
      var p := At(s.pc, f);
      if p.Retry? then Attempt(s, f, thread, p.n, p.timed, expired, WithTimers) else s
  }

  /** Every queued request is larger than the count, and permits are conserved up to wrapping. */
  ghost predicate Safe(s: State, initial: nat) {
    && Inv(s.q)
    && |s.want| == |s.q.table|
    && s.count < WORD
    && (forall w :: w in s.q.waiters && w < |s.want| ==> s.want[w] > s.count)
    && initial + s.signalled == s.count + s.granted + s.wraps * WORD
  }

  lemma {:induction false} AttemptKeepsSafe(s: State, initial: nat, f: nat, thread: int, n: nat, timed: bool,
                                            expired: bool, ctx: Context)
    requires Safe(s, initial)
    ensures Safe(Attempt(s, f, thread, n, timed, expired, ctx), initial)
  {
    PushKeepsInv(s.q, f, thread);
  }

  lemma {:induction false} CompleteKeepsSafe(s: State, initial: nat, w: nat, error: int)
    requires Safe(s, initial)
    ensures Safe(s.(q := Complete(s.q, w, error)), initial)
  {
    CompleteKeepsInv(s.q, w, error);
    EraseSorted(s.q.waiters, w);
  }

  lemma {:induction false} StepKeepsSafe(s: State, initial: nat, e: Event)
    requires Safe(s, initial)
    ensures Safe(Step(s, e), initial)
  {
    match e
    case Wait(f, thread, n, timed, expired, ctx) =>
      AttemptKeepsSafe(s, initial, f, thread, n, timed, expired, ctx);
    case Signal(n) =>
      WakeAllDrains(s.q, 0);
    case Cancel(error) =>
      WakeAllDrains(s.q, error);
    case Timeout(w) =>
      CompleteKeepsSafe(s, initial, w, ETIMEDOUT);
    case NotSupported(f) =>
      if At(s.pc, f).Unsupported? {
        CompleteKeepsSafe(s, initial, At(s.pc, f).w, ENOTSUP);
      }
    case Deliver(w) =>
      if w < |s.q.table| && At(s.pc, s.q.table[w].fiber).Parked? {
        CompleteKeepsSafe(s, initial, At(s.pc, s.q.table[w].fiber).w, ECANCELED);
      }
    case Foreign(f) =>
      if At(s.pc, f).Parked? {
        CompleteKeepsSafe(s, initial, At(s.pc, f).w, ECANCELED);
      }
    case Reenter(f, thread, expired) =>
      var p := At(s.pc, f);
      if p.Retry? {
        AttemptKeepsSafe(s, initial, f, thread, p.n, p.timed, expired, WithTimers);
      }
  }

  ghost function Run(initial: nat, es: seq<Event>): (s: State)
    requires initial < WORD
    ensures Safe(s, initial)
  {
    if es == [] then Init(initial)
    else
      var s := Run(initial, es[..|es| - 1]);
      StepKeepsSafe(s, initial, es[|es| - 1]);
      Step(s, es[|es| - 1])
  }

  lemma {:induction false} ListedOnce(r: seq<nat>, i: nat)
    requires i < |r| && forall j, k :: 0 <= j < k < |r| ==> r[j] != r[k]
    ensures multiset(r)[r[i]] == 1
  {
    assert r == r[..i] + [r[i]] + r[i + 1..];
    assert r[i] !in r[..i] && r[i] !in r[i + 1..];
    assert multiset(r) == multiset(r[..i]) + multiset{r[i]} + multiset(r[i + 1..]);
  }

  /** Nobody is stranded: for every mix of request sizes, timeouts and cancels, a queued fiber
      asks for more than is available, and a fiber that left the queue has been resumed. */
  lemma {:induction false} NobodyStranded(initial: nat, es: seq<Event>, w: nat)
    requires initial < WORD && w < |Run(initial, es).q.table|
    ensures var s := Run(initial, es);
            if w in s.q.waiters then s.want[w] > s.count else multiset(s.q.resumes)[w] == 1
  {
    var s := Run(initial, es);
    if w !in s.q.waiters {
      assert w in s.q.resumes;
      var i :| 0 <= i < |s.q.resumes| && s.q.resumes[i] == w;
      ListedOnce(s.q.resumes, i);
    }
  }

  /** Before every signal of the run the sum fits in 64 bits. */
  ghost predicate NeverWraps(initial: nat, es: seq<Event>)
    requires initial < WORD
    decreases |es|
  {
    es == [] ||
    var n := |es| - 1;
    NeverWraps(initial, es[..n]) && (es[n].Signal? ==> Run(initial, es[..n]).count + es[n].n < WORD)
  }

  lemma {:induction false} StepWraps(s: State, e: Event)
    requires Inv(s.q) && s.count < WORD
    ensures Step(s, e).wraps >= s.wraps
    ensures Step(s, e).wraps == s.wraps <==> (e.Signal? ==> s.count + e.n < WORD)
  {
  }

  lemma {:induction false} WrapsCounted(initial: nat, es: seq<Event>)
    requires initial < WORD
    ensures Run(initial, es).wraps == 0 <==> NeverWraps(initial, es)
    decreases |es|
  {
    if es != [] {
      WrapsCounted(initial, es[..|es| - 1]);
      StepWraps(Run(initial, es[..|es| - 1]), es[|es| - 1]);
    }
  }

  /** Permits are conserved exactly when no signal wraps: what was there at the start plus what
      was signalled is what is left plus what was granted. */
  lemma {:induction false} PermitsConserved(initial: nat, es: seq<Event>)
    requires initial < WORD
    ensures var s := Run(initial, es);
            initial + s.signalled == s.count + s.granted <==> NeverWraps(initial, es)
  {
    WrapsCounted(initial, es);
  }

  lemma {:induction false} RunSnoc(initial: nat, es: seq<Event>, e: Event)
    requires initial < WORD
    ensures Run(initial, es + [e]) == Step(Run(initial, es), e)
  {
    assert (es + [e])[..|es|] == es;
  }

  /** A full semaphore signalled once more: the count wraps to 0 and 2^64 permits are gone. */
  lemma {:induction false} WrappingSignalLosesPermits(es: seq<Event>)
    requires Run(WORD - 1, es) == Init(WORD - 1)
    ensures var s := Run(WORD - 1, es + [Signal(1)]);
            s.count == 0 && s.granted == 0 && WORD - 1 + s.signalled == WORD
  {
    RunSnoc(WORD - 1, es, Signal(1));
  }

  lemma {:induction false} PermitsCanBeLost()
    ensures var s := Run(WORD - 1, [] + [Signal(1)]); WORD - 1 + s.signalled != s.count + s.granted
  {
    WrappingSignalLosesPermits([]);
  }

  /** In particular while the total fits in 64 bits. */
  lemma {:induction false} TotalBoundPreventsWrap(initial: nat, es: seq<Event>)
    requires initial < WORD && initial + Run(initial, es).signalled < WORD
    ensures NeverWraps(initial, es)
  {
    WrapsCounted(initial, es);
  }

  datatype Outcome = Taken | Failed(error: int) | Waits(w: nat)

  class FiberSemaphore {
    var count: nat
    const waiters: WaitQueue
    ghost const initial: nat
    ghost var pc: map<nat, Pc>
    ghost var delivered: set<nat>
    ghost var want: seq<nat>
    ghost var granted: nat
    ghost var signalled: nat
    ghost var wraps: nat

    ghost function View(): State
      reads this, waiters
    {
      State(count, waiters.View(), pc, delivered, want, granted, signalled, wraps)
    }

    constructor (count: nat)
      requires count < WORD
      ensures initial == count && View() == Init(count) && Safe(View(), initial) && fresh(waiters)
    {
      this.count, initial := count, count;
      waiters := new WaitQueue();
      pc, delivered, want, granted, signalled, wraps := map[], {}, [], 0, 0, 0;
    }

    /** One pass of the loop in wait(), up to the yield. */
    method WaitAttempt(f: nat, thread: int, n: nat, timed: bool, expired: bool, ctx: Context)
      returns (r: Outcome)
      requires Safe(View(), initial) && n > 0 && (At(pc, f).Out? || At(pc, f) == Retry(n, timed))
      requires At(pc, f).Retry? ==> !ctx.NoScheduler? && (timed ==> ctx.WithTimers?)
      modifies this, waiters
      ensures Safe(View(), initial)
      ensures View() == Step(old(View()), if old(At(pc, f)).Out? then Wait(f, thread, n, timed, expired, ctx)
                                          else Reenter(f, thread, expired))
      ensures r.Taken? <==> old(count) >= n
      ensures r.Failed? <==> PassError(old(count), n, timed, expired, ctx) != 0
      ensures r.Failed? ==> r.error == PassError(old(count), n, timed, expired, ctx)
      ensures waiters.waiters == if r.Waits? then old(waiters.waiters) + [r.w] else old(waiters.waiters)
      ensures count == if r.Taken? then old(count) - n else old(count)
    {
      AttemptKeepsSafe(View(), initial, f, thread, n, timed, expired, ctx);
      if count >= n {
        count := count - n;
        granted := granted + n;
        pc := pc[f := Out];
        r := Taken;
      } else if timed && expired {
        pc := pc[f := Out];
        r := Failed(ETIMEDOUT);
      } else if ctx.NoScheduler? {
        pc := pc[f := Out];
        r := Failed(EINVAL);
      } else {
        var w := waiters.PushBack(f, thread);
        want := want + [n];
        pc := pc[f := if timed && ctx.PlainScheduler? then Unsupported(w) else Parked(w, n, timed)];
        r := Waits(w);
      }
    }

    method Signal(n: nat)
      requires Safe(View(), initial)
      modifies this, waiters
      ensures Safe(View(), initial) && View() == Step(old(View()), Event.Signal(n))
      ensures n > 0 ==> waiters.waiters == []
    {
      StepKeepsSafe(View(), initial, Event.Signal(n));
      if n == 0 {
        return;
      }
      wraps := wraps + (count + n) / WORD;
      count := (count + n) % WORD;
      signalled := signalled + n;
      var _ := waiters.WakeAllLocked(0);
    }

    method CancelWaiters(error: int) returns (woken: nat)
      requires Safe(View(), initial)
      modifies waiters
      ensures Safe(View(), initial) && View() == Step(old(View()), Cancel(error))
      ensures woken == old(|waiters.waiters|)
    {
      StepKeepsSafe(View(), initial, Cancel(error));
      woken := waiters.WakeAllLocked(error);
    }
  }
}
