/** Exactly what FiberMutex needs of its callers (src/sync.cpp:62-69, 105-177): which misuse loses a
    wakeup, which one only breaks the reservation and the order, and when a mutex whose reservation was
    dropped can still be acquired. */
module FiberMutexMisuse {
  import opened Prelude
  import opened WaitQueues
  import opened FiberMutexes

  /** What may happen to the mutex: cancellation with error 0, a timed lock without timers, and resumes
      queued elsewhere for a fiber that waits here. */
  datatype Policy = Policy(zeroCancel: bool, plainTimed: bool, foreign: bool)

  predicate Allowed(p: Policy, e: Event) {
    && (e.Cancel? && e.error == 0 ==> p.zeroCancel)
    && (e.Lock? && e.timed && e.ctx.PlainScheduler? ==> p.plainTimed)
    && (e.Foreign? ==> p.foreign)
  }

  predicate AllAllowed(p: Policy, es: seq<Event>) {
    forall i :: 0 <= i < |es| ==> Allowed(p, es[i])
  }

  lemma {:induction false} AllowedSnoc(p: Policy, es: seq<Event>, e: Event)
    requires AllAllowed(p, es) && Allowed(p, e)
    ensures AllAllowed(p, es + [e])
  {
  }

  // ---- a reservation that is dropped --------------------------------------------------

  lemma {:induction false} FirstLock(es: seq<Event>, e: Event)
    requires Run(es) == INIT && e == Lock(1, 0, false, false, WithTimers)
    ensures Run(es + [e]) == State(Some(1), false, EMPTY, map[1 := Out], {}, [Took(1)])
  {
    RunSnoc(es, e);
  }

  /** Fiber 1 owns the mutex; fiber 2 is queued by a timed lock and has not reached the ENOTSUP
      branch yet. */
  ghost predicate Contended(s: State) {
    s == State(Some(1), false, Queue([0], [Waiter(2, 0, true, 0)], []),
               map[1 := Out, 2 := Unsupported(0)], {}, [Took(1)])
  }

  ghost predicate HandedOver(s: State) {
    s == State(None, true, Queue([], [Waiter(2, 0, false, 0)], [0]), map[1 := Out, 2 := Unsupported(0)], {},
               [Took(1), Gave(1)])
  }

  /** The mutex is reserved, fiber 2 has returned, and its resume is still queued. */
  ghost predicate Dropped(s: State) {
    s == State(None, true, Queue([], [Waiter(2, 0, false, 0)], [0]), map[1 := Out, 2 := Out], {}, [Took(1), Gave(1)])
  }

  lemma {:induction false} SecondLock(es: seq<Event>, e: Event)
    requires Run(es) == State(Some(1), false, EMPTY, map[1 := Out], {}, [Took(1)])
    requires e == Lock(2, 0, true, false, PlainScheduler)
    ensures Contended(Run(es + [e]))
  {
    RunSnoc(es, e);
  }

  lemma {:induction false} CompleteOnly(q: Queue, error: int)
    requires q == Queue([0], [Waiter(2, 0, true, 0)], [])
    ensures Inv(q) && Complete(q, 0, error) == Queue([], [Waiter(2, 0, false, error)], [0])
  {
    assert 0 in q.waiters && Erase([0], 0) == [];
  }

  lemma {:induction false} HandOver(es: seq<Event>)
    requires Contended(Run(es))
    ensures HandedOver(Run(es + [Unlock(1)]))
  {
    RunSnoc(es, Unlock(1));
    CompleteOnly(Run(es).q, 0);
  }

  lemma {:induction false} DropHandoff(es: seq<Event>)
    requires HandedOver(Run(es))
    ensures Dropped(Run(es + [NotSupported(2)]))
  {
    RunSnoc(es, NotSupported(2));
    assert !CanComplete(Run(es).q, 0);
  }

  /** The owner unlocks after a timed waiter outside an IOManager is queued and before it takes the
      ENOTSUP branch. */
  function DroppingRun(): seq<Event> {
    [] + [Lock(1, 0, false, false, WithTimers)] + [Lock(2, 0, true, false, PlainScheduler)]
    + [Unlock(1)] + [NotSupported(2)]
  }

  lemma {:induction false} DroppingRunState()
    ensures Dropped(Run(DroppingRun()))
  {
    var es: seq<Event> := [];
    FirstLock(es, Lock(1, 0, false, false, WithTimers));
    es := es + [Lock(1, 0, false, false, WithTimers)];
    SecondLock(es, Lock(2, 0, true, false, PlainScheduler));
    es := es + [Lock(2, 0, true, false, PlainScheduler)];
    HandOver(es);
    es := es + [Unlock(1)];
    DropHandoff(es);
    es := es + [NotSupported(2)];
    assert es == DroppingRun();
  }

  /** Reserved, and nobody is selected. */
  ghost predicate Dead(s: State) {
    Inv(s.q) && s.owner.None? && s.handoff && forall f, w :: !ChosenAs(s, f, w)
  }

  lemma {:induction false} DroppedIsDead(s: State)
    requires Dropped(s)
    ensures Dead(s)
  {
    assert forall f :: At(s.pc, f).Out?;
  }

  /** The reservation is dropped with the mutex free. */
  lemma {:induction false} TimedLockWithoutTimersDropsTheHandoff()
    ensures Dead(Run(DroppingRun())) && !NoLostWakeup(Run(DroppingRun()))
  {
    DroppingRunState();
    DroppedIsDead(Run(DroppingRun()));
  }

  lemma {:induction false} Drops(p: Policy) returns (es: seq<Event>)
    requires p.plainTimed
    ensures AllAllowed(p, es) && Dropped(Run(es))
  {
    es := DroppingRun();
    DroppingRunState();
  }

  // ---- no wakeup is lost iff timed locks have timers ----------------------------------

  ghost predicate NeverLoses(p: Policy) {
    forall es :: AllAllowed(p, es) ==> NoLostWakeup(Run(es))
  }

  /** Neither cancelling with error 0 nor a foreign resume loses a wakeup; a timed lock without timers
      does. */
  lemma {:induction false} NoWakeupLostIffTimedLocksHaveTimers(p: Policy)
    ensures NeverLoses(p) <==> !p.plainTimed
  {
    if p.plainTimed {
      TimedLockWithoutTimersDropsTheHandoff();
      assert AllAllowed(p, DroppingRun());
    } else {
      forall es | AllAllowed(p, es) ensures NoLostWakeup(Run(es)) {
        AllowedIsSupported(p, es);
        RunIsSound(es);
      }
    }
  }

  lemma {:induction false} AllowedIsSupported(p: Policy, es: seq<Event>)
    requires !p.plainTimed && AllAllowed(p, es)
    ensures AllSupported(es)
  {
    assert forall i :: 0 <= i < |es| ==> Allowed(p, es[i]);
  }

  /** Event e resumes fiber f: by a record of this mutex, or from elsewhere. */
  predicate Resumes(s: State, e: Event, f: nat) {
    (e.Deliver? && Undelivered(s, e.w) && s.q.table[e.w].fiber == f) || e == Foreign(f)
  }

  /** ... and finds it parked on a record that nobody has completed. */
  predicate FindsQueued(s: State, e: Event, f: nat) {
    Resumes(s, e, f) && var p := At(s.pc, f); p.Parked? && p.w < |s.q.table| && s.q.table[p.w].waiting
  }

  ghost predicate NeverFindsQueued(p: Policy) {
    forall es, e, f: nat :: AllAllowed(p, es + [e]) ==> !FindsQueued(Run(es), e, f)
  }

  lemma {:induction false} DroppedFiberParksAgain(es: seq<Event>, e: Event)
    requires Dropped(Run(es)) && e == Lock(2, 0, false, false, WithTimers)
    ensures var s := Run(es + [e]);
            FindsQueued(s, Deliver(0), 2) && At(s.pc, 2).w == 1 && s.owner.None? && s.hist == [Took(1), Gave(1)]
    ensures Run(es + [e]).q.table[0] == Waiter(2, 0, false, 0)
  {
    RunSnoc(es, e);
  }

  lemma {:induction false} AllowedIsUndisturbed(p: Policy, es: seq<Event>)
    requires !p.plainTimed && !p.foreign && AllAllowed(p, es)
    ensures AllUndisturbed(es)
  {
    assert forall i :: 0 <= i < |es| ==> Allowed(p, es[i]);
  }

  lemma {:induction false} UndisturbedFindsDone(p: Policy, es: seq<Event>, e: Event, f: nat)
    requires !p.plainTimed && !p.foreign && AllAllowed(p, es + [e])
    ensures !FindsQueued(Run(es), e, f)
  {
    assert Allowed(p, (es + [e])[|es|]);
    assert AllAllowed(p, es) by {
      forall i | 0 <= i < |es| ensures Allowed(p, es[i]) {
        assert (es + [e])[i] == es[i];
      }
    }
    AllowedIsUndisturbed(p, es);
    if e.Deliver? && Undelivered(Run(es), e.w) { ResumeFindsItsRecordDone(es, e.w); }
  }

  lemma {:induction false} PlainTimedFindsQueued(p: Policy)
    requires p.plainTimed
    ensures !NeverFindsQueued(p)
  {
    var e := Lock(2, 0, false, false, WithTimers);
    var es := Drops(p);
    DroppedFiberParksAgain(es, e);
    AllowedSnoc(p, es, e);
    AllowedSnoc(p, es + [e], Deliver(0));
  }

  lemma {:induction false} Parks(p: Policy) returns (es: seq<Event>)
    ensures AllAllowed(p, es) && ThreeParked(Run(es))
  {
    es := ThreeParkedRun();
    ThreeParkedState();
  }

  lemma {:induction false} ForeignFindsQueued(p: Policy)
    requires p.foreign
    ensures !NeverFindsQueued(p)
  {
    var es := Parks(p);
    assert FindsQueued(Run(es), Foreign(3), 3);
    AllowedSnoc(p, es, Foreign(3));
  }

  /** The defensive branch of waitLocked is dead exactly when timed locks have timers and nothing else
      resumes a fiber that waits here. */
  lemma {:induction false} DefensiveBranchDeadIffUndisturbed(p: Policy)
    ensures NeverFindsQueued(p) <==> !p.plainTimed && !p.foreign
  {
    if p.plainTimed {
      PlainTimedFindsQueued(p);
    } else if p.foreign {
      ForeignFindsQueued(p);
    } else {
      forall es, e, f: nat | AllAllowed(p, es + [e]) ensures !FindsQueued(Run(es), e, f) {
        UndisturbedFindsDone(p, es, e, f);
      }
    }
  }

  // ---- the reservation is exact, and the order FIFO, iff none of the three happens ------

  function ZeroCancelRun(): seq<Event> {
    [] + [Lock(1, 0, false, false, WithTimers)] + [Lock(2, 0, false, false, WithTimers)] + [Cancel(0)]
  }

  /** Fiber 3 then parks, and the owner hands the mutex to it. */
  function ReservedRun(): seq<Event> {
    ZeroCancelRun() + [Lock(3, 0, false, false, WithTimers)] + [Unlock(1)]
  }

  /** The fiber that the zero cancel selected runs first. */
  function StolenRun(): seq<Event> {
    ReservedRun() + [Deliver(0)] + [Reenter(2, 0, false)]
  }

  ghost predicate TwoParked(s: State) {
    s == State(Some(1), false, Queue([0], [Waiter(2, 0, true, 0)], []),
               map[1 := Out, 2 := Parked(0, false)], {}, [Took(1)])
  }

  ghost predicate ZeroCancelled(s: State) {
    s == State(Some(1), false, Queue([], [Waiter(2, 0, false, 0)], [0]),
               map[1 := Out, 2 := Parked(0, false)], {}, [Took(1)])
  }

  ghost predicate ThirdParked(s: State) {
    s == State(Some(1), false, Queue([1], [Waiter(2, 0, false, 0), Waiter(3, 0, true, 0)], [0]),
               map[1 := Out, 2 := Parked(0, false), 3 := Parked(1, false)], {}, [Took(1)])
  }

  ghost predicate Reserved(s: State) {
    s == State(None, true, Queue([], [Waiter(2, 0, false, 0), Waiter(3, 0, false, 0)], [0, 1]),
               map[1 := Out, 2 := Parked(0, false), 3 := Parked(1, false)], {}, [Took(1), Gave(1)])
  }

  /** An untimed lock of a mutex that is owned by another fiber parks. */
  lemma {:induction false} QueuesUp(es: seq<Event>, f: nat)
    requires At(Run(es).pc, f).Out? && Run(es).owner.Some? && Run(es).owner != Some(f)
    ensures var s := Run(es);
            Run(es + [Lock(f, 0, false, false, WithTimers)])
            == s.(pc := s.pc[f := Parked(|s.q.table|, false)], q := Push(s.q, f, 0))
  {
    RunSnoc(es, Lock(f, 0, false, false, WithTimers));
  }

  lemma {:induction false} SecondParks(es: seq<Event>, e: Event)
    requires Run(es) == State(Some(1), false, EMPTY, map[1 := Out], {}, [Took(1)])
    requires e == Lock(2, 0, false, false, WithTimers)
    ensures TwoParked(Run(es + [e]))
  {
    QueuesUp(es, 2);
  }

  lemma {:induction false} ZeroCancel(es: seq<Event>)
    requires TwoParked(Run(es))
    ensures ZeroCancelled(Run(es + [Cancel(0)]))
  {
    RunSnoc(es, Cancel(0));
    var q := Run(es).q;
    WakeAllDrains(q, 0);
    WakeAllRecords(q, 0, 0);
    assert WakeAll(q, 0).table == [Waiter(2, 0, false, 0)];
  }

  lemma {:induction false} ThirdParks(es: seq<Event>, e: Event)
    requires ZeroCancelled(Run(es)) && e == Lock(3, 0, false, false, WithTimers)
    ensures ThirdParked(Run(es + [e]))
  {
    QueuesUp(es, 3);
  }

  lemma {:induction false} CompleteThird(q: Queue)
    requires q == Queue([1], [Waiter(2, 0, false, 0), Waiter(3, 0, true, 0)], [0])
    ensures Complete(q, 1, 0) == Queue([], [Waiter(2, 0, false, 0), Waiter(3, 0, false, 0)], [0, 1])
  {
    assert 1 in q.waiters && Erase([1], 1) == [];
  }

  lemma {:induction false} Reserve(es: seq<Event>)
    requires ThirdParked(Run(es))
    ensures Reserved(Run(es + [Unlock(1)]))
  {
    RunSnoc(es, Unlock(1));
    CompleteThird(Run(es).q);
  }

  lemma {:induction false} StrayRuns(es: seq<Event>)
    requires Reserved(Run(es))
    ensures var s, t := Run(es), Run(es + [Deliver(0)]);
            && t.q == s.q && t.owner == s.owner && t.handoff
            && At(t.pc, 2) == Selected(0, false) && At(t.pc, 3) == Parked(1, false)
  {
    RunSnoc(es, Deliver(0));
    assert !CanComplete(Run(es).q, 0);
  }

  lemma {:induction false} SelectedTakes(es: seq<Event>, e: Event)
    requires Run(es).owner.None? && At(Run(es).pc, 2).Selected? && e == Reenter(2, 0, false) && ChosenAs(Run(es), 3, 1)
    ensures var t := Run(es + [e]); t.owner == Some(2) && !t.handoff && ChosenAs(t, 3, 1)
  {
    RunSnoc(es, e);
  }

  lemma {:induction false} Steal(es: seq<Event>)
    requires Reserved(Run(es))
    ensures var t := Run(es + [Deliver(0)] + [Reenter(2, 0, false)]);
            t.owner == Some(2) && !t.handoff && ChosenAs(t, 3, 1)
  {
    StrayRuns(es);
    SelectedTakes(es + [Deliver(0)], Reenter(2, 0, false));
  }

  lemma {:induction false} ZeroCancelledState()
    ensures ZeroCancelled(Run(ZeroCancelRun()))
  {
    var es: seq<Event> := [];
    FirstLock(es, Lock(1, 0, false, false, WithTimers));
    es := es + [Lock(1, 0, false, false, WithTimers)];
    SecondParks(es, Lock(2, 0, false, false, WithTimers));
    es := es + [Lock(2, 0, false, false, WithTimers)];
    ZeroCancel(es);
    assert es + [Cancel(0)] == ZeroCancelRun();
  }

  lemma {:induction false} ZeroCancelledIsInexact(s: State)
    requires ZeroCancelled(s)
    ensures ChosenAs(s, 2, 0) && !ExactReservation(s)
  {
    assert ChosenAs(s, 2, 0);
  }

  lemma {:induction false} ReservedState()
    ensures Reserved(Run(ReservedRun()))
  {
    ZeroCancelledState();
    var es := ZeroCancelRun();
    ThirdParks(es, Lock(3, 0, false, false, WithTimers));
    es := es + [Lock(3, 0, false, false, WithTimers)];
    Reserve(es);
    assert es + [Unlock(1)] == ReservedRun();
  }

  /** A cancellation with error 0 selects fiber 2 while the mutex is still owned.  The owner's unlock
      then reserves the mutex for fiber 3, and fiber 2 takes it. */
  lemma {:induction false} ZeroCancelStealsTheReservation()
    ensures ChosenAs(Run(ZeroCancelRun()), 2, 0) && Run(ZeroCancelRun()).owner == Some(1)
    ensures Run(ReservedRun()).handoff && ChosenAs(Run(ReservedRun()), 3, 1)
    ensures Run(StolenRun()).owner == Some(2) && !Run(StolenRun()).handoff && ChosenAs(Run(StolenRun()), 3, 1)
  {
    ZeroCancelledState();
    ZeroCancelledIsInexact(Run(ZeroCancelRun()));
    ReservedState();
    Steal(ReservedRun());
  }

  function ThreeParkedRun(): seq<Event> {
    [] + [Lock(1, 0, false, false, WithTimers)] + [Lock(2, 0, false, false, WithTimers)]
    + [Lock(3, 0, false, false, WithTimers)]
  }

  /** The youngest waiter is resumed from elsewhere. */
  function IntrudedRun(): seq<Event> {
    ThreeParkedRun() + [Foreign(3)]
  }

  /** The owner then hands the mutex to fiber 2, and fiber 3 takes it. */
  function OvertakenRun(): seq<Event> {
    IntrudedRun() + [Unlock(1)] + [Reenter(3, 0, false)]
  }

  ghost predicate ThreeParked(s: State) {
    s == State(Some(1), false, Queue([0, 1], [Waiter(2, 0, true, 0), Waiter(3, 0, true, 0)], []),
               map[1 := Out, 2 := Parked(0, false), 3 := Parked(1, false)], {}, [Took(1)])
  }

  ghost predicate Intruded(s: State) {
    s == State(Some(1), false, Queue([0], [Waiter(2, 0, true, 0), Waiter(3, 0, false, ECANCELED)], [1]),
               map[1 := Out, 2 := Parked(0, false), 3 := Selected(1, false)], {}, [Took(1)])
  }

  lemma {:induction false} YoungestParks(es: seq<Event>, e: Event)
    requires TwoParked(Run(es)) && e == Lock(3, 0, false, false, WithTimers)
    ensures ThreeParked(Run(es + [e]))
  {
    QueuesUp(es, 3);
  }

  lemma {:induction false} ThreeParkedState()
    ensures ThreeParked(Run(ThreeParkedRun()))
  {
    var es: seq<Event> := [];
    FirstLock(es, Lock(1, 0, false, false, WithTimers));
    es := es + [Lock(1, 0, false, false, WithTimers)];
    SecondParks(es, Lock(2, 0, false, false, WithTimers));
    es := es + [Lock(2, 0, false, false, WithTimers)];
    YoungestParks(es, Lock(3, 0, false, false, WithTimers));
    assert es + [Lock(3, 0, false, false, WithTimers)] == ThreeParkedRun();
  }

  lemma {:induction false} CompleteYoungest(q: Queue)
    requires q == Queue([0, 1], [Waiter(2, 0, true, 0), Waiter(3, 0, true, 0)], [])
    ensures Complete(q, 1, ECANCELED) == Queue([0], [Waiter(2, 0, true, 0), Waiter(3, 0, false, ECANCELED)], [1])
  {
    assert q.waiters[1] == 1 && 1 in q.waiters;
    assert Erase([1], 1) == [] && [0, 1][1..] == [1];
    assert Erase([0, 1], 1) == [0] + Erase([1], 1) == [0];
  }

  lemma {:induction false} ForeignSnoc(es: seq<Event>, f: nat)
    ensures Run(es + [Foreign(f)]) == ResumeStep(Run(es), f)
  {
    RunSnoc(es, Foreign(f));
  }

  lemma {:induction false} IntrudeStep(s: State)
    requires ThreeParked(s)
    ensures Intruded(ResumeStep(s, 3))
  {
    CompleteYoungest(s.q);
    assert At(s.pc, 3) == Parked(1, false) && AfterYield(s.q, 1).0 == 0;
  }

  lemma {:induction false} Intrude(es: seq<Event>)
    requires ThreeParked(Run(es))
    ensures Intruded(Run(es + [Foreign(3)]))
  {
    ForeignSnoc(es, 3);
    IntrudeStep(Run(es));
  }

  /** Nobody is reserved for, and yet fiber 3 is selected. */
  lemma {:induction false} IntrudedIsInexact(s: State)
    requires Intruded(s)
    ensures ChosenAs(s, 3, 1) && !ExactReservation(s)
  {
    assert ChosenAs(s, 3, 1);
  }

  lemma {:induction false} PassOver(es: seq<Event>)
    requires Intruded(Run(es))
    ensures var t := Run(es + [Unlock(1)]);
            && t.owner.None? && t.handoff && t.hist == [Took(1), Gave(1)]
            && ChosenAs(t, 2, 0) && At(t.pc, 3) == Selected(1, false)
            && |t.q.table| == 2 && t.q.table[0] == Waiter(2, 0, false, 0)
  {
    RunSnoc(es, Unlock(1));
    assert 0 in Run(es).q.waiters;
  }

  lemma {:induction false} Intrudes(p: Policy) returns (es: seq<Event>)
    requires p.foreign
    ensures AllAllowed(p, es) && Intruded(Run(es))
  {
    es := IntrudedRun();
    ThreeParkedState();
    Intrude(ThreeParkedRun());
  }

  /** A selected fiber takes a free mutex while an earlier record is still to be served. */
  lemma {:induction false} TakesAhead(es: seq<Event>, f: nat, w: nat, v: nat)
    requires var s := Run(es);
             && s.owner.None? && At(s.pc, f) == Selected(w, false) && v < w && v < |s.q.table|
             && s.q.table[v].error == 0 && Handed(s.q.table[v].fiber, v) !in s.hist
    ensures var t := Run(es + [Reenter(f, 0, false)]); t.owner == Some(f) && !t.handoff && !InParkOrder(t)
    ensures Run(es + [Reenter(f, 0, false)]).q == Run(es).q
    ensures forall g: nat :: g != f ==> At(Run(es + [Reenter(f, 0, false)]).pc, g) == At(Run(es).pc, g)
  {
    RunSnoc(es, Reenter(f, 0, false));
    var s, t := Run(es), Run(es + [Reenter(f, 0, false)]);
    assert t.hist == s.hist + [Handed(f, w)];
    assert !EarlierServed(t, |s.hist|, v);
  }

  /** A resume from elsewhere selects fiber 3 while the mutex is owned; when the owner reserves it for
      fiber 2, fiber 3 takes it and overtakes. */
  lemma {:induction false} ForeignResumeOvertakes()
    ensures ChosenAs(Run(IntrudedRun()), 3, 1) && Run(IntrudedRun()).owner == Some(1)
    ensures var s := Run(OvertakenRun()); s.owner == Some(3) && !s.handoff && ChosenAs(s, 2, 0) && !InParkOrder(s)
  {
    ThreeParkedState();
    Intrude(ThreeParkedRun());
    IntrudedIsInexact(Run(IntrudedRun()));
    PassOver(IntrudedRun());
    TakesAhead(IntrudedRun() + [Unlock(1)], 3, 1, 0);
  }

  predicate WellUsed(p: Policy) {
    !p.zeroCancel && !p.plainTimed && !p.foreign
  }

  ghost predicate AlwaysExact(p: Policy) {
    forall es :: AllAllowed(p, es) ==> ExactReservation(Run(es))
  }

  lemma {:induction false} AllowedIsGood(p: Policy, es: seq<Event>)
    requires WellUsed(p) && AllAllowed(p, es)
    ensures AllGood(es)
  {
    assert forall i :: 0 <= i < |es| ==> Allowed(p, es[i]);
  }

  lemma {:induction false} PlainTimedIsInexact(p: Policy)
    requires p.plainTimed
    ensures !AlwaysExact(p)
  {
    var es := Drops(p);
    DroppedIsDead(Run(es));
    assert !ExactReservation(Run(es));
  }

  lemma {:induction false} ZeroCancelIsInexact(p: Policy)
    requires p.zeroCancel
    ensures !AlwaysExact(p)
  {
    ZeroCancelledState();
    ZeroCancelledIsInexact(Run(ZeroCancelRun()));
    assert AllAllowed(p, ZeroCancelRun());
  }

  lemma {:induction false} ForeignIsInexact(p: Policy)
    requires p.foreign
    ensures !AlwaysExact(p)
  {
    var es := Intrudes(p);
    IntrudedIsInexact(Run(es));
  }

  lemma {:induction false} ReservationExactIffWellUsed(p: Policy)
    ensures AlwaysExact(p) <==> WellUsed(p)
  {
    if p.plainTimed {
      PlainTimedIsInexact(p);
    } else if p.zeroCancel {
      ZeroCancelIsInexact(p);
    } else if p.foreign {
      ForeignIsInexact(p);
    } else {
      forall es | AllAllowed(p, es) ensures ExactReservation(Run(es)) {
        AllowedIsGood(p, es);
        RunIsSafe(es);
      }
    }
  }

  ghost predicate AlwaysInOrder(p: Policy) {
    forall es :: AllAllowed(p, es) ==> InParkOrder(Run(es))
  }

  lemma {:induction false} YoungerRuns(es: seq<Event>)
    requires Reserved(Run(es))
    ensures var t := Run(es + [Deliver(1)]);
            && t.owner.None? && At(t.pc, 3) == Selected(1, false) && t.hist == [Took(1), Gave(1)]
            && |t.q.table| == 2 && t.q.table[0] == Waiter(2, 0, false, 0)
  {
    RunSnoc(es, Deliver(1));
    assert !CanComplete(Run(es).q, 1);
  }

  /** Fiber f of record w, selected, takes the mutex ahead of record v. */
  lemma {:induction false} BreaksOrder(p: Policy, es: seq<Event>, f: nat, w: nat, v: nat)
    requires AllAllowed(p, es)
    requires var s := Run(es);
             && s.owner.None? && At(s.pc, f) == Selected(w, false) && v < w && v < |s.q.table|
             && s.q.table[v].error == 0 && Handed(s.q.table[v].fiber, v) !in s.hist
    ensures !AlwaysInOrder(p)
  {
    TakesAhead(es, f, w, v);
    AllowedSnoc(p, es, Reenter(f, 0, false));
  }

  lemma {:induction false} TwoSelected(p: Policy) returns (es: seq<Event>)
    requires p.zeroCancel
    ensures AllAllowed(p, es) && Reserved(Run(es))
  {
    es := ReservedRun();
    ReservedState();
  }

  /** Two fibers selected at once re-enter in any order. */
  lemma {:induction false} ZeroCancelBreaksOrder(p: Policy)
    requires p.zeroCancel
    ensures !AlwaysInOrder(p)
  {
    var es := TwoSelected(p);
    YoungerRuns(es);
    AllowedSnoc(p, es, Deliver(1));
    BreaksOrder(p, es + [Deliver(1)], 3, 1, 0);
  }

  lemma {:induction false} StraySelects(es: seq<Event>)
    requires var s := Run(es);
             && FindsQueued(s, Deliver(0), 2) && At(s.pc, 2) == Parked(1, false) && s.owner.None?
             && s.q.table[0] == Waiter(2, 0, false, 0) && s.hist == [Took(1), Gave(1)]
    ensures var t := Run(es + [Deliver(0)]);
            && t.owner.None? && At(t.pc, 2) == Selected(1, false) && t.hist == [Took(1), Gave(1)]
            && |t.q.table| > 1 && t.q.table[0] == Waiter(2, 0, false, 0)
  {
    RunSnoc(es, Deliver(0));
  }

  /** The fiber that dropped its reservation comes back as a later record. */
  lemma {:induction false} PlainTimedBreaksOrder(p: Policy)
    requires p.plainTimed
    ensures !AlwaysInOrder(p)
  {
    var e := Lock(2, 0, false, false, WithTimers);
    var es := Drops(p);
    DroppedFiberParksAgain(es, e);
    AllowedSnoc(p, es, e);
    StraySelects(es + [e]);
    AllowedSnoc(p, es + [e], Deliver(0));
    BreaksOrder(p, es + [e] + [Deliver(0)], 2, 1, 0);
  }

  lemma {:induction false} ForeignBreaksOrder(p: Policy)
    requires p.foreign
    ensures !AlwaysInOrder(p)
  {
    var es := Intrudes(p);
    PassOver(es);
    AllowedSnoc(p, es, Unlock(1));
    BreaksOrder(p, es + [Unlock(1)], 3, 1, 0);
  }

  /** Waiters acquire in park order in every run exactly under the same three conditions. */
  lemma {:induction false} FifoIffWellUsed(p: Policy)
    ensures AlwaysInOrder(p) <==> WellUsed(p)
  {
    if p.plainTimed {
      PlainTimedBreaksOrder(p);
    } else if p.zeroCancel {
      ZeroCancelBreaksOrder(p);
    } else if p.foreign {
      ForeignBreaksOrder(p);
    } else {
      forall es | AllAllowed(p, es) ensures InParkOrder(Run(es)) {
        AllowedIsGood(p, es);
        AcquiresInParkOrder(es);
      }
    }
  }

  // ---- when a dropped reservation is the end of the mutex -----------------------------

  /** A queued resume whose fiber is no longer parked on that record. */
  ghost predicate Stray(s: State, w: nat) {
    Undelivered(s, w) && !(At(s.pc, s.q.table[w].fiber).Parked? && At(s.pc, s.q.table[w].fiber).w == w)
  }

  /** A stray resume is queued, or a fiber is about to leave one behind in the ENOTSUP branch. */
  ghost predicate Rescuable(s: State) {
    (exists w: nat :: Stray(s, w)) || exists f: nat :: At(s.pc, f).Unsupported?
  }

  ghost predicate DeadAndBuried(s: State) {
    Dead(s) && Tidy(s) && !Rescuable(s)
  }

  /** Completing a queued record of a fiber that stays parked on it leaves no stray behind. */
  lemma {:induction false} CompleteKeepsBuried(s: State, w: nat, error: int)
    requires DeadAndBuried(s) && error != 0
    ensures DeadAndBuried(s.(q := Complete(s.q, w, error)))
  {
    var t := s.(q := Complete(s.q, w, error));
    CompleteKeepsTidy(s, w, error);
    forall f: nat, x: nat ensures !ChosenAs(t, f, x) {
      assert !ChosenAs(s, f, x);
    }
    forall x: nat ensures !Stray(t, x) {
      assert !Stray(s, x);
      if x == w && CanComplete(s.q, w) {
        assert On(At(s.pc, s.q.table[w].fiber), w);
      }
    }
  }

  lemma {:induction false} CancelKeepsBuried(s: State, error: int)
    requires DeadAndBuried(s) && error != 0
    ensures DeadAndBuried(s.(q := WakeAll(s.q, error)))
    decreases |s.q.waiters|
  {
    if s.q.waiters != [] {
      var t := s.(q := WakeOne(s.q, error));
      FrontCompletes(s.q, error);
      CompleteKeepsBuried(s, s.q.waiters[0], error);
      CancelKeepsBuried(t, error);
      assert s.(q := WakeAll(s.q, error)) == t.(q := WakeAll(t.q, error));
    } else {
      assert s.(q := WakeAll(s.q, error)) == s;
    }
  }

  lemma {:induction false} LockKeepsBuried(s: State, f: nat, thread: int, timed: bool, expired: bool, ctx: Context)
    requires DeadAndBuried(s) && At(s.pc, f).Out? && (timed ==> !ctx.PlainScheduler?)
    ensures DeadAndBuried(Attempt(s, f, thread, timed, expired, ctx, None))
  {
    var t := Attempt(s, f, thread, timed, expired, ctx, None);
    AttemptKeepsTidy(s, f, thread, timed, expired, ctx, None);
    assert forall g: nat :: g != f ==> At(t.pc, g) == At(s.pc, g);
    forall g: nat, x: nat ensures !ChosenAs(t, g, x) {
      assert !ChosenAs(s, g, x);
      assert FiberTidy(s, g);
    }
    forall x: nat ensures !Stray(t, x) {
      assert !Stray(s, x);
    }
    forall g: nat ensures !At(t.pc, g).Unsupported? {
      assert !At(s.pc, g).Unsupported?;
    }
  }

  lemma {:induction false} DeliverKeepsBuried(s: State, w: nat)
    requires DeadAndBuried(s)
    ensures DeadAndBuried(DeliverStep(s, w))
  {
    var t := DeliverStep(s, w);
    DeliverKeepsTidy(s, w);
    if Undelivered(s, w) {
      var f := s.q.table[w].fiber;
      assert !Stray(s, w) && !ChosenAs(s, f, w);
      assert !CanComplete(s.q, w);
      assert t == Goto(s, f, Out).(delivered := s.delivered + {w});
      assert forall g: nat :: g != f ==> At(t.pc, g) == At(s.pc, g);
      forall g: nat, x: nat ensures !ChosenAs(t, g, x) {
        assert !ChosenAs(s, g, x);
      }
      forall x: nat ensures !Stray(t, x) {
        assert !Stray(s, x);
      }
      forall g: nat ensures !At(t.pc, g).Unsupported? {
        assert !At(s.pc, g).Unsupported?;
      }
    }
  }

  lemma {:induction false} StepKeepsBuried(s: State, e: Event)
    requires DeadAndBuried(s) && Good(e)
    ensures DeadAndBuried(Step(s, e))
  {
    match e
    case Lock(f, thread, timed, expired, ctx) =>
      if At(s.pc, f).Out? { LockKeepsBuried(s, f, thread, timed, expired, ctx); }
    case TryLock(_) =>
    case Unlock(_) =>
    case Cancel(error) => CancelKeepsBuried(s, error);
    case Timeout(w) => CompleteKeepsBuried(s, w, ETIMEDOUT);
    case NotSupported(f) => assert !At(s.pc, f).Unsupported?;
    case Deliver(w) => DeliverKeepsBuried(s, w);
    case Reenter(f, _, _) =>
      assert At(s.pc, f).Selected? ==> ChosenAs(s, f, At(s.pc, f).w);
  }

  lemma {:induction false} BuriedStays(es: seq<Event>, later: seq<Event>)
    requires DeadAndBuried(Run(es)) && AllGood(later)
    ensures DeadAndBuried(Run(es + later))
    decreases |later|
  {
    if later == [] {
      assert es + later == es;
    } else {
      var n := |later| - 1;
      BuriedStays(es, later[..n]);
      BuriedSnoc(es + later[..n], later[n]);
      assert es + later[..n] + [later[n]] == es + later;
    }
  }

  lemma {:induction false} BuriedSnoc(es: seq<Event>, e: Event)
    requires DeadAndBuried(Run(es)) && Good(e)
    ensures DeadAndBuried(Run(es + [e]))
  {
    RunSnoc(es, e);
    StepKeepsBuried(Run(es), e);
  }

  /** From now on callers behave, and only fibers in `outside` may be resumed from elsewhere. */
  predicate Behaves(e: Event, outside: set<nat>) {
    if e.Foreign? then e.f in outside else Good(e)
  }

  ghost predicate Continues(es: seq<Event>, fs: seq<Event>, outside: set<nat>) {
    es <= fs && forall i :: |es| <= i < |fs| ==> Behaves(fs[i], outside)
  }

  /** Some such continuation acquires the mutex. */
  ghost predicate Acquirable(es: seq<Event>, outside: set<nat>) {
    exists fs :: Continues(es, fs, outside) && Run(fs).owner.Some?
  }

  lemma {:induction false} OneStepSooner(es: seq<Event>, e: Event, outside: set<nat>)
    requires Acquirable(es + [e], outside) && Behaves(e, outside)
    ensures Acquirable(es, outside)
  {
    var fs :| Continues(es + [e], fs, outside) && Run(fs).owner.Some?;
    assert fs[|es|] == (es + [e])[|es|] == e;
    assert es <= fs;
    assert Continues(es, fs, outside);
  }

  /** A fiber selected while the mutex is free acquires it. */
  lemma {:induction false} SelectedAcquires(es: seq<Event>, f: nat, outside: set<nat>)
    requires At(Run(es).pc, f).Selected? && Run(es).owner.None?
    ensures Acquirable(es, outside)
  {
    var e := Reenter(f, 0, false);
    RunSnoc(es, e);
    assert Continues(es, es + [e], outside);
  }

  /** A resume that finds its fiber queued selects it. */
  lemma {:induction false} QueuedAcquires(es: seq<Event>, e: Event, f: nat, outside: set<nat>)
    requires Run(es).owner.None? && FindsQueued(Run(es), e, f) && Behaves(e, outside)
    ensures Acquirable(es, outside)
  {
    RunSnoc(es, e);
    SelectedAcquires(es + [e], f, outside);
    OneStepSooner(es, e, outside);
  }

  /** The fiber of a stray or foreign resume locks again, parks, and is resumed by it. */
  lemma {:induction false} LocksAgain(es: seq<Event>, e: Event, f: nat, outside: set<nat>)
    requires Dead(Run(es)) && Resumes(Run(es), e, f) && At(Run(es).pc, f).Out? && Behaves(e, outside)
    ensures Acquirable(es, outside)
  {
    var s, lock := Run(es), Lock(f, 0, false, false, WithTimers);
    RunSnoc(es, lock);
    assert Run(es + [lock]) == Goto(s, f, Parked(|s.q.table|, false)).(q := Push(s.q, f, 0));
    QueuedAcquires(es + [lock], e, f, outside);
    OneStepSooner(es, lock, outside);
  }

  /** The ENOTSUP branch leaves the mutex dead and the resume of its record queued. */
  lemma {:induction false} UnsupportedLeavesStray(s: State, f: nat)
    requires Tidy(s) && Dead(s) && At(s.pc, f).Unsupported?
    ensures var t := Step(s, NotSupported(f)); Dead(t) && At(t.pc, f).Out?
    ensures var t, w := Step(s, NotSupported(f)), At(s.pc, f).w; Undelivered(t, w) && t.q.table[w].fiber == f
  {
    var t, w := Step(s, NotSupported(f)), At(s.pc, f).w;
    assert FiberTidy(s, f);
    CompleteKeepsInv(s.q, w, ENOTSUP);
    forall g: nat, x: nat ensures !ChosenAs(t, g, x) {
      assert !ChosenAs(s, g, x);
    }
  }

  /** A stray resume that finds its fiber failing leaves that record's own resume as a stray. */
  lemma {:induction false} FailureLeavesStray(s: State, w: nat)
    requires Tidy(s) && Dead(s) && Undelivered(s, w)
    requires var p := At(s.pc, s.q.table[w].fiber);
             p.Parked? && p.w != w && p.w < |s.q.table| && !s.q.table[p.w].waiting
    ensures var f, t := s.q.table[w].fiber, DeliverStep(s, w); Dead(t) && At(t.pc, f).Out?
    ensures var f, t := s.q.table[w].fiber, DeliverStep(s, w);
            Undelivered(t, At(s.pc, f).w) && t.q.table[At(s.pc, f).w].fiber == f
  {
    var f, t := s.q.table[w].fiber, DeliverStep(s, w);
    var x := At(s.pc, f).w;
    assert FiberTidy(s, f);
    assert !ChosenAs(s, f, x) && !CanComplete(s.q, x);
    assert t == Goto(s, f, Out).(delivered := s.delivered + {w});
    forall g: nat, y: nat ensures !ChosenAs(t, g, y) {
      assert !ChosenAs(s, g, y);
    }
  }

  lemma {:induction false} UnsupportedRescues(es: seq<Event>, f: nat, outside: set<nat>)
    requires Dead(Run(es)) && At(Run(es).pc, f).Unsupported?
    ensures Acquirable(es, outside)
  {
    RunIsTidy(es);
    UnsupportedLeavesStray(Run(es), f);
    RunSnoc(es, NotSupported(f));
    LocksAgain(es + [NotSupported(f)], Deliver(At(Run(es).pc, f).w), f, outside);
    OneStepSooner(es, NotSupported(f), outside);
  }

  lemma {:induction false} StrayRescues(es: seq<Event>, w: nat, outside: set<nat>)
    requires Dead(Run(es)) && Stray(Run(es), w)
    ensures Acquirable(es, outside)
  {
    RunIsTidy(es);
    var s := Run(es);
    var f := s.q.table[w].fiber;
    var p := At(s.pc, f);
    assert FiberTidy(s, f);
    assert p.Selected? ==> ChosenAs(s, f, p.w);
    if p.Unsupported? {
      UnsupportedRescues(es, f, outside);
    } else if p.Out? {
      LocksAgain(es, Deliver(w), f, outside);
    } else if s.q.table[p.w].waiting {
      QueuedAcquires(es, Deliver(w), f, outside);
    } else {
      FailureLeavesStray(s, w);
      RunSnoc(es, Deliver(w));
      LocksAgain(es + [Deliver(w)], Deliver(p.w), f, outside);
      OneStepSooner(es, Deliver(w), outside);
    }
  }

  /** A foreign resume that finds its fiber failing leaves the mutex as dead as it was. */
  lemma {:induction false} ForeignFailureStaysDead(s: State, f: nat)
    requires Tidy(s) && Dead(s) && At(s.pc, f).Parked? && !FindsQueued(s, Foreign(f), f)
    ensures var t := Step(s, Foreign(f)); Dead(t) && At(t.pc, f).Out?
  {
    var t, x := Step(s, Foreign(f)), At(s.pc, f).w;
    assert FiberTidy(s, f);
    assert !ChosenAs(s, f, x) && !CanComplete(s.q, x);
    assert t == Goto(s, f, Out);
    forall g: nat, y: nat ensures !ChosenAs(t, g, y) {
      assert !ChosenAs(s, g, y);
    }
  }

  lemma {:induction false} ForeignRescues(es: seq<Event>, f: nat, outside: set<nat>)
    requires Dead(Run(es)) && f in outside
    ensures Acquirable(es, outside)
  {
    RunIsTidy(es);
    var s := Run(es);
    var p := At(s.pc, f);
    assert p.Selected? ==> ChosenAs(s, f, p.w);
    if p.Unsupported? {
      UnsupportedRescues(es, f, outside);
    } else if p.Out? {
      LocksAgain(es, Foreign(f), f, outside);
    } else if FindsQueued(s, Foreign(f), f) {
      QueuedAcquires(es, Foreign(f), f, outside);
    } else {
      ForeignFailureStaysDead(s, f);
      RunSnoc(es, Foreign(f));
      LocksAgain(es + [Foreign(f)], Foreign(f), f, outside);
      OneStepSooner(es, Foreign(f), outside);
    }
  }

  lemma {:induction false} BuriedIsLost(es: seq<Event>, fs: seq<Event>)
    requires DeadAndBuried(Run(es)) && Continues(es, fs, {})
    ensures Run(fs).owner.None?
  {
    var later := fs[|es|..];
    assert forall i :: 0 <= i < |later| ==> later[i] == fs[|es| + i];
    BuriedStays(es, later);
    assert es + later == fs;
  }

  /** A mutex whose reservation was dropped can be acquired again, by callers that now behave, exactly
      when a stray resume is queued or about to be, or some fiber may be resumed from elsewhere: the
      fiber then comes back through the mutex as if it had been selected. */
  lemma {:induction false} DeadMutexAcquirableIffRescuable(es: seq<Event>, outside: set<nat>)
    requires Dead(Run(es))
    ensures Acquirable(es, outside) <==> Rescuable(Run(es)) || outside != {}
  {
    RunIsTidy(es);
    if f: nat :| At(Run(es).pc, f).Unsupported? {
      UnsupportedRescues(es, f, outside);
    } else if w: nat :| Stray(Run(es), w) {
      StrayRescues(es, w, outside);
    } else if f :| f in outside {
      ForeignRescues(es, f, outside);
    } else {
      assert outside == {};
      forall fs | Continues(es, fs, outside) ensures Run(fs).owner.None? {
        BuriedIsLost(es, fs);
      }
    }
  }

  lemma {:induction false} DroppedHasStray(s: State)
    requires Dropped(s)
    ensures Stray(s, 0)
  {
  }

  lemma {:induction false} StrayLands(es: seq<Event>)
    requires Dropped(Run(es))
    ensures var s := Run(es + [Deliver(0)]);
            s == Run(es).(delivered := {0})
  {
    RunSnoc(es, Deliver(0));
    assert At(Run(es).pc, 2).Out? && Undelivered(Run(es), 0);
  }

  lemma {:induction false} LandedIsBuried(s: State)
    requires s == State(None, true, Queue([], [Waiter(2, 0, false, 0)], [0]), map[1 := Out, 2 := Out], {0},
                        [Took(1), Gave(1)])
    ensures Dead(s) && !Rescuable(s)
  {
    assert forall f :: At(s.pc, f).Out?;
    forall w: nat ensures !Stray(s, w) {}
  }

  /** The dropping run both ways: while the stray resume is queued fiber 2 can still acquire by locking
      again; once that resume has reached fiber 2 somewhere else, only a fiber that is resumed from
      elsewhere can. */
  lemma {:induction false} DroppedMutexDiesWhenTheStrayLands(outside: set<nat>)
    ensures Dead(Run(DroppingRun())) && Acquirable(DroppingRun(), outside)
    ensures Dead(Run(DroppingRun() + [Deliver(0)]))
    ensures Acquirable(DroppingRun() + [Deliver(0)], outside) <==> outside != {}
  {
    DroppingRunState();
    DroppedIsDead(Run(DroppingRun()));
    DroppedHasStray(Run(DroppingRun()));
    DeadMutexAcquirableIffRescuable(DroppingRun(), outside);
    StrayLands(DroppingRun());
    LandedIsBuried(Run(DroppingRun() + [Deliver(0)]));
    DeadMutexAcquirableIffRescuable(DroppingRun() + [Deliver(0)], outside);
  }
}
