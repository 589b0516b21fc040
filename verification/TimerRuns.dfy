/** Whole runs of the timing wheel: any interleaving of addTimer, cancel and advanceWheel under a
    monotone clock, compared with a plain set of deadlines. */
module TimerRuns {
  import opened TimerWheels

  datatype Label =
    | Add(t: Timer)
    | Cancel(id: nat)
    | Advance(now: nat, fired: seq<Timer>, dropped: multiset<Timer>, raced: set<nat>)

  const EMPTY := State(multiset{}, multiset{}, multiset{}, multiset{}, multiset{}, {}, 0)

  /** All timers held, wheel by wheel. */
  ghost function HeldIn(s: State, k: nat): multiset<Timer> {
    if k == 0 then multiset{} else HeldIn(s, k - 1) + At(s, k - 1)
  }

  ghost function Live(s: State): multiset<Timer> {
    HeldIn(s, 5)
  }

  lemma {:induction false} LiveIsAll(s: State)
    ensures Live(s) == All(s)
  {
    assert HeldIn(s, 1) == s.w0;
    assert HeldIn(s, 2) == s.w0 + s.w1;
    assert HeldIn(s, 3) == s.w0 + s.w1 + s.w2;
    assert HeldIn(s, 4) == s.w0 + s.w1 + s.w2 + s.w3;
  }

  /** A timer just allocated: its identity belongs to no timer and was never cancelled or fired. */
  ghost predicate Fresh(s: State, t: Timer) {
    t.id !in s.cancelled && forall u :: u in Live(s) ==> u.id != t.id
  }

  ghost predicate Next(s: State, e: Label, s': State) {
    match e
    case Add(t) => Fresh(s, t) && s.clock <= s'.clock && s' == Insert(s, t, s'.clock)
    case Cancel(id) => s' == s.(cancelled := s.cancelled + {id})
    case Advance(now, fired, dropped, raced) => now <= s'.clock && Advanced(s, now, s', fired, dropped, raced)
  }

  ghost predicate StepAt(ss: seq<State>, es: seq<Label>, i: nat)
    requires i < |es| < |ss|
  {
    Next(ss[i], es[i], ss[i + 1])
  }

  ghost predicate IsRun(ss: seq<State>, es: seq<Label>) {
    && |ss| == |es| + 1 && ss[0] == EMPTY
    && forall i: nat :: i < |es| ==> StepAt(ss, es, i)
  }

  /** Each timer is in one place once, and identities are distinct. */
  ghost predicate Unique(s: State) {
    && (forall t :: t in Live(s) ==> Live(s)[t] == 1)
    && (forall t, u :: t in Live(s) && u in Live(s) && t.id == u.id ==> t == u)
  }

  function Stopped(es: seq<Label>): set<nat> {
    if es == [] then {}
    else
      var e := es[|es| - 1];
      Stopped(es[..|es| - 1]) + (if e.Cancel? then {e.id} else if e.Advance? then e.raced else {})
  }

  function FiredIds(es: seq<Label>): set<nat> {
    if es == [] then {}
    else
      var e := es[|es| - 1];
      FiredIds(es[..|es| - 1]) + (if e.Advance? then Ids(e.fired) else {})
  }

  lemma {:induction false} InsertLive(s: State, t: Timer, clock: nat)
    ensures Live(Insert(s, t, clock)) == Live(s) + multiset{t}
  {
    var p := Put(s, Level(t.next, clock), t);
    PutAll(s, Level(t.next, clock), t);
    LiveIsAll(s);
    LiveIsAll(p.(clock := clock));
    assert All(p.(clock := clock)) == All(p);
  }

  lemma {:induction false} AddUnique(s: State, t: Timer, clock: nat)
    requires Unique(s) && Fresh(s, t)
    ensures Unique(Insert(s, t, clock))
  {
    InsertLive(s, t, clock);
    assert t !in Live(s);
  }

  /** Conservation: the timers afterwards, those emitted and those dropped are those before. */
  lemma {:induction false} AdvanceConserves(s: State, e: Label, s': State, t: Timer)
    requires e.Advance? && Next(s, e, s')
    ensures Live(s)[t] == Live(s')[t] + multiset(e.fired)[t] + e.dropped[t]
  {
    LiveIsAll(s);
    LiveIsAll(s');
    assert All(s)[t] == (All(s') + (multiset(e.fired) + e.dropped))[t];
  }

  /** What an advance leaves is part of what was there, and nothing that left is still there. */
  lemma {:induction false} AdvanceUnique(s: State, e: Label, s': State)
    requires Unique(s) && e.Advance? && Next(s, e, s')
    ensures Unique(s')
    ensures forall t :: t in Live(s') ==> t in Live(s) && t.id !in Ids(e.fired)
    ensures forall t :: t in e.fired || t in e.dropped ==> t in Live(s) && t !in Live(s')
    ensures forall t :: t in Live(s) ==> t in Live(s') || t in e.fired || t in e.dropped
    ensures forall t :: t in e.dropped ==> t.id !in Ids(e.fired)
  {
    forall t ensures Live(s)[t] == Live(s')[t] + multiset(e.fired)[t] + e.dropped[t] {
      AdvanceConserves(s, e, s', t);
    }
    assert forall t :: t in e.fired <==> t in multiset(e.fired);
    forall t | t in Live(s') || t in e.dropped ensures t.id !in Ids(e.fired) {
      forall i | 0 <= i < |e.fired| ensures e.fired[i].id != t.id {
        assert e.fired[i] in multiset(e.fired) && e.fired[i] in Live(s) && e.fired[i] != t;
      }
    }
  }

  /** The flags set so far are those of fired timers and those callers asked for; no timer still
      in the wheel has fired. */
  ghost predicate Known(s: State, es: seq<Label>) {
    && Unique(s)
    && s.cancelled == Stopped(es) + FiredIds(es)
    && (forall t :: t in Live(s) ==> t.id !in FiredIds(es))
  }

  lemma {:induction false} KnownAdd(s: State, es: seq<Label>, e: Label, s': State)
    requires Known(s, es) && e.Add? && Next(s, e, s')
    ensures Known(s', es + [e])
  {
    assert (es + [e])[..|es|] == es;
    InsertLive(s, e.t, s'.clock);
    AddUnique(s, e.t, s'.clock);
    assert s'.cancelled == s.cancelled;
  }

  lemma {:induction false} KnownCancel(s: State, es: seq<Label>, e: Label, s': State)
    requires Known(s, es) && e.Cancel? && Next(s, e, s')
    ensures Known(s', es + [e])
  {
    assert (es + [e])[..|es|] == es;
    LiveIsAll(s);
    LiveIsAll(s');
    assert Live(s') == Live(s);
  }

  lemma {:induction false} KnownAdvance(s: State, es: seq<Label>, e: Label, s': State)
    requires Known(s, es) && e.Advance? && Next(s, e, s')
    ensures Known(s', es + [e])
  {
    assert (es + [e])[..|es|] == es;
    AdvanceUnique(s, e, s');
  }

  lemma {:induction false} KnownStep(s: State, es: seq<Label>, e: Label, s': State)
    requires Known(s, es) && Next(s, e, s')
    ensures Known(s', es + [e])
  {
    if e.Add? {
      KnownAdd(s, es, e, s');
    } else if e.Cancel? {
      KnownCancel(s, es, e, s');
    } else {
      KnownAdvance(s, es, e, s');
    }
  }

  lemma {:induction false} RunKnown(ss: seq<State>, es: seq<Label>, n: nat)
    requires IsRun(ss, es) && n <= |es|
    ensures Known(ss[n], es[..n])
  {
    if n > 0 {
      RunKnown(ss, es, n - 1);
      assert StepAt(ss, es, n - 1);
      KnownStep(ss[n - 1], es[..n - 1], es[n - 1], ss[n]);
      assert es[..n - 1] + [es[n - 1]] == es[..n];
    }
  }

  /** No callback runs before its deadline, and the deadline is compared with a clock reading that
      has happened by then. */
  lemma {:induction false} NeverEarly(ss: seq<State>, es: seq<Label>, i: nat, t: Timer)
    requires IsRun(ss, es) && i < |es| && es[i].Advance? && t in es[i].fired
    ensures t.next <= es[i].now <= ss[i + 1].clock
  {
    assert StepAt(ss, es, i);
  }

  lemma {:induction false} FlagsGrow(ss: seq<State>, es: seq<Label>, i: nat, j: nat)
    requires IsRun(ss, es) && i <= j <= |es|
    ensures ss[i].cancelled <= ss[j].cancelled
    decreases j
  {
    if i < j {
      FlagsGrow(ss, es, i, j - 1);
      assert StepAt(ss, es, j - 1);
    }
  }

  /** A cancel, a firing and a cancel that raced with an advance all leave the flag set. */
  lemma {:induction false} LeavesFlag(s: State, e: Label, s': State)
    requires Next(s, e, s')
    ensures e.Cancel? ==> e.id in s'.cancelled
    ensures e.Advance? ==> Ids(e.fired) <= s'.cancelled && e.raced <= s'.cancelled
  {
  }

  lemma {:induction false} FiresUnflagged(s: State, e: Label, s': State, t: Timer)
    requires Next(s, e, s') && e.Advance? && t in e.fired
    ensures t.id !in s.cancelled
  {
  }

  /** After cancel(), or after it has fired, a timer is never emitted by a later advance. */
  lemma {:induction false} NeverAfterCancel(ss: seq<State>, es: seq<Label>, i: nat, j: nat, t: Timer)
    requires IsRun(ss, es) && i < j < |es| && es[j].Advance? && t in es[j].fired
    ensures es[i].Cancel? ==> es[i].id != t.id
    ensures es[i].Advance? ==> t.id !in Ids(es[i].fired) && t.id !in es[i].raced
  {
    assert StepAt(ss, es, i);
    LeavesFlag(ss[i], es[i], ss[i + 1]);
    FlagsGrow(ss, es, i + 1, j);
    assert StepAt(ss, es, j);
    FiresUnflagged(ss[j], es[j], ss[j + 1], t);
  }

  /** ... nor twice by the same advance. */
  lemma {:induction false} NeverTwice(ss: seq<State>, es: seq<Label>, i: nat, a: nat, b: nat)
    requires IsRun(ss, es) && i < |es| && es[i].Advance? && a < b < |es[i].fired|
    ensures es[i].fired[a].id != es[i].fired[b].id
  {
    RunKnown(ss, es, i);
    assert StepAt(ss, es, i);
    FiredDistinct(ss[i], es[i], ss[i + 1], a, b);
  }

  lemma {:induction false} FiredDistinct(s: State, e: Label, s': State, a: nat, b: nat)
    requires Unique(s) && e.Advance? && Next(s, e, s') && a < b < |e.fired|
    ensures e.fired[a].id != e.fired[b].id
  {
    var f := e.fired;
    AdvanceUnique(s, e, s');
    assert f[a] in Live(s) && f[b] in Live(s);
    AdvanceConserves(s, e, s', f[b]);
    TwoPlaces(f, a, b);
  }

  lemma {:induction false} TwoPlaces(f: seq<Timer>, a: nat, b: nat)
    requires a < b < |f|
    ensures f[a] == f[b] ==> multiset(f)[f[b]] >= 2
  {
    assert f == f[..b] + [f[b]] + f[b + 1..];
    assert f[a] in f[..b];
  }

  /** A timer skipped as cancelled was cancelled by a caller. */
  lemma {:induction false} DroppedWasCancelled(ss: seq<State>, es: seq<Label>, i: nat, t: Timer)
    requires IsRun(ss, es) && i < |es| && es[i].Advance? && t in es[i].dropped
    ensures t.id in Stopped(es[..i + 1])
  {
    RunKnown(ss, es, i);
    assert StepAt(ss, es, i);
    AdvanceUnique(ss[i], es[i], ss[i + 1]);
    assert es[..i + 1][..i] == es[..i];
  }

  lemma {:induction false} StoppedGrows(es: seq<Label>, m: nat, n: nat)
    requires m <= n <= |es|
    ensures Stopped(es[..m]) <= Stopped(es[..n])
    decreases n
  {
    if m < n {
      StoppedGrows(es, m, n - 1);
      assert es[..n][..n - 1] == es[..n - 1];
    }
  }

  // ---- at most one advance late -------------------------------------------------------

  lemma {:induction false} OnePlace(s: State, t: Timer, j: nat)
    requires Unique(s) && t in s.w0 && 0 < j <= 4
    ensures t !in At(s, j)
  {
    LiveIsAll(s);
    assert t in All(s);
  }

  lemma {:induction false} Somewhere(s: State, t: Timer)
    ensures t in Live(s) <==> exists k: nat :: k < 5 && t in At(s, k)
  {
    LiveIsAll(s);
    assert At(s, 0) == s.w0 && At(s, 1) == s.w1 && At(s, 2) == s.w2 && At(s, 3) == s.w3 && At(s, 4) == s.tree;
  }

  /** t has left the wheel in one of the advances i..n-1. */
  ghost predicate LeftBetween(es: seq<Label>, i: nat, n: nat, t: Timer)
    requires n <= |es|
  {
    exists m :: i <= m < n && Leaves(es[m], t)
  }

  ghost predicate Leaves(e: Label, t: Timer) {
    e.Advance? && (t in e.fired || t in e.dropped)
  }

  /** Once due in wheel 0 a timer stays there until it leaves. */
  lemma {:induction false} WaitsInWheel0(ss: seq<State>, es: seq<Label>, i: nat, n: nat, t: Timer)
    requires IsRun(ss, es) && i < n <= |es|
    requires es[i].Advance? && t in Live(ss[i]) && t.next <= es[i].now
    ensures t in ss[n].w0 || LeftBetween(es, i, n, t)
    decreases n
  {
    var m := n - 1;
    RunKnown(ss, es, m);
    assert StepAt(ss, es, m);
    if m == i {
      StaysDue(ss[m], es[m], ss[n], t);
    } else {
      WaitsInWheel0(ss, es, i, m, t);
      if t in ss[m].w0 {
        StaysInWheel0(ss[m], es[m], ss[n], t);
      } else {
        var k :| i <= k < m && Leaves(es[k], t);
        assert Leaves(es[k], t);
      }
    }
    assert Leaves(es[m], t) ==> LeftBetween(es, i, n, t);
  }

  lemma {:induction false} StaysInWheel0(s: State, e: Label, s': State, t: Timer)
    requires Unique(s) && Next(s, e, s') && t in s.w0
    ensures t in s'.w0 || Leaves(e, t)
  {
    if e.Advance? {
      assert t in At(s, 0);
      Somewhere(s, t);
      StaysDue(s, e, s', t);
    }
  }

  lemma {:induction false} StaysDue(s: State, e: Label, s': State, t: Timer)
    requires Unique(s) && e.Advance? && Next(s, e, s') && t in Live(s)
    requires t.next <= e.now || t in s.w0
    ensures t in s'.w0 || t in e.fired || t in e.dropped
    ensures t in s.w0 && t.next <= e.now ==> t in e.fired || t in e.dropped
  {
    AdvanceUnique(s, e, s');
    if t in Live(s') {
      Somewhere(s', t);
      var k: nat :| k < 5 && t in At(s', k);
      if t in s.w0 {
        var j: nat :| k <= j <= 4 && t in At(s, j);
        if j > 0 { OnePlace(s, t, j); }
        if t.next <= e.now {
          var m: nat :| 1 <= m <= 3 && t in At(s, m);
          OnePlace(s, t, m);
        }
      }
    }
  }

  /** A live timer due at one advance has fired by the end of any later advance that it is due at,
      unless a caller cancelled it. */
  lemma {:induction false} FiresByNextAdvance(ss: seq<State>, es: seq<Label>, i: nat, j: nat, t: Timer)
    requires IsRun(ss, es) && i < j < |es| && es[i].Advance? && es[j].Advance?
    requires t in Live(ss[i]) && t.next <= es[i].now && t.next <= es[j].now
    ensures || (exists m :: i <= m <= j && es[m].Advance? && t in es[m].fired)
            || t.id in Stopped(es[..j + 1])
  {
    WaitsInWheel0(ss, es, i, j, t);
    if t in ss[j].w0 {
      Wheel0FiresAtOnce(ss, es, j, t);
    } else {
      var m :| i <= m < j && Leaves(es[m], t);
      if t in es[m].dropped {
        DroppedWasCancelled(ss, es, m, t);
        StoppedGrows(es, m + 1, j + 1);
      }
    }
  }

  /** A timer already in wheel 0 fires at the first advance it is due at. */
  lemma {:induction false} Wheel0FiresAtOnce(ss: seq<State>, es: seq<Label>, i: nat, t: Timer)
    requires IsRun(ss, es) && i < |es| && es[i].Advance? && t in ss[i].w0 && t.next <= es[i].now
    ensures t in es[i].fired || t.id in Stopped(es[..i + 1])
  {
    RunKnown(ss, es, i);
    assert StepAt(ss, es, i);
    assert t in At(ss[i], 0);
    Somewhere(ss[i], t);
    StaysDue(ss[i], es[i], ss[i + 1], t);
    if t in es[i].dropped {
      DroppedWasCancelled(ss, es, i, t);
    }
  }

  /** The one advance of delay is exactly that of the cascade: a live timer due at an advance, and not
      cancelled, fires at it if and only if it is in wheel 0 or the fallback set. */
  lemma {:induction false} FiresAtOnceIffNotInUpperWheel(ss: seq<State>, es: seq<Label>, i: nat, t: Timer)
    requires IsRun(ss, es) && i < |es| && es[i].Advance? && t in Live(ss[i]) && t.next <= es[i].now
    requires t.id !in Stopped(es[..i + 1])
    ensures t in es[i].fired <==> t in ss[i].w0 || t in ss[i].tree
    ensures t !in es[i].fired <==> t in ss[i + 1].w0
  {
    RunKnown(ss, es, i);
    assert StepAt(ss, es, i);
    AdvanceUnique(ss[i], es[i], ss[i + 1]);
    StaysDue(ss[i], es[i], ss[i + 1], t);
    if t in es[i].dropped { DroppedWasCancelled(ss, es, i, t); }
    Somewhere(ss[i + 1], t);
    assert t in ss[i + 1].w0 ==> t in At(ss[i + 1], 0);
    if t in ss[i + 1].w0 {
      var m: nat :| 1 <= m <= 3 && t in At(ss[i], m);
      TwoWheels(ss[i], t, m);
    }
  }

  lemma {:induction false} TwoWheels(s: State, t: Timer, m: nat)
    requires Unique(s) && 1 <= m <= 3 && t in At(s, m)
    ensures t !in s.w0 && t !in s.tree
  {
    LiveIsAll(s);
    assert At(s, 1) == s.w1 && At(s, 2) == s.w2 && At(s, 3) == s.w3;
    assert t in All(s);
  }

  // ---- the object ---------------------------------------------------------------------

  lemma {:induction false} NoTimers(w: Wheel)
    requires forall i :: 0 <= i < |w| ==> w[i] == []
    ensures Flatten(w) == multiset{}
    decreases |w|
  {
    if w != [] {
      NoTimers(w[..|w| - 1]);
    }
  }

  lemma {:induction false} InTree(s: State, t: Timer)
    requires t in s.tree
    ensures t in Live(s)
  {
    assert t in At(s, 4);
    Somewhere(s, t);
  }

  /** Time passes before the advance takes its clock reading. */
  lemma {:induction false} LaterClock(w: Wheels, cancelled: set<nat>, clock: nat, c: nat, e: Label, s': State)
    requires e.Advance? && clock <= c && e.now <= c
    requires Advanced(Contents(w, cancelled, c), e.now, s', e.fired, e.dropped, e.raced)
    ensures Next(Contents(w, cancelled, clock), e, s')
  {
    assert Contents(w, cancelled, c) == Contents(w, cancelled, clock).(clock := c);
    EarlierState(Contents(w, cancelled, clock), c, e, s');
  }

  lemma {:induction false} EarlierState(s: State, c: nat, e: Label, s': State)
    requires e.Advance? && s.clock <= c && e.now <= c
    requires Advanced(s.(clock := c), e.now, s', e.fired, e.dropped, e.raced)
    ensures Next(s, e, s')
  {
    PlacedClock(s, c, e.now, s');
    AccountedClock(s, c, e.now, s', e.fired, e.dropped, e.raced);
  }

  lemma {:induction false} AccountedClock(s: State, c: nat, now: nat, s': State, fired: seq<Timer>,
                                          dropped: multiset<Timer>, raced: set<nat>)
    requires Accounted(s.(clock := c), now, s', fired, dropped, raced)
    ensures Accounted(s, now, s', fired, dropped, raced)
  {
    assert All(s.(clock := c)) == All(s);
  }

  lemma {:induction false} PlacedClock(s: State, c: nat, now: nat, s': State)
    requires Placed(s.(clock := c), now, s')
    ensures Placed(s, now, s')
  {
    var u := s.(clock := c);
    forall k: nat, t | k < 5 && t in At(s', k) ensures From(s, t, k, 4) {
      var j: nat :| k <= j <= 4 && t in At(u, j);
      assert At(u, j) == At(s, j);
    }
    forall t | t in At(s', 0) && t.next <= now ensures From(s, t, 1, 3) {
      var j: nat :| 1 <= j <= 3 && t in At(u, j);
      assert At(u, j) == At(s, j);
    }
  }

  lemma {:induction false} RankedLater(w: Wheels, clock: nat, c: nat)
    requires Ranked(Held(w, clock)) && clock <= c
    ensures Ranked(Held(w, c))
  {
    forall k: nat, t | k < 4 && t in At(Held(w, c), k) ensures Level(t.next, c) <= k {
      assert t in At(Held(w, clock), k);
      LevelFalls(t.next, clock, c);
    }
  }

  class TimerManager {
    var wheels: Wheels
    var cancelled: set<nat>
    var clock: nat

    ghost function View(): State
      reads this
    {
      Contents(wheels, cancelled, clock)
    }

    ghost predicate Valid()
      reads this
    {
      WheelsOk(wheels) && Ranked(Held(wheels, clock))
    }

    constructor ()
      ensures Valid() && View() == EMPTY
    {
      var w0 := seq(256, _ => []);
      var w := seq(64, _ => []);
      wheels, cancelled, clock := Wheels(w0, w, w, w, []), {}, 0;
      NoTimers(w0);
      NoTimers(w);
    }

    /** addTimer for a timer object just allocated with identity `id`. */
    method AddTimer(id: nat, ms: nat, callable: bool) returns (t: Timer)
      requires Valid() && Fresh(View(), Timer(id, 0, callable))
      modifies this
      ensures Valid() && t.id == id && t.callable == callable && old(clock) + ms <= t.next <= clock + ms
      ensures Next(old(View()), Add(t), View())
    {
      var created: nat :| clock <= created;
      t := Timer(id, created + ms, callable);
      var w, c := InsertToWheel(wheels, t, created);
      forall u | u in wheels.tree ensures u.id != t.id {
        InTree(View(), u);
      }
      AddKeeps(wheels, t, cancelled, clock, c);
      wheels, clock := w, c;
    }

    /** cancel(): true only for the call that set the flag. */
    method CancelTimer(id: nat) returns (ok: bool)
      requires Valid()
      modifies this`cancelled
      ensures Valid() && Next(old(View()), Cancel(id), View()) && ok == old(id !in cancelled)
    {
      ok := id !in cancelled;
      cancelled := cancelled + {id};
    }

    /** listExpiredCb at any reading of the clock; other threads may have read a later one since. */
    method ListExpired(now: nat) returns (cbs: seq<nat>, ghost e: Label)
      requires Valid()
      modifies this
      ensures Valid() && e.Advance? && e.now == now && Next(old(View()), e, View())
      ensures cbs == Callbacks(e.fired)
    {
      ghost var v := View();
      var w, c, flags;
      w, c, flags, cbs, e := Expire(wheels, cancelled, clock, now);
      ghost var u := Contents(w, flags, c);
      wheels, clock, cancelled := w, c, flags;
      assert View() == u && Next(v, e, u);
    }
  }

  /** Taking the clock reading and advancing. */
  method Expire(w: Wheels, cancelled: set<nat>, clock: nat, now: nat)
    returns (w': Wheels, clock': nat, flags: set<nat>, cbs: seq<nat>, ghost e: Label)
    requires WheelsOk(w) && Ranked(Held(w, clock))
    ensures WheelsOk(w') && Ranked(Held(w', clock')) && e.Advance? && e.now == now && cbs == Callbacks(e.fired)
    ensures Next(Contents(w, cancelled, clock), e, Contents(w', flags, clock'))
  {
    var c0 := if now > clock then now else clock;
    RankedLater(w, clock, c0);
    var l;
    w', clock', l := AdvanceWheel(w, now, cancelled, c0);
    flags, cbs, e := l.cancelled, l.cbs, Advance(now, l.fired, l.dropped, l.raced);
    LaterClock(w, cancelled, clock, c0, e, Contents(w', flags, clock'));
  }

  lemma {:induction false} AddKeeps(w: Wheels, t: Timer, cancelled: set<nat>, clock: nat, c: nat)
    requires WheelsOk(w) && Ranked(Held(w, clock)) && clock <= c && forall u :: u in w.tree ==> u.id != t.id
    ensures WheelsOk(Place(w, Level(t.next, c), t))
    ensures Ranked(Held(Place(w, Level(t.next, c), t), c))
    ensures Contents(Place(w, Level(t.next, c), t), cancelled, c) == Insert(Contents(w, cancelled, clock), t, c)
  {
    PlaceKeeps(w, Level(t.next, c), t, cancelled, c);
    PlaceKeeps(w, Level(t.next, c), t, {}, c);
    InsertRanked(Held(w, clock), t, c);
  }
}
