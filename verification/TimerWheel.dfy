/** The timing wheel (src/timer.cpp:5-183): four wheels of slots and an ordered fallback set.

    A timer is a value with an identity; the flag `cancelled_` that the source keeps in each timer
    is the set `cancelled` of identities here.  `cancelled_` is atomic and is set without the
    manager's lock, so an advance may see it set at any moment: every read below first admits an
    arbitrary set of racing cancellations.  Timers are one-shot. */
module TimerWheels {
  import opened Prelude

  datatype Timer = Timer(id: nat, next: nat, callable: bool)
  type Wheel = seq<seq<Timer>>

  // ---- Timer::Comparator --------------------------------------------------------------

  predicate Before(lhs: Option<Timer>, rhs: Option<Timer>) {
    if lhs.None? && rhs.None? then false
    else if lhs.None? then true
    else if rhs.None? then false
    else if lhs.value.next < rhs.value.next then true
    else if rhs.value.next < lhs.value.next then false
    else lhs.value.id < rhs.value.id
  }

  /** A strict weak order, null first, that tells timers of different identity apart. */
  lemma {:induction false} BeforeIsStrictOrder(a: Option<Timer>, b: Option<Timer>, c: Option<Timer>)
    ensures !Before(a, a)
    ensures Before(a, b) && Before(b, c) ==> Before(a, c)
    ensures Before(a, b) ==> !Before(b, a)
    ensures !Before(a, b) && !Before(b, a) && !Before(b, c) && !Before(c, b) ==> !Before(a, c) && !Before(c, a)
    ensures a.Some? && b.Some? && a.value.id != b.value.id ==> Before(a, b) || Before(b, a)
  {
  }

  predicate Less(a: Timer, b: Timer) {
    Before(Some(a), Some(b))
  }

  ghost predicate Sorted(s: seq<Timer>) {
    forall i, j :: 0 <= i < j < |s| ==> Less(s[i], s[j])
  }

  /** std::set::insert: keeps the order, ignores an element already there. */
  function InsertSorted(s: seq<Timer>, t: Timer): seq<Timer> {
    if s == [] then [t]
    else if Less(t, s[0]) then [t] + s
    else if Less(s[0], t) then [s[0]] + InsertSorted(s[1..], t)
    else s
  }

  lemma {:induction false} InsertSortedAdds(s: seq<Timer>, t: Timer)
    requires forall u :: u in s ==> u.id != t.id
    ensures multiset(InsertSorted(s, t)) == multiset(s) + multiset{t}
    decreases |s|
  {
    if s != [] {
      assert s == [s[0]] + s[1..];
      assert s[0] in s;
      if Less(s[0], t) && !Less(t, s[0]) {
        forall u | u in s[1..] ensures u in s {}
        InsertSortedAdds(s[1..], t);
      }
    }
  }

  lemma {:induction false} InsertSortedKeeps(s: seq<Timer>, t: Timer)
    requires Sorted(s) && forall u :: u in s ==> u.id != t.id
    ensures Sorted(InsertSorted(s, t))
    ensures multiset(InsertSorted(s, t)) == multiset(s) + multiset{t}
    decreases |s|
  {
    InsertSortedAdds(s, t);
    if s != [] {
      if Less(t, s[0]) {
        forall j | 0 <= j < |s| ensures Less(t, s[j]) {
          BeforeIsStrictOrder(Some(t), Some(s[0]), Some(s[j]));
        }
      } else if Less(s[0], t) {
        forall u | u in s[1..] ensures u in s {}
        InsertSortedKeeps(s[1..], t);
        var r := InsertSorted(s[1..], t);
        forall j | 0 <= j < |r| ensures Less(s[0], r[j]) {
          assert r[j] in multiset(r);
          assert r[j] == t || r[j] in s[1..];
        }
      }
    }
  }

  // ---- placement ----------------------------------------------------------------------

  /** insertToWheel: which wheel a deadline goes to; 4 is the fallback set. */
  function Level(next: nat, now: nat): (k: nat)
    ensures k <= 4
    ensures k > 0 ==> next >= now + 256
  {
    var diff := if next > now then next - now else 0;
    if diff < 256 then 0
    else if diff < 0x4000 then 1
    else if diff < 0x10_0000 then 2
    else if diff < 0x400_0000 then 3
    else 4
  }

  function Slot(k: nat, next: nat): (i: nat)
    ensures i < if k == 0 then 256 else 64
  {
    if k == 0 then next % 256
    else if k == 1 then next / 0x100 % 64
    else if k == 2 then next / 0x4000 % 64
    else next / 0x10_0000 % 64
  }

  /** As time passes a deadline never belongs to a higher wheel. */
  lemma {:induction false} LevelFalls(next: nat, now: nat, later: nat)
    requires now <= later
    ensures Level(next, later) <= Level(next, now)
  {
  }

  // ---- contents of a wheel ------------------------------------------------------------

  ghost function Flatten(w: Wheel): multiset<Timer> {
    if w == [] then multiset{} else Flatten(w[..|w| - 1]) + multiset(w[|w| - 1])
  }

  lemma {:induction false} FlattenPutAt(w: Wheel, i: nat, s: seq<Timer>, t: Timer)
    requires i < |w|
    ensures Flatten(w[i := s])[t] + multiset(w[i])[t] == Flatten(w)[t] + multiset(s)[t]
    decreases |w|
  {
    var n := |w| - 1;
    var v := w[i := s];
    if i == n {
      assert v[..n] == w[..n];
    } else {
      FlattenPutAt(w[..n], i, s, t);
      assert v[..n] == w[..n][i := s] && v[n] == w[n];
    }
  }

  /** Replacing one slot replaces its timers and no others. */
  lemma {:induction false} FlattenPut(w: Wheel, i: nat, s: seq<Timer>)
    requires i < |w|
    ensures Flatten(w[i := s]) + multiset(w[i]) == Flatten(w) + multiset(s)
  {
    forall t ensures (Flatten(w[i := s]) + multiset(w[i]))[t] == (Flatten(w) + multiset(s))[t] {
      FlattenPutAt(w, i, s, t);
    }
  }

  lemma {:induction false} FlattenIn(w: Wheel, t: Timer)
    ensures t in Flatten(w) <==> exists i :: 0 <= i < |w| && t in w[i]
    decreases |w|
  {
    if w != [] {
      var n := |w| - 1;
      FlattenIn(w[..n], t);
      if t in Flatten(w[..n]) {
        var i :| 0 <= i < n && t in w[..n][i];
        assert t in w[i];
      }
      if i :| 0 <= i < |w| && t in w[i] {
        assert i < n ==> t in w[..n][i];
      }
    }
  }

  // ---- the specification of the operations --------------------------------------------

  /** What each wheel and the fallback set hold. */
  datatype State = State(w0: multiset<Timer>, w1: multiset<Timer>, w2: multiset<Timer>, w3: multiset<Timer>,
                         tree: multiset<Timer>, cancelled: set<nat>, clock: nat)

  ghost function At(s: State, k: nat): multiset<Timer> {
    if k == 0 then s.w0 else if k == 1 then s.w1 else if k == 2 then s.w2 else if k == 3 then s.w3 else s.tree
  }

  ghost function All(s: State): multiset<Timer> {
    s.w0 + s.w1 + s.w2 + s.w3 + s.tree
  }

  ghost function Put(s: State, k: nat, t: Timer): State {
    var m := multiset{t};
    if k == 0 then s.(w0 := s.w0 + m)
    else if k == 1 then s.(w1 := s.w1 + m)
    else if k == 2 then s.(w2 := s.w2 + m)
    else if k == 3 then s.(w3 := s.w3 + m)
    else s.(tree := s.tree + m)
  }

  /** insertToWheel, given the clock reading it makes. */
  ghost function Insert(s: State, t: Timer, clock: nat): State {
    Put(s, Level(t.next, clock), t).(clock := clock)
  }

  function Ids(ts: seq<Timer>): set<nat> {
    set i | 0 <= i < |ts| :: ts[i].id
  }

  function Callbacks(ts: seq<Timer>): seq<nat> {
    if ts == [] then []
    else
      var n := |ts| - 1;
      Callbacks(ts[..n]) + (if ts[n].callable then [ts[n].id] else [])
  }

  ghost predicate From(s: State, t: Timer, lo: nat, hi: nat) {
    exists j: nat :: lo <= j <= hi && t in At(s, j)
  }

  /** Where an advance at time `now` leaves the timers: nothing due outside wheel 0, nothing moved
      up, and what is due in wheel 0 came down during this advance. */
  ghost predicate Placed(s: State, now: nat, s': State) {
    && (forall k: nat, t :: 0 < k < 5 && t in At(s', k) ==> t.next > now)
    && (forall k: nat, t :: k < 5 && t in At(s', k) ==> From(s, t, k, 4))
    && (forall t :: t in At(s', 0) && t.next <= now ==> From(s, t, 1, 3))
  }

  /** What left: `fired` because they were due in wheel 0 or the fallback set, `dropped` because they
      were seen cancelled; `raced` were cancelled while it ran. */
  ghost predicate Accounted(s: State, now: nat, s': State, fired: seq<Timer>, dropped: multiset<Timer>,
                            raced: set<nat>) {
    && All(s) == All(s') + (multiset(fired) + dropped)
    && s'.cancelled == s.cancelled + raced + Ids(fired)
    && (forall t :: t in fired ==> t.next <= now && t.id !in s.cancelled)
    && (forall t :: t in fired ==> t in s.w0 || t in s.tree)
    && (forall t :: t in dropped ==> t.id in s'.cancelled)
  }

  /** One call to advanceWheel. */
  ghost predicate Advanced(s: State, now: nat, s': State, fired: seq<Timer>, dropped: multiset<Timer>,
                           raced: set<nat>) {
    s.clock <= s'.clock && Placed(s, now, s') && Accounted(s, now, s', fired, dropped, raced)
  }

  // ---- the object ---------------------------------------------------------------------

  function Size(k: nat): nat {
    if k == 0 then 256 else 64
  }

  ghost predicate WheelOk(w: Wheel, k: nat) {
    && |w| == Size(k)
    && forall i, t :: 0 <= i < |w| && t in w[i] ==> Slot(k, t.next) == i
  }

  function Push(w: Wheel, k: nat, t: Timer): Wheel
    requires |w| == Size(k)
  {
    w[Slot(k, t.next) := w[Slot(k, t.next)] + [t]]
  }

  lemma {:induction false} PushKeeps(w: Wheel, k: nat, t: Timer)
    requires WheelOk(w, k)
    ensures WheelOk(Push(w, k, t), k)
    ensures Flatten(Push(w, k, t)) == Flatten(w) + multiset{t}
  {
    var i := Slot(k, t.next);
    forall u ensures Flatten(Push(w, k, t))[u] == (Flatten(w) + multiset{t})[u] {
      FlattenPutAt(w, i, w[i] + [t], u);
    }
  }

  /** The concrete structure and its contents. */
  datatype Wheels = Wheels(w0: Wheel, w1: Wheel, w2: Wheel, w3: Wheel, tree: seq<Timer>)

  ghost predicate WheelsOk(w: Wheels) {
    WheelOk(w.w0, 0) && WheelOk(w.w1, 1) && WheelOk(w.w2, 2) && WheelOk(w.w3, 3) && Sorted(w.tree)
  }

  ghost function Contents(w: Wheels, cancelled: set<nat>, clock: nat): State {
    State(Flatten(w.w0), Flatten(w.w1), Flatten(w.w2), Flatten(w.w3), multiset(w.tree), cancelled, clock)
  }

  predicate Sized(w: Wheels) {
    |w.w0| == 256 && |w.w1| == |w.w2| == |w.w3| == 64
  }

  function Place(w: Wheels, k: nat, t: Timer): Wheels
    requires Sized(w)
  {
    if k == 0 then w.(w0 := Push(w.w0, 0, t))
    else if k == 1 then w.(w1 := Push(w.w1, 1, t))
    else if k == 2 then w.(w2 := Push(w.w2, 2, t))
    else if k == 3 then w.(w3 := Push(w.w3, 3, t))
    else w.(tree := InsertSorted(w.tree, t))
  }

  lemma {:induction false} PlaceKeeps(w: Wheels, k: nat, t: Timer, cancelled: set<nat>, clock: nat)
    requires WheelsOk(w) && k <= 4 && (k == 4 ==> forall u :: u in w.tree ==> u.id != t.id)
    ensures WheelsOk(Place(w, k, t))
    ensures Contents(Place(w, k, t), cancelled, clock) == Put(Contents(w, cancelled, clock), k, t)
  {
    if k == 0 {
      PushKeeps(w.w0, 0, t);
    } else if k == 1 {
      PushKeeps(w.w1, 1, t);
    } else if k == 2 {
      PushKeeps(w.w2, 2, t);
    } else if k == 3 {
      PushKeeps(w.w3, 3, t);
    } else {
      InsertSortedKeeps(w.tree, t);
    }
  }

  // ---- one advance, phase by phase ----------------------------------------------------

  /** What an advance has emitted so far, and what it has done to the flags. */
  datatype Log = Log(cbs: seq<nat>, fired: seq<Timer>, dropped: multiset<Timer>,
                     base: set<nat>, raced: set<nat>, cancelled: set<nat>)

  ghost predicate LogOk(l: Log, now: nat) {
    && l.cbs == Callbacks(l.fired)
    && l.cancelled == l.base + l.raced + Ids(l.fired)
    && (forall t :: t in l.fired ==> t.next <= now && t.id !in l.base)
    && (forall t :: t in l.dropped ==> t.id in l.cancelled)
  }

  /** What was emitted on the way from l to l' came from `from`. */
  ghost predicate FiredOf(l: Log, l': Log, from: multiset<Timer>) {
    forall t :: t in l'.fired ==> t in l.fired || t in from
  }

  ghost function Left(l: Log): multiset<Timer> {
    multiset(l.fired) + l.dropped
  }

  ghost function Raced(l: Log, flags: set<nat>): Log {
    l.(cancelled := flags, raced := l.raced + (flags - l.cancelled))
  }

  ghost function Dropped(l: Log, t: Timer): Log {
    l.(dropped := l.dropped + multiset{t})
  }

  ghost function Fired(l: Log, t: Timer): Log {
    l.(cbs := if t.callable then l.cbs + [t.id] else l.cbs, fired := l.fired + [t], cancelled := l.cancelled + {t.id})
  }

  lemma {:induction false} LogRace(l: Log, now: nat, flags: set<nat>)
    requires LogOk(l, now) && l.cancelled <= flags
    ensures LogOk(Raced(l, flags), now) && Left(Raced(l, flags)) == Left(l)
  {
    assert flags == l.base + (l.raced + (flags - l.cancelled)) + Ids(l.fired);
  }

  lemma {:induction false} LogDrop(l: Log, now: nat, t: Timer)
    requires LogOk(l, now) && t.id in l.cancelled
    ensures LogOk(Dropped(l, t), now) && Left(Dropped(l, t)) == Left(l) + multiset{t}
  {
  }

  lemma {:induction false} LogFire(l: Log, now: nat, t: Timer)
    requires LogOk(l, now) && t.id !in l.cancelled && t.next <= now
    ensures LogOk(Fired(l, t), now) && Left(Fired(l, t)) == Left(l) + multiset{t}
  {
    SnocLog(l.fired, t);
  }

  lemma {:induction false} SnocLog(ts: seq<Timer>, t: Timer)
    ensures Callbacks(ts + [t]) == Callbacks(ts) + (if t.callable then [t.id] else [])
    ensures Ids(ts + [t]) == Ids(ts) + {t.id}
    ensures multiset(ts + [t]) == multiset(ts) + multiset{t}
  {
    assert (ts + [t])[..|ts|] == ts;
    forall id | id in Ids(ts) + {t.id} ensures id in Ids(ts + [t]) {
      if id in Ids(ts) {
        var i :| 0 <= i < |ts| && ts[i].id == id;
        assert (ts + [t])[i].id == id;
      } else {
        assert (ts + [t])[|ts|].id == id;
      }
    }
  }

  /** One more timer of a slot is either kept or gone. */
  lemma {:induction false} Sorting(slot: seq<Timer>, j: nat, kept: seq<Timer>, keep: bool, left: multiset<Timer>,
                                   start: multiset<Timer>)
    requires j < |slot| && multiset(kept) + left == multiset(slot[..j]) + start
    ensures multiset(if keep then kept + [slot[j]] else kept) + (left + if keep then multiset{} else multiset{slot[j]})
         == multiset(slot[..j + 1]) + start
  {
    assert slot[..j + 1] == slot[..j] + [slot[j]];
    var kept' := if keep then kept + [slot[j]] else kept;
    var left' := left + if keep then multiset{} else multiset{slot[j]};
    forall t ensures (multiset(kept') + left')[t] == (multiset(slot[..j + 1]) + start)[t] {
      assert (multiset(kept) + left)[t] == (multiset(slot[..j]) + start)[t];
    }
  }

  /** Swapping a slot for what is left of it loses nothing. */
  lemma {:induction false} Exchange(f': multiset<Timer>, slot: multiset<Timer>, f: multiset<Timer>,
                                    rest: multiset<Timer>,
                 l': multiset<Timer>, l: multiset<Timer>)
    requires f' + slot == f + rest && rest + l' == slot + l
    ensures f' + l' == f + l
  {
    forall t ensures (f' + l')[t] == (f + l)[t] {
      assert (f' + slot)[t] == (f + rest)[t] && (rest + l')[t] == (slot + l)[t];
    }
  }

  /** The atomic flag, read while other threads may be setting it. */
  method LoadCancelled(id: nat, l: Log) returns (isSet: bool, l': Log)
    ensures exists flags :: l.cancelled <= flags && l' == Raced(l, flags)
    ensures isSet == (id in l'.cancelled)
  {
    var flags: set<nat> :| l.cancelled <= flags;
    l' := l.(cancelled := flags, raced := l.raced + (flags - l.cancelled));
    isSet := id in flags;
  }

  /** A visit to a timer that may be due: skip it if cancelled, emit it if due, else keep it. */
  method Visit(t: Timer, now: nat, l: Log) returns (keep: bool, l': Log)
    requires LogOk(l, now)
    ensures LogOk(l', now) && l'.base == l.base
    ensures keep ==> t.next > now
    ensures Left(l') == Left(l) + if keep then multiset{} else multiset{t}
    ensures FiredOf(l, l', multiset{t})
  {
    var isSet, m := LoadCancelled(t.id, l);
    LogRace(l, now, m.cancelled);
    keep := !isSet && t.next > now;
    l' := m;
    if isSet {
      LogDrop(m, now, t);
      l' := m.(dropped := m.dropped + multiset{t});
    } else if t.next <= now {
      LogFire(m, now, t);
      l' := m.(cbs := if t.callable then m.cbs + [t.id] else m.cbs, fired := m.fired + [t],
               cancelled := m.cancelled + {t.id});
    }
  }

  /** One slot of wheel 0: `remaining` is what the slot is swapped with. */
  method SweepSlot(slot: seq<Timer>, now: nat, l: Log) returns (remaining: seq<Timer>, l': Log)
    requires LogOk(l, now)
    ensures LogOk(l', now) && l'.base == l.base
    ensures multiset(remaining) + Left(l') == multiset(slot) + Left(l)
    ensures FiredOf(l, l', multiset(slot))
    ensures forall t :: t in remaining ==> t in slot && t.next > now
  {
    remaining, l' := [], l;
    for j := 0 to |slot|
      invariant LogOk(l', now) && l'.base == l.base
      invariant multiset(remaining) + Left(l') == multiset(slot[..j]) + Left(l)
      invariant FiredOf(l, l', multiset(slot))
      invariant forall t :: t in remaining ==> t in slot && t.next > now
    {
      Sorting(slot, j, remaining, true, Left(l'), Left(l));
      Sorting(slot, j, remaining, false, Left(l'), Left(l));
      var keep;
      keep, l' := Visit(slot[j], now, l');
      if keep {
        remaining := remaining + [slot[j]];
      }
    }
    assert slot[..|slot|] == slot;
  }

  ghost predicate Swept(slot: seq<Timer>, rest: seq<Timer>, now: nat) {
    forall t :: t in rest ==> t in slot && t.next > now
  }

  lemma {:induction false} SlotInWheel(w: Wheel, i: nat, l: Log, l': Log, r: Log)
    requires i < |w| && FiredOf(l, l', Flatten(w)) && FiredOf(l', r, multiset(w[i]))
    ensures FiredOf(l, r, Flatten(w))
  {
    forall t | t in w[i] ensures t in Flatten(w) {
      FlattenIn(w, t);
    }
  }

  method SweepWheel0(w: Wheel, now: nat, l: Log) returns (w': Wheel, l': Log)
    requires LogOk(l, now) && WheelOk(w, 0)
    ensures LogOk(l', now) && l'.base == l.base && WheelOk(w', 0)
    ensures Flatten(w') + Left(l') == Flatten(w) + Left(l)
    ensures FiredOf(l, l', Flatten(w))
    ensures forall t :: t in Flatten(w') ==> t.next > now && t in Flatten(w)
  {
    w', l' := w, l;
    for i := 0 to |w|
      invariant LogOk(l', now) && l'.base == l.base && |w'| == |w|
      invariant Flatten(w') + Left(l') == Flatten(w) + Left(l)
      invariant FiredOf(l, l', Flatten(w))
      invariant forall m :: i <= m < |w| ==> w'[m] == w[m]
      invariant forall m :: 0 <= m < i ==> Swept(w[m], w'[m], now)
    {
      if w'[i] != [] {
        var remaining, r := SweepSlot(w'[i], now, l');
        FlattenPut(w', i, remaining);
        SlotInWheel(w, i, l, l', r);
        Exchange(Flatten(w'[i := remaining]), multiset(w'[i]), Flatten(w'), multiset(remaining), Left(r), Left(l'));
        w', l' := w'[i := remaining], r;
      }
    }
    forall t | t in Flatten(w') ensures t.next > now && t in Flatten(w) {
      FlattenIn(w', t);
      FlattenIn(w, t);
    }
  }

  /** The fallback set: pop from the front while the earliest is due. */
  method PopTree(tree: seq<Timer>, now: nat, l: Log) returns (tree': seq<Timer>, l': Log)
    requires LogOk(l, now) && Sorted(tree)
    ensures LogOk(l', now) && l'.base == l.base && Sorted(tree')
    ensures multiset(tree') + Left(l') == multiset(tree) + Left(l)
    ensures FiredOf(l, l', multiset(tree))
    ensures forall t :: t in tree' ==> t.next > now && t in tree
  {
    tree', l' := tree, l;
    while tree' != [] && tree'[0].next <= now
      invariant LogOk(l', now) && l'.base == l.base && Sorted(tree')
      invariant multiset(tree') + Left(l') == multiset(tree) + Left(l)
      invariant FiredOf(l, l', multiset(tree))
      invariant forall t :: t in tree' ==> t in tree
      decreases |tree'|
    {
      var t := tree'[0];
      var _, r := Visit(t, now, l');
      PopFront(tree', Left(l'), Left(r), multiset(tree) + Left(l));
      assert t in tree';
      tree', l' := tree'[1..], r;
    }
    NoneDueBehind(tree', now);
  }

  lemma {:induction false} PopFront(tree: seq<Timer>, left: multiset<Timer>, left': multiset<Timer>,
                                    total: multiset<Timer>)
    requires tree != [] && multiset(tree) + left == total && left' == left + multiset{tree[0]}
    ensures multiset(tree[1..]) + left' == total
  {
    assert tree == [tree[0]] + tree[1..];
  }

  /** The set is ordered by deadline, so nothing behind a timer that is not due is due. */
  lemma {:induction false} NoneDueBehind(tree: seq<Timer>, now: nat)
    requires Sorted(tree) && (tree != [] ==> tree[0].next > now)
    ensures forall t :: t in tree ==> t.next > now
  {
    forall i | 0 <= i < |tree| ensures tree[i].next > now {
      assert i > 0 ==> Less(tree[0], tree[i]);
    }
  }

  // ---- cascading ----------------------------------------------------------------------

  function Nth(w: Wheels, k: nat): Wheel
    requires k < 4
  {
    if k == 0 then w.w0 else if k == 1 then w.w1 else if k == 2 then w.w2 else w.w3
  }

  function WithNth(w: Wheels, k: nat, v: Wheel): Wheels
    requires k < 4
  {
    if k == 0 then w.(w0 := v) else if k == 1 then w.(w1 := v) else if k == 2 then w.(w2 := v) else w.(w3 := v)
  }

  /** What the wheels hold at a given time. */
  ghost function Held(w: Wheels, clock: nat): State {
    Contents(w, {}, clock)
  }

  /** No timer is in a wheel below the one its deadline calls for. */
  ghost predicate Ranked(s: State) {
    forall k: nat, t :: k < 4 && t in At(s, k) ==> Level(t.next, s.clock) <= k
  }

  method InsertToWheel(w: Wheels, t: Timer, clock: nat) returns (w': Wheels, clock': nat)
    requires Sized(w)
    ensures clock <= clock' && w' == Place(w, Level(t.next, clock'), t)
  {
    clock' :| clock <= clock';
    var diff := if t.next > clock' then t.next - clock' else 0;
    if diff < 256 {
      w' := w.(w0 := Push(w.w0, 0, t));
    } else if diff < 0x4000 {
      w' := w.(w1 := Push(w.w1, 1, t));
    } else if diff < 0x10_0000 {
      w' := w.(w2 := Push(w.w2, 2, t));
    } else if diff < 0x400_0000 {
      w' := w.(w3 := Push(w.w3, 3, t));
    } else {
      w' := w.(tree := InsertSorted(w.tree, t));
    }
  }

  lemma {:induction false} PutAt(s: State, k: nat, t: Timer, j: nat)
    requires k <= 4 && j <= 4
    ensures At(Put(s, k, t), j) == if j == k then At(s, j) + multiset{t} else At(s, j)
  {
  }

  lemma {:induction false} PutAll(s: State, k: nat, t: Timer)
    requires k <= 4
    ensures All(Put(s, k, t)) == All(s) + multiset{t}
  {
    forall u ensures All(Put(s, k, t))[u] == (All(s) + multiset{t})[u] {}
  }

  lemma {:induction false} InsertRanked(s: State, t: Timer, clock: nat)
    requires Ranked(s) && s.clock <= clock
    ensures Ranked(Insert(s, t, clock))
  {
    var s' := Insert(s, t, clock);
    forall k: nat, u | k < 4 && u in At(s', k) ensures Level(u.next, clock) <= k {
      PutAt(s, Level(t.next, clock), t, k);
      if u in At(s, k) {
        LevelFalls(u.next, s.clock, clock);
      }
    }
  }

  /** Reinserting timers taken from wheel k: they go to lower wheels, or back to wheel k if they
      are not due. */
  ghost predicate Fell(s: State, s': State, k: nat, from: multiset<Timer>, now: nat) {
    && (forall j: nat :: k < j <= 4 ==> At(s', j) == At(s, j))
    && (forall j: nat, t :: j <= k && t in At(s', j) ==> FellTo(s, j, from, now, t))
  }

  ghost predicate FellTo(s: State, j: nat, from: multiset<Timer>, now: nat, t: Timer) {
    t in At(s, j) || (t in from && (j > 0 ==> t.next > now))
  }

  lemma {:induction false} InsertAt(s: State, t: Timer, clock: nat, j: nat)
    requires j <= 4
    ensures At(Insert(s, t, clock), j) == if j == Level(t.next, clock) then At(s, j) + multiset{t} else At(s, j)
  {
    PutAt(s, Level(t.next, clock), t, j);
    assert At(Insert(s, t, clock), j) == At(Put(s, Level(t.next, clock), t), j);
  }

  lemma {:induction false} FellToStep(s: State, s1: State, k: nat, from: multiset<Timer>, now: nat, t: Timer,
                                      clock: nat, j: nat, u: Timer)
    requires j <= k <= 3 && Fell(s, s1, k, from, now) && t in from && now <= clock
    requires u in At(Insert(s1, t, clock), j)
    ensures FellTo(s, j, from, now, u)
  {
    InsertAt(s1, t, clock, j);
    assert u in At(s1, j) ==> FellTo(s, j, from, now, u);
  }

  lemma {:induction false} FellStep(s: State, s1: State, k: nat, from: multiset<Timer>, now: nat, t: Timer, clock: nat)
    requires 1 <= k <= 3 && Fell(s, s1, k, from, now) && t in from
    requires now <= clock && Level(t.next, clock) <= k
    ensures Fell(s, Insert(s1, t, clock), k, from, now)
  {
    var s2 := Insert(s1, t, clock);
    forall j: nat | k < j <= 4 ensures At(s2, j) == At(s, j) {
      InsertAt(s1, t, clock, j);
    }
    forall j: nat, u | j <= k && u in At(s2, j) ensures FellTo(s, j, from, now, u) {
      FellToStep(s, s1, k, from, now, t, clock, j, u);
    }
  }

  /** In wheel k only slot i has changed, and only by timers of `from` that are not due. */
  ghost predicate OnlySlot(v: Wheel, v': Wheel, i: nat, from: multiset<Timer>, now: nat) {
    && |v'| == |v| && i < |v|
    && (forall m :: 0 <= m < |v| && m != i ==> v'[m] == v[m])
    && (forall t :: t in v'[i] ==> t in v[i] || (t in from && t.next > now))
  }

  lemma {:induction false} OnlySlotStep(w0: Wheels, w: Wheels, k: nat, i: nat, from: multiset<Timer>, now: nat,
                                        t: Timer, clock: nat)
    requires 1 <= k <= 3 && Sized(w) && OnlySlot(Nth(w0, k), Nth(w, k), i, from, now) && t in from
    requires Slot(k, t.next) == i && now <= clock && Level(t.next, clock) <= k
    ensures OnlySlot(Nth(w0, k), Nth(Place(w, Level(t.next, clock), t), k), i, from, now)
  {
  }

  /** One step of the cascade: a cancelled timer is dropped, any other is reinserted. */
  lemma {:induction false} InsertFacts(w: Wheels, t: Timer, clock: nat, clock': nat)
    requires WheelsOk(w) && clock <= clock' && Level(t.next, clock') <= 3
    ensures var w' := Place(w, Level(t.next, clock'), t);
            && WheelsOk(w')
            && Held(w', clock') == Insert(Held(w, clock), t, clock')
            && All(Held(w', clock')) == All(Held(w, clock)) + multiset{t}
  {
    PlaceKeeps(w, Level(t.next, clock'), t, {}, clock');
    PutAll(Held(w, clock), Level(t.next, clock'), t);
  }

  /** Everything the cascade of one slot keeps. */
  ghost predicate Cascading(w0: Wheels, c0: nat, w: Wheels, c: nat, k: nat, i: nat, from: multiset<Timer>, now: nat)
    requires k < 4
  {
    && WheelsOk(w) && c0 <= c && Ranked(Held(w, c))
    && Fell(Held(w0, c0), Held(w, c), k, from, now)
    && OnlySlot(Nth(w0, k), Nth(w, k), i, from, now)
  }

  lemma {:induction false} CascadeStep(w0: Wheels, c0: nat, w: Wheels, c: nat, k: nat, i: nat, from: multiset<Timer>,
                                       now: nat, t: Timer, c': nat)
    requires 1 <= k <= 3 && now <= c0 && Cascading(w0, c0, w, c, k, i, from, now) && c <= c'
    requires t in from && Slot(k, t.next) == i && Level(t.next, c0) <= k
    ensures Level(t.next, c') <= 3
    ensures Cascading(w0, c0, Place(w, Level(t.next, c'), t), c', k, i, from, now)
  {
    LevelFalls(t.next, c0, c');
    InsertFacts(w, t, c, c');
    InsertRanked(Held(w, c), t, c');
    FellStep(Held(w0, c0), Held(w, c), k, from, now, t, c');
    OnlySlotStep(w0, w, k, i, from, now, t, c');
  }

  /** One timer of the cascade: dropped if it is seen cancelled, else reinserted. */
  method CascadeOne(k: nat, i: nat, t: Timer, w: Wheels, now: nat, l: Log, clock: nat,
                    ghost w0: Wheels, ghost c0: nat, ghost from: multiset<Timer>)
    returns (w': Wheels, l': Log, clock': nat)
    requires 1 <= k <= 3 && now <= c0 && LogOk(l, now) && Cascading(w0, c0, w, clock, k, i, from, now)
    requires t in from && Slot(k, t.next) == i && Level(t.next, c0) <= k
    ensures LogOk(l', now) && l'.base == l.base && l'.fired == l.fired
    ensures Cascading(w0, c0, w', clock', k, i, from, now)
    ensures All(Held(w', clock')) + Left(l') == All(Held(w, clock)) + Left(l) + multiset{t}
  {
    var isSet, m := LoadCancelled(t.id, l);
    LogRace(l, now, m.cancelled);
    if isSet {
      LogDrop(m, now, t);
      w', l', clock' := w, m.(dropped := m.dropped + multiset{t}), clock;
    } else {
      l' := m;
      w', clock' := InsertToWheel(w, t, clock);
      CascadeStep(w0, c0, w, clock, k, i, from, now, t, clock');
      InsertFacts(w, t, clock, clock');
    }
  }

  lemma {:induction false} OneMore(base: multiset<Timer>, ts: seq<Timer>, j: nat, total: multiset<Timer>,
                                   next: multiset<Timer>)
    requires j < |ts| && total == base + multiset(ts[..j]) && next == total + multiset{ts[j]}
    ensures next == base + multiset(ts[..j + 1])
  {
    assert ts[..j + 1] == ts[..j] + [ts[j]];
  }

  method CascadeSlot(k: nat, i: nat, ts: seq<Timer>, w: Wheels, now: nat, l: Log, clock: nat)
    returns (w': Wheels, l': Log, clock': nat)
    requires 1 <= k <= 3 && i < 64 && WheelsOk(w) && LogOk(l, now) && now <= clock && Ranked(Held(w, clock))
    requires forall t :: t in ts ==> Slot(k, t.next) == i && Level(t.next, clock) <= k
    ensures LogOk(l', now) && l'.base == l.base && l'.fired == l.fired
    ensures All(Held(w', clock')) + Left(l') == All(Held(w, clock)) + Left(l) + multiset(ts)
    ensures Cascading(w, clock, w', clock', k, i, multiset(ts), now)
  {
    w', l', clock' := w, l, clock;
    for j := 0 to |ts|
      invariant LogOk(l', now) && l'.base == l.base && l'.fired == l.fired
      invariant All(Held(w', clock')) + Left(l') == All(Held(w, clock)) + Left(l) + multiset(ts[..j])
      invariant Cascading(w, clock, w', clock', k, i, multiset(ts), now)
    {
      ghost var total := All(Held(w', clock')) + Left(l');
      w', l', clock' := CascadeOne(k, i, ts[j], w', now, l', clock', w, clock, multiset(ts));
      OneMore(All(Held(w, clock)) + Left(l), ts, j, total, All(Held(w', clock')) + Left(l'));
    }
    assert ts[..|ts|] == ts;
  }

  lemma {:induction false} SlotOut(v: Wheel, i: nat)
    requires i < |v|
    ensures Flatten(v[i := []]) + multiset(v[i]) == Flatten(v)
    ensures forall t :: t in v[i] ==> t in Flatten(v)
    ensures forall t :: t in Flatten(v[i := []]) ==> t in Flatten(v)
  {
    FlattenPut(v, i, []);
    var f := Flatten(v[i := []]) + multiset(v[i]);
    assert f == Flatten(v);
    assert forall t :: t in v[i] ==> t in f;
  }

  ghost function SetAt(s: State, k: nat, m: multiset<Timer>): State {
    if k == 0 then s.(w0 := m)
    else if k == 1 then s.(w1 := m)
    else if k == 2 then s.(w2 := m)
    else if k == 3 then s.(w3 := m)
    else s.(tree := m)
  }

  lemma {:induction false} SetAtAt(s: State, k: nat, m: multiset<Timer>, j: nat)
    requires k <= 4 && j <= 4
    ensures At(SetAt(s, k, m), k) == m
    ensures j != k ==> At(SetAt(s, k, m), j) == At(s, j)
  {
  }

  lemma {:induction false} WithNthHeld(w: Wheels, k: nat, v: Wheel, clock: nat)
    requires k < 4
    ensures Held(WithNth(w, k, v), clock) == SetAt(Held(w, clock), k, Flatten(v))
    ensures At(Held(w, clock), k) == Flatten(Nth(w, k))
  {
    if k == 0 {} else if k == 1 {} else if k == 2 {} else {}
  }

  /** Taking part of one wheel out. */
  ghost predicate Shrunk(s: State, s1: State, k: nat, m: multiset<Timer>) {
    && All(s1) + m == All(s)
    && (forall j: nat :: j <= 4 && j != k ==> At(s1, j) == At(s, j))
    && (forall t :: t in At(s1, k) ==> t in At(s, k))
    && (forall t :: t in m ==> t in At(s, k))
  }

  lemma {:induction false} ShrinkAt(s: State, k: nat, rest: multiset<Timer>, m: multiset<Timer>)
    requires k <= 4 && rest + m == At(s, k)
    ensures Shrunk(s, SetAt(s, k, rest), k, m)
  {
    var s1 := SetAt(s, k, rest);
    forall j: nat | j <= 4 && j != k ensures At(s1, j) == At(s, j) {
      SetAtAt(s, k, rest, j);
    }
    SetAtAt(s, k, rest, 0);
    assert forall t :: t in rest ==> t in rest + m;
    assert forall t :: t in m ==> t in rest + m;
    TakeAll(s, s1, k, m);
  }

  lemma {:induction false} TakeSlotHeld(w: Wheels, k: nat, i: nat, clock: nat)
    requires 1 <= k <= 3 && i < 64 && WheelsOk(w)
    ensures Shrunk(Held(w, clock), Held(WithNth(w, k, Nth(w, k)[i := []]), clock), k, multiset(Nth(w, k)[i]))
  {
    var v := Nth(w, k);
    SlotOut(v, i);
    WithNthHeld(w, k, v[i := []], clock);
    ShrinkAt(Held(w, clock), k, Flatten(v[i := []]), multiset(v[i]));
  }

  lemma {:induction false} TakeAll(s: State, s1: State, k: nat, m: multiset<Timer>)
    requires k <= 4 && At(s1, k) + m == At(s, k)
    requires forall j: nat :: j <= 4 && j != k ==> At(s1, j) == At(s, j)
    ensures All(s1) + m == All(s)
  {
    assert At(s1, 0) == s1.w0 && At(s1, 1) == s1.w1 && At(s1, 2) == s1.w2 && At(s1, 3) == s1.w3 && At(s1, 4) == s1.tree;
    assert At(s, 0) == s.w0 && At(s, 1) == s.w1 && At(s, 2) == s.w2 && At(s, 3) == s.w3 && At(s, 4) == s.tree;
    forall t ensures (All(s1) + m)[t] == All(s)[t] {
      assert (At(s1, k) + m)[t] == At(s, k)[t];
    }
  }

  lemma {:induction false} ShrunkRanked(s: State, s1: State, k: nat, m: multiset<Timer>)
    requires Ranked(s) && Shrunk(s, s1, k, m) && s1.clock == s.clock && k < 4
    ensures Ranked(s1) && forall t :: t in m ==> Level(t.next, s.clock) <= k
  {
    forall j: nat, t | j < 4 && t in At(s1, j) ensures Level(t.next, s1.clock) <= j {
      assert t in At(s, j);
    }
  }

  /** Taking one slot out of wheel k. */
  lemma {:induction false} TakeSlot(w: Wheels, k: nat, i: nat, clock: nat)
    requires 1 <= k <= 3 && i < 64 && WheelsOk(w) && Ranked(Held(w, clock))
    ensures Ranked(Held(WithNth(w, k, Nth(w, k)[i := []]), clock))
    ensures forall t :: t in Nth(w, k)[i] ==> Slot(k, t.next) == i && Level(t.next, clock) <= k
  {
    TakeSlotHeld(w, k, i, clock);
    ShrunkRanked(Held(w, clock), Held(WithNth(w, k, Nth(w, k)[i := []]), clock), k, multiset(Nth(w, k)[i]));
  }

  lemma {:induction false} TakeSlotOk(w: Wheels, k: nat, i: nat)
    requires 1 <= k <= 3 && i < 64 && WheelsOk(w)
    ensures WheelsOk(WithNth(w, k, Nth(w, k)[i := []]))
  {
  }

  lemma {:induction false} FellTrans(s0: State, s1: State, s2: State, s3: State, k: nat, all: multiset<Timer>,
                                     ts: multiset<Timer>, now: nat)
    requires 1 <= k <= 3 && Fell(s0, s1, k, all, now) && Fell(s2, s3, k, ts, now)
    requires Shrunk(s1, s2, k, ts) && forall t :: t in ts ==> t in all
    ensures Fell(s0, s3, k, all, now)
  {
    forall j: nat, t | j <= k && t in At(s3, j) ensures FellTo(s0, j, all, now, t) {
      assert FellTo(s2, j, ts, now, t);
      if t in At(s2, j) {
        assert t in At(s1, j);
      }
    }
  }

  ghost predicate NoneDue(slot: seq<Timer>, now: nat) {
    forall t :: t in slot ==> t.next > now
  }

  /** Slots below i have been cascaded, the others not yet. */
  ghost predicate SlotsDone(v: Wheel, v': Wheel, i: nat, now: nat) {
    && |v| == |v'| && i <= |v|
    && (forall m :: i <= m < |v| ==> v'[m] == v[m])
    && (forall m :: 0 <= m < i ==> NoneDue(v'[m], now))
  }

  ghost predicate Cascaded(w: Wheels, c: nat, w': Wheels, c': nat, k: nat, i: nat, now: nat)
    requires k < 4
  {
    && WheelsOk(w) && WheelsOk(w') && c <= c' && Ranked(Held(w', c'))
    && Fell(Held(w, c), Held(w', c'), k, At(Held(w, c), k), now)
    && SlotsDone(Nth(w, k), Nth(w', k), i, now)
  }

  method CascadeIndex(k: nat, i: nat, w: Wheels, now: nat, l: Log, clock: nat, ghost w0: Wheels, ghost c0: nat)
    returns (w': Wheels, l': Log, clock': nat)
    requires 1 <= k <= 3 && i < 64 && LogOk(l, now) && now <= c0 && Cascaded(w0, c0, w, clock, k, i, now)
    ensures LogOk(l', now) && l'.base == l.base && l'.fired == l.fired
    ensures All(Held(w', clock')) + Left(l') == All(Held(w, clock)) + Left(l)
    ensures Cascaded(w0, c0, w', clock', k, i + 1, now)
  {
    w', l', clock' := w, l, clock;
    var toInsert := Nth(w, k)[i];
    if toInsert != [] {
      var w1 := WithNth(w, k, Nth(w, k)[i := []]);
      TakeSlot(w, k, i, clock);
      TakeSlotOk(w, k, i);
      TakeSlotHeld(w, k, i, clock);
      w', l', clock' := CascadeSlot(k, i, toInsert, w1, now, l, clock);
      CascadedStep(w0, c0, w, clock, w', clock', k, i, now);
    }
  }

  lemma {:induction false} SlotsStep(v: Wheel, v1: Wheel, v2: Wheel, i: nat, from: multiset<Timer>, now: nat)
    requires i < |v| && SlotsDone(v, v1, i, now) && OnlySlot(v1[i := []], v2, i, from, now)
    ensures SlotsDone(v, v2, i + 1, now)
  {
  }

  lemma {:induction false} FellOn(w0: Wheels, c0: nat, w: Wheels, c: nat, s': State, k: nat, i: nat, now: nat)
    requires 1 <= k <= 3 && i < 64 && WheelsOk(w0) && WheelsOk(w) && Nth(w, k)[i] == Nth(w0, k)[i]
    requires Fell(Held(w0, c0), Held(w, c), k, At(Held(w0, c0), k), now)
    requires Fell(Held(WithNth(w, k, Nth(w, k)[i := []]), c), s', k, multiset(Nth(w, k)[i]), now)
    ensures Fell(Held(w0, c0), s', k, At(Held(w0, c0), k), now)
  {
    TakeSlotHeld(w, k, i, c);
    WithNthHeld(w0, k, Nth(w0, k), c0);
    SlotOut(Nth(w0, k), i);
    FellTrans(Held(w0, c0), Held(w, c), Held(WithNth(w, k, Nth(w, k)[i := []]), c), s', k,
              At(Held(w0, c0), k), multiset(Nth(w, k)[i]), now);
  }

  lemma {:induction false} CascadedStep(w0: Wheels, c0: nat, w: Wheels, c: nat, w': Wheels, c': nat, k: nat, i: nat,
                                        now: nat)
    requires 1 <= k <= 3 && i < 64 && Cascaded(w0, c0, w, c, k, i, now)
    requires var w1 := WithNth(w, k, Nth(w, k)[i := []]);
             Cascading(w1, c, w', c', k, i, multiset(Nth(w, k)[i]), now)
    ensures Cascaded(w0, c0, w', c', k, i + 1, now)
  {
    FellOn(w0, c0, w, c, Held(w', c'), k, i, now);
    assert Nth(WithNth(w, k, Nth(w, k)[i := []]), k) == Nth(w, k)[i := []];
    SlotsStep(Nth(w0, k), Nth(w, k), Nth(w', k), i, multiset(Nth(w, k)[i]), now);
  }

  /** The cascade of one upper wheel: it ends with no due timer in that wheel. */
  method Cascade(k: nat, w: Wheels, now: nat, l: Log, clock: nat)
    returns (w': Wheels, l': Log, clock': nat)
    requires 1 <= k <= 3 && WheelsOk(w) && LogOk(l, now) && now <= clock && Ranked(Held(w, clock))
    ensures LogOk(l', now) && l'.base == l.base && l'.fired == l.fired && clock <= clock' && WheelsOk(w')
    ensures Ranked(Held(w', clock'))
    ensures All(Held(w', clock')) + Left(l') == All(Held(w, clock)) + Left(l)
    ensures Fell(Held(w, clock), Held(w', clock'), k, At(Held(w, clock), k), now)
    ensures forall t :: t in At(Held(w', clock'), k) ==> t.next > now
  {
    w', l', clock' := w, l, clock;
    for i := 0 to 64
      invariant LogOk(l', now) && l'.base == l.base && l'.fired == l.fired
      invariant All(Held(w', clock')) + Left(l') == All(Held(w, clock)) + Left(l)
      invariant Cascaded(w, clock, w', clock', k, i, now)
    {
      w', l', clock' := CascadeIndex(k, i, w', now, l', clock', w, clock);
    }
    CascadedAll(w, clock, w', clock', k, now);
  }

  lemma {:induction false} CascadedAll(w0: Wheels, c0: nat, w: Wheels, c: nat, k: nat, now: nat)
    requires 1 <= k <= 3 && Cascaded(w0, c0, w, c, k, 64, now)
    ensures forall t :: t in At(Held(w, c), k) ==> t.next > now
  {
    forall t | t in At(Held(w, c), k) ensures t.next > now {
      FlattenIn(Nth(w, k), t);
    }
  }

  // ---- advanceWheel -------------------------------------------------------------------

  /** Wheels 1..m have no due timer left; nothing has moved up; what is due and still in wheel 0
      came down during this advance. */
  ghost predicate Progress(s0: State, s: State, now: nat, m: nat) {
    && (forall j: nat, t :: 1 <= j <= m && t in At(s, j) ==> t.next > now)
    && (forall k: nat, t :: k < 4 && t in At(s, k) ==> From(s0, t, k, 3))
    && (forall t :: t in At(s, 0) && t.next <= now ==> From(s0, t, 1, 3))
    && s.tree == s0.tree
  }

  lemma {:induction false} FromWiden(s: State, t: Timer, lo: nat, lo': nat, hi: nat)
    requires From(s, t, lo, hi) && lo' <= lo
    ensures From(s, t, lo', hi)
  {
    var j: nat :| lo <= j <= hi && t in At(s, j);
  }

  lemma {:induction false} ProgressCascade(s0: State, s: State, s': State, now: nat, k: nat)
    requires 1 <= k <= 3 && Progress(s0, s, now, k - 1) && Fell(s, s', k, At(s, k), now)
    requires forall t :: t in At(s', k) ==> t.next > now
    ensures Progress(s0, s', now, k)
  {
    forall j: nat, t | j < 4 && t in At(s', j) ensures From(s0, t, j, 3) {
      if j <= k && t !in At(s, j) {
        assert FellTo(s, j, At(s, k), now, t);
        FromWiden(s0, t, k, j, 3);
      }
    }
    forall t | t in At(s', 0) && t.next <= now ensures From(s0, t, 1, 3) {
      assert FellTo(s, 0, At(s, k), now, t);
      if t in At(s, k) {
        FromWiden(s0, t, k, 1, 3);
      }
    }
    forall j: nat, t | 1 <= j <= k && t in At(s', j) ensures t.next > now {
      if j < k {
        assert FellTo(s, j, At(s, k), now, t);
      }
    }
    assert At(s', 4) == At(s, 4);
  }

  lemma {:induction false} ProgressSweep(s: State, f: multiset<Timer>, now: nat)
    requires forall t :: t in f ==> t in s.w0 && t.next > now
    ensures Progress(s, s.(w0 := f), now, 0)
  {
    var s1 := s.(w0 := f);
    forall k: nat, t | k < 4 && t in At(s1, k) ensures From(s, t, k, 3) {
      assert t in At(s, k);
    }
  }

  lemma {:induction false} PlacedDone(s0: State, s3: State, s': State, now: nat)
    requires Progress(s0, s3, now, 3)
    requires forall k: nat :: k < 4 ==> At(s', k) == At(s3, k)
    requires forall t :: t in At(s', 4) ==> t.next > now && t in At(s0, 4)
    ensures Placed(s0, now, s')
  {
    forall k: nat, t | k < 5 && t in At(s', k) ensures From(s0, t, k, 4) {
      if k < 4 {
        var j: nat :| k <= j <= 3 && t in At(s0, j);
      }
    }
  }

  lemma {:induction false} RankedSweep(s: State, f: multiset<Timer>)
    requires Ranked(s) && forall t :: t in f ==> t in s.w0
    ensures Ranked(s.(w0 := f))
  {
    var s1 := s.(w0 := f);
    forall k: nat, t | k < 4 && t in At(s1, k) ensures Level(t.next, s1.clock) <= k {
      assert t in At(s, k);
    }
  }

  lemma {:induction false} RankedTree(s: State, f: multiset<Timer>)
    requires Ranked(s)
    ensures Ranked(s.(tree := f))
  {
    forall k: nat, t | k < 4 && t in At(s.(tree := f), k) ensures Level(t.next, s.clock) <= k {
      assert t in At(s, k);
    }
  }

  lemma {:induction false} SweepTotal(s: State, k: nat, f: multiset<Timer>, l': multiset<Timer>, l: multiset<Timer>)
    requires (k == 0 || k == 4) && f + l' == At(s, k) + l
    ensures All(SetAt(s, k, f)) + l' == All(s) + l
  {
    forall t ensures (All(SetAt(s, k, f)) + l')[t] == (All(s) + l)[t] {
      assert (f + l')[t] == (At(s, k) + l)[t];
    }
  }

  /** Wheel 0, then the upper wheels in order. */
  method SweepAndCascade(w: Wheels, now: nat, l: Log, clock: nat) returns (w': Wheels, l': Log, clock': nat)
    requires WheelsOk(w) && LogOk(l, now) && now <= clock && Ranked(Held(w, clock))
    ensures WheelsOk(w') && LogOk(l', now) && l'.base == l.base && clock <= clock' && Ranked(Held(w', clock'))
    ensures Progress(Held(w, clock), Held(w', clock'), now, 3) && FiredOf(l, l', Flatten(w.w0))
    ensures All(Held(w', clock')) + Left(l') == All(Held(w, clock)) + Left(l)
  {
    ghost var s0 := Held(w, clock);
    var v, lA := SweepWheel0(w.w0, now, l);
    var wA := w.(w0 := v);
    ProgressSweep(s0, Flatten(v), now);
    RankedSweep(s0, Flatten(v));
    SweepTotal(s0, 0, Flatten(v), Left(lA), Left(l));
    assert Held(wA, clock) == SetAt(s0, 0, Flatten(v));

    var w1, l1, c1 := Cascade(1, wA, now, lA, clock);
    ProgressCascade(s0, Held(wA, clock), Held(w1, c1), now, 1);
    var w2, l2, c2 := Cascade(2, w1, now, l1, c1);
    ProgressCascade(s0, Held(w1, c1), Held(w2, c2), now, 2);
    w', l', clock' := Cascade(3, w2, now, l2, c2);
    ProgressCascade(s0, Held(w2, c2), Held(w', clock'), now, 3);
  }

  method AdvanceWheel(w: Wheels, now: nat, cancelled: set<nat>, clock: nat)
    returns (w': Wheels, clock': nat, l: Log)
    requires WheelsOk(w) && now <= clock && Ranked(Held(w, clock))
    ensures WheelsOk(w') && Ranked(Held(w', clock')) && l.cbs == Callbacks(l.fired)
    ensures Advanced(Contents(w, cancelled, clock), now, Contents(w', l.cancelled, clock'), l.fired, l.dropped, l.raced)
  {
    var l0 := Log([], [], multiset{}, cancelled, {}, cancelled);
    assert Ids([]) == {};
    var w3, l3, c3 := SweepAndCascade(w, now, l0, clock);
    var tree;
    tree, l := PopTree(w3.tree, now, l3);
    w', clock' := w3.(tree := tree), c3;

    assert multiset(w3.tree) == multiset(w.tree);
    FiredSources(w, w3, l3, l);
    AdvanceDone(w, cancelled, clock, w3, c3, tree, l3, l, now);
  }

  lemma {:induction false} FiredSources(w: Wheels, w3: Wheels, l3: Log, l: Log)
    requires (forall t :: t in l3.fired ==> t in Flatten(w.w0)) && FiredOf(l3, l, multiset(w3.tree))
    requires multiset(w3.tree) == multiset(w.tree)
    ensures forall t :: t in l.fired ==> t in Flatten(w.w0) || t in w.tree
  {
    forall t | t in l.fired ensures t in Flatten(w.w0) || t in w.tree {
      assert t in multiset(w.tree) ==> t in w.tree;
    }
  }

  /** The last step, popping the fallback set, completes the advance. */
  lemma {:induction false} AdvanceDone(w: Wheels, cancelled: set<nat>, clock: nat, w3: Wheels, c3: nat,
                                       tree: seq<Timer>, l3: Log, l: Log, now: nat)
    requires LogOk(l, now) && l.base == cancelled && clock <= c3 && Ranked(Held(w3, c3))
    requires All(Held(w3, c3)) + Left(l3) == All(Held(w, clock))
    requires multiset(tree) + Left(l) == multiset(w3.tree) + Left(l3)
    requires Progress(Held(w, clock), Held(w3, c3), now, 3)
    requires forall t :: t in tree ==> t.next > now && t in w3.tree
    requires forall t :: t in l.fired ==> t in Flatten(w.w0) || t in w.tree
    ensures Ranked(Held(w3.(tree := tree), c3))
    ensures Advanced(Contents(w, cancelled, clock), now, Contents(w3.(tree := tree), l.cancelled, c3),
                     l.fired, l.dropped, l.raced)
  {
    AccountedDone(w, cancelled, clock, w3, c3, tree, l3, l, now);
    AtTree(Held(w, clock), Held(w3, c3), cancelled, l.cancelled, multiset(tree), now);
    assert Held(w3.(tree := tree), c3) == Held(w3, c3).(tree := multiset(tree));
    RankedTree(Held(w3, c3), multiset(tree));
  }

  lemma {:induction false} AccountedDone(w: Wheels, cancelled: set<nat>, clock: nat, w3: Wheels, c3: nat,
                                         tree: seq<Timer>, l3: Log, l: Log, now: nat)
    requires LogOk(l, now) && l.base == cancelled
    requires All(Held(w3, c3)) + Left(l3) == All(Held(w, clock))
    requires multiset(tree) + Left(l) == multiset(w3.tree) + Left(l3)
    requires forall t :: t in l.fired ==> t in Flatten(w.w0) || t in w.tree
    ensures Accounted(Contents(w, cancelled, clock), now, Contents(w3.(tree := tree), l.cancelled, c3),
                      l.fired, l.dropped, l.raced)
  {
    SweepTotal(Held(w3, c3), 4, multiset(tree), Left(l), Left(l3));
    assert SetAt(Held(w3, c3), 4, multiset(tree)) == Held(w3.(tree := tree), c3);
  }

  lemma {:induction false} AtTree(s0: State, s3: State, flags0: set<nat>, flags: set<nat>, tree: multiset<Timer>,
                                  now: nat)
    requires Progress(s0, s3, now, 3)
    requires forall t :: t in tree ==> t.next > now && t in s0.tree
    ensures Placed(s0.(cancelled := flags0), now, s3.(cancelled := flags, tree := tree))
  {
    var s' := s3.(cancelled := flags, tree := tree);
    WheelsSame(s3, flags, tree);
    PlacedDone(s0, s3, s', now);
    PlacedFlags(s0, flags0, now, s');
  }

  lemma {:induction false} WheelsSame(s: State, flags: set<nat>, tree: multiset<Timer>)
    ensures forall k: nat :: k < 4 ==> At(s.(cancelled := flags, tree := tree), k) == At(s, k)
    ensures At(s.(cancelled := flags, tree := tree), 4) == tree
  {
  }

  /** Where a timer is does not depend on the cancellation flags. */
  lemma {:induction false} FromFlags(s: State, cancelled: set<nat>, t: Timer, lo: nat, hi: nat)
    requires From(s, t, lo, hi)
    ensures From(s.(cancelled := cancelled), t, lo, hi)
  {
    var j: nat :| lo <= j <= hi && t in At(s, j);
    assert At(s.(cancelled := cancelled), j) == At(s, j);
  }

  lemma {:induction false} PlacedFlags(s: State, cancelled: set<nat>, now: nat, s': State)
    requires Placed(s, now, s')
    ensures Placed(s.(cancelled := cancelled), now, s')
  {
    var u := s.(cancelled := cancelled);
    forall k: nat, t | k < 5 && t in At(s', k) ensures From(u, t, k, 4) {
      FromFlags(s, cancelled, t, k, 4);
    }
    forall t | t in At(s', 0) && t.next <= now ensures From(u, t, 1, 3) {
      FromFlags(s, cancelled, t, 1, 3);
    }
  }
}
