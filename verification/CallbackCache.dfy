/** The scheduler's cache of callback fibers (src/scheduler.cpp:224-273) over the fiber lifecycle
    (src/fiber.cpp:118-207).  Each worker keeps a bounded stack of finished fibers and rearms the last
    one instead of building a new one; three counters and two gauges follow it.

    A fiber is named by its allocation index.  `outside` counts the references to it that are not
    held by a cache: only a holder of one can copy, drop, run or offer the fiber. */
module CallbackCaches {
  import opened Prelude

  datatype Life = Ready | Running | Term

  /** `owner` is the scheduler and worker that MarkSchedulerCallback recorded. */
  datatype Fiber = Fiber(owner: Option<(nat, nat)>, main: bool, life: Life, context: bool, caller: bool,
                         bytes: nat, outside: nat)

  /** A cached reference; `bytes` is the stack size of the fiber it names. */
  datatype Ref = Ref(id: nat, bytes: nat)

  datatype State = State(fibers: seq<Fiber>, caches: seq<seq<Ref>>, count: int, bytes: int,
                         hits: nat, misses: nat, evictions: nat, acquisitions: nat)

  /** `me` is this scheduler's id, `capacity` its bound per worker. */
  datatype Config = Config(me: nat, capacity: nat, workers: nat)

  datatype Event =
    | Acquire(w: nat, built: bool, size: nat)     // built: the new context or fiber did not throw
    | Offer(w: nat, f: nat, pushed: bool)         // pushed: push_back did not throw
    | Clear
    | Create(owner: Option<(nat, nat)>, main: bool, size: nat)
    | Resume(f: nat)
    | Yield(f: nat)
    | Finish(f: nat)
    | Copy(f: nat)
    | Drop(f: nat)

  function Init(c: Config): State {
    State([], seq(c.workers, _ => []), 0, 0, 0, 0, 0, 0)
  }

  predicate Reusable(k: Fiber, me: nat, w: nat) {
    k.owner == Some((me, w)) && !k.main && k.life.Term? && !k.context && !k.caller
  }

  function Rearmed(k: Fiber): Fiber {
    k.(life := Ready, context := true, outside := 1)
  }

  function Fresh(owner: Option<(nat, nat)>, main: bool, size: nat): Fiber {
    Fiber(owner, main, Ready, true, false, size, 1)
  }

  /** A hit leaves the cache and the gauges before the context is rebuilt; when that throws the fiber
      is destroyed with its last reference. */
  function AcquireStep(c: Config, s: State, w: nat, built: bool, size: nat): State
    requires w < |s.caches|
  {
    var cache := s.caches[w];
    var n := |cache| - 1;
    if n >= 0 && cache[n].id < |s.fibers| then
      var id := cache[n].id;
      s.(caches := s.caches[w := cache[..n]], hits := s.hits + 1, acquisitions := s.acquisitions + 1,
         count := s.count - 1, bytes := s.bytes - s.fibers[id].bytes,
         fibers := if built then s.fibers[id := Rearmed(s.fibers[id])] else s.fibers)
    else
      s.(misses := s.misses + 1, acquisitions := s.acquisitions + 1,
         fibers := if built then s.fibers + [Fresh(Some((c.me, w)), false, size)] else s.fibers)
  }

  function OfferStep(c: Config, s: State, w: nat, f: nat, pushed: bool): State
    requires w < |s.caches| && f < |s.fibers|
  {
    var k := s.fibers[f];
    if k.outside != 1 || !Reusable(k, c.me, w) then s
    else if |s.caches[w]| >= c.capacity || !pushed then s.(evictions := s.evictions + 1)
    else
      s.(caches := s.caches[w := s.caches[w] + [Ref(f, k.bytes)]], fibers := s.fibers[f := k.(outside := 0)],
         count := s.count + 1, bytes := s.bytes + k.bytes)
  }

  /** The fiber's own transitions, and its references outside the cache. */
  function Own(k: Fiber, e: Event): Fiber {
    if k.outside == 0 then k else
    match e
    case Resume(_) =>
      if k.life.Ready? && k.context then k.(life := Running, context := false, caller := true) else k
    case Yield(_) => if k.life.Running? then k.(life := Ready, context := true, caller := false) else k
    case Finish(_) => if k.life.Running? then k.(life := Term, caller := false) else k
    case Copy(_) => k.(outside := k.outside + 1)
    case Drop(_) => k.(outside := k.outside - 1)
    case _ => k
  }

  function Len(cache: seq<Ref>): nat { |cache| }
  function RefBytes(r: Ref): nat { r.bytes }
  function CacheBytes(cache: seq<Ref>): nat { Sum(cache, RefBytes) }

  function Emptied(caches: seq<seq<Ref>>): seq<seq<Ref>> {
    seq(|caches|, _ => [])
  }

  function Step(c: Config, s: State, e: Event): State {
    match e
    case Acquire(w, built, size) => if w < |s.caches| then AcquireStep(c, s, w, built, size) else s
    case Offer(w, f, pushed) =>
      if w < |s.caches| && f < |s.fibers| then OfferStep(c, s, w, f, pushed) else s
    case Clear =>
      s.(caches := Emptied(s.caches), count := s.count - Sum(s.caches, Len),
         bytes := s.bytes - Sum(s.caches, CacheBytes))
    case Create(owner, main, size) => s.(fibers := s.fibers + [Fresh(owner, main, size)])
    case _ => if e.f < |s.fibers| then s.(fibers := s.fibers[e.f := Own(s.fibers[e.f], e)]) else s
  }

  function Run(c: Config, es: seq<Event>): State {
    if es == [] then Init(c) else Step(c, Run(c, es[..|es| - 1]), es[|es| - 1])
  }

  // ----- what every step keeps

  /** A cached fiber is finished, belongs to this scheduler and worker, and nobody else refers to it. */
  ghost predicate Cached(c: Config, fibers: seq<Fiber>, r: Ref, w: nat) {
    && r.id < |fibers| && r.bytes == fibers[r.id].bytes
    && Reusable(fibers[r.id], c.me, w) && fibers[r.id].outside == 0
  }

  ghost predicate CacheOk(c: Config, fibers: seq<Fiber>, cache: seq<Ref>, w: nat) {
    && |cache| <= c.capacity
    && (forall i :: 0 <= i < |cache| ==> Cached(c, fibers, cache[i], w))
    && (forall i, j :: 0 <= i < j < |cache| ==> cache[i].id != cache[j].id)
  }

  ghost predicate Caches(c: Config, s: State) {
    forall w :: 0 <= w < |s.caches| ==> CacheOk(c, s.fibers, s.caches[w], w)
  }

  ghost predicate Exact(s: State) {
    && s.count == Sum(s.caches, Len)
    && s.bytes == Sum(s.caches, CacheBytes)
    && s.hits + s.misses == s.acquisitions
  }

  ghost predicate Safe(c: Config, s: State) {
    |s.caches| == c.workers && Caches(c, s) && Exact(s)
  }

  /** Changing a fiber that no cache refers to leaves every cache in order. */
  lemma {:induction false} OthersKept(c: Config, s: State, fibers: seq<Fiber>, w: nat, cache: seq<Ref>)
    requires CacheOk(c, s.fibers, cache, w) && |s.fibers| <= |fibers|
    requires forall i :: 0 <= i < |cache| ==> fibers[cache[i].id] == s.fibers[cache[i].id]
    ensures CacheOk(c, fibers, cache, w)
  {
    forall i | 0 <= i < |cache| ensures Cached(c, fibers, cache[i], w) {
      assert Cached(c, s.fibers, cache[i], w);
    }
  }

  /** Only one reference names fiber f: caches of different workers hold fibers of different workers. */
  lemma {:induction false} OneHolder(c: Config, s: State, w: nat, v: nat, f: nat)
    requires Caches(c, s) && w < |s.caches| && v < |s.caches| && v != w && f < |s.fibers|
    requires s.fibers[f].owner == Some((c.me, w))
    ensures forall i :: 0 <= i < |s.caches[v]| ==> s.caches[v][i].id != f
  {
    assert CacheOk(c, s.fibers, s.caches[v], v);
    forall i | 0 <= i < |s.caches[v]| ensures s.caches[v][i].id != f {
      assert Cached(c, s.fibers, s.caches[v][i], v);
    }
  }

  lemma {:induction false} HitKeeps(c: Config, s: State, w: nat, built: bool, size: nat)
    requires Safe(c, s) && w < |s.caches| && s.caches[w] != []
    ensures Safe(c, AcquireStep(c, s, w, built, size))
  {
    var cache, t := s.caches[w], AcquireStep(c, s, w, built, size);
    var n := |cache| - 1;
    assert CacheOk(c, s.fibers, cache, w);
    assert Cached(c, s.fibers, cache[n], w);
    var f := cache[n].id;
    forall v | 0 <= v < |t.caches| ensures CacheOk(c, t.fibers, t.caches[v], v) {
      if v == w {
        OthersKept(c, s, t.fibers, w, cache[..n]);
      } else {
        OneHolder(c, s, w, v, f);
        OthersKept(c, s, t.fibers, v, s.caches[v]);
      }
    }
    SumUpdate(s.caches, w, cache[..n], Len);
    SumUpdate(s.caches, w, cache[..n], CacheBytes);
  }

  lemma {:induction false} GrowKeeps(c: Config, s: State, k: Fiber)
    requires Caches(c, s)
    ensures Caches(c, s.(fibers := s.fibers + [k]))
  {
    forall v | 0 <= v < |s.caches| ensures CacheOk(c, s.fibers + [k], s.caches[v], v) {
      assert CacheOk(c, s.fibers, s.caches[v], v);
      forall i | 0 <= i < |s.caches[v]| ensures (s.fibers + [k])[s.caches[v][i].id] == s.fibers[s.caches[v][i].id] {
        assert Cached(c, s.fibers, s.caches[v][i], v);
      }
      OthersKept(c, s, s.fibers + [k], v, s.caches[v]);
    }
  }

  lemma {:induction false} AcquireKeeps(c: Config, s: State, w: nat, built: bool, size: nat)
    requires Safe(c, s) && w < |s.caches|
    ensures Safe(c, AcquireStep(c, s, w, built, size))
  {
    if s.caches[w] != [] {
      HitKeeps(c, s, w, built, size);
    } else if built {
      GrowKeeps(c, s, Fresh(Some((c.me, w)), false, size));
    }
  }

  /** A fiber with an outside reference is in no cache. */
  lemma {:induction false} HeldIsNotCached(c: Config, s: State, f: nat, v: nat)
    requires Caches(c, s) && f < |s.fibers| && s.fibers[f].outside > 0 && v < |s.caches|
    ensures forall i :: 0 <= i < |s.caches[v]| ==> s.caches[v][i].id != f
  {
    assert CacheOk(c, s.fibers, s.caches[v], v);
    forall i | 0 <= i < |s.caches[v]| ensures s.caches[v][i].id != f {
      assert Cached(c, s.fibers, s.caches[v][i], v);
    }
  }

  lemma {:induction false} TouchKeeps(c: Config, s: State, f: nat, k: Fiber, v: nat)
    requires Caches(c, s) && f < |s.fibers| && s.fibers[f].outside > 0 && v < |s.caches|
    ensures CacheOk(c, s.fibers[f := k], s.caches[v], v)
  {
    HeldIsNotCached(c, s, f, v);
    assert CacheOk(c, s.fibers, s.caches[v], v);
    OthersKept(c, s, s.fibers[f := k], v, s.caches[v]);
  }

  lemma {:induction false} OfferKeeps(c: Config, s: State, w: nat, f: nat, pushed: bool)
    requires Safe(c, s) && w < |s.caches| && f < |s.fibers|
    ensures Safe(c, OfferStep(c, s, w, f, pushed))
  {
    var k, t := s.fibers[f], OfferStep(c, s, w, f, pushed);
    if k.outside == 1 && Reusable(k, c.me, w) && |s.caches[w]| < c.capacity && pushed {
      var r := Ref(f, k.bytes);
      forall v | 0 <= v < |t.caches| ensures CacheOk(c, t.fibers, t.caches[v], v) {
        TouchKeeps(c, s, f, k.(outside := 0), v);
        if v == w { HeldIsNotCached(c, s, f, w); }
      }
      SumSnoc(s.caches[w], r, RefBytes);
      SumUpdate(s.caches, w, s.caches[w] + [r], Len);
      SumUpdate(s.caches, w, s.caches[w] + [r], CacheBytes);
    }
  }

  lemma {:induction false} ClearKeeps(c: Config, s: State)
    requires Safe(c, s)
    ensures Safe(c, Step(c, s, Clear))
    ensures Step(c, s, Clear).count == 0 && Step(c, s, Clear).bytes == 0
  {
    SumZero(Emptied(s.caches), Len);
    SumZero(Emptied(s.caches), CacheBytes);
  }

  lemma {:induction false} OwnKeeps(c: Config, s: State, f: nat, e: Event)
    requires Safe(c, s) && f < |s.fibers|
    ensures Safe(c, s.(fibers := s.fibers[f := Own(s.fibers[f], e)]))
  {
    if s.fibers[f].outside == 0 {
      assert s.fibers[f := Own(s.fibers[f], e)] == s.fibers;
    } else {
      forall v | 0 <= v < |s.caches| ensures CacheOk(c, s.fibers[f := Own(s.fibers[f], e)], s.caches[v], v) {
        TouchKeeps(c, s, f, Own(s.fibers[f], e), v);
      }
    }
  }

  lemma {:induction false} StepKeepsSafe(c: Config, s: State, e: Event)
    requires Safe(c, s)
    ensures Safe(c, Step(c, s, e))
  {
    match e
    case Acquire(w, built, size) => if w < |s.caches| { AcquireKeeps(c, s, w, built, size); }
    case Offer(w, f, pushed) => if w < |s.caches| && f < |s.fibers| { OfferKeeps(c, s, w, f, pushed); }
    case Clear => ClearKeeps(c, s);
    case Create(owner, main, size) => GrowKeeps(c, s, Fresh(owner, main, size));
    case _ => if e.f < |s.fibers| { OwnKeeps(c, s, e.f, e); }
  }

  /** After every operation, including one that throws, each cache is within its bound and holds only
      finished, unaliased fibers of its own worker, the two gauges equal the real contents, and hits
      and misses add up to the acquisitions. */
  lemma {:induction false} CacheIsExact(c: Config, es: seq<Event>)
    ensures Safe(c, Run(c, es))
    decreases |es|
  {
    if es == [] {
      SumZero(Init(c).caches, Len);
      SumZero(Init(c).caches, CacheBytes);
    } else {
      CacheIsExact(c, es[..|es| - 1]);
      StepKeepsSafe(c, Run(c, es[..|es| - 1]), es[|es| - 1]);
    }
  }

  lemma {:induction false} ClearedGaugesAreZero(c: Config, es: seq<Event>)
    ensures Run(c, es + [Clear]).count == 0 && Run(c, es + [Clear]).bytes == 0
  {
    CacheIsExact(c, es);
    assert (es + [Clear])[..|es|] == es;
    ClearKeeps(c, Run(c, es));
  }

  /** A hit hands out a fiber that `reset` accepts, so its checks never fail, and nobody else holds it. */
  lemma {:induction false} HitIsRearmed(c: Config, es: seq<Event>, w: nat, size: nat)
    requires w < |Run(c, es).caches| && Run(c, es).caches[w] != []
    ensures var s, t := Run(c, es), Run(c, es + [Acquire(w, true, size)]);
            var cache := s.caches[w]; var id := cache[|cache| - 1].id;
            && id < |s.fibers| && s.fibers[id].life.Term? && !s.fibers[id].context && !s.fibers[id].main
            && |t.fibers| == |s.fibers| && t.fibers[id].life.Ready? && t.fibers[id].context && t.fibers[id].outside == 1
            && t.hits == s.hits + 1
            && (forall v, i :: 0 <= v < |t.caches| && 0 <= i < |t.caches[v]| ==> t.caches[v][i].id != id)
  {
    CacheIsExact(c, es);
    var e := Acquire(w, true, size);
    assert (es + [e])[..|es|] == es;
    var s, t := Run(c, es), Run(c, es + [e]);
    var cache := s.caches[w];
    assert CacheOk(c, s.fibers, cache, w);
    assert Cached(c, s.fibers, cache[|cache| - 1], w);
    StepKeepsSafe(c, s, e);
    forall v, i | 0 <= v < |t.caches| && 0 <= i < |t.caches[v]| ensures t.caches[v][i].id != cache[|cache| - 1].id {
      HeldIsNotCached(c, t, cache[|cache| - 1].id, v);
    }
  }

  lemma {:induction false} AcquireIn(c: Config, s: State, w: nat)
    requires Safe(c, s) && w < |s.caches|
    ensures var cache := s.caches[w];
            cache != [] ==> cache[|cache| - 1].id < |s.fibers| && Reusable(s.fibers[cache[|cache| - 1].id], c.me, w)
  {
    assert CacheOk(c, s.fibers, s.caches[w], w);
  }

  ghost predicate Named(fibers: seq<Fiber>, r: Ref) {
    r.id < |fibers| && r.bytes == fibers[r.id].bytes
  }

  /** Clearing takes the cached fibers of one worker out of the gauges one by one. */
  method Drain(fibers: seq<Fiber>, cache: seq<Ref>, count: int, bytes: int) returns (n: int, b: int)
    requires forall i :: 0 <= i < |cache| ==> Named(fibers, cache[i])
    ensures n == count - |cache| && b == bytes - CacheBytes(cache)
  {
    n, b := count, bytes;
    var i := 0;
    while i < |cache|
      invariant i <= |cache|
      invariant n == count - i && b == bytes - CacheBytes(cache[..i])
    {
      assert Named(fibers, cache[i]);
      assert cache[..i + 1][..i] == cache[..i];
      n, b := n - 1, b - fibers[cache[i].id].bytes;
      i := i + 1;
    }
    assert cache[..i] == cache;
  }

  method DrainAll(fibers: seq<Fiber>, caches: seq<seq<Ref>>, count: int, bytes: int) returns (n: int, b: int)
    requires forall w, i :: 0 <= w < |caches| && 0 <= i < |caches[w]| ==> Named(fibers, caches[w][i])
    ensures n == count - Sum(caches, Len) && b == bytes - Sum(caches, CacheBytes)
  {
    n, b := count, bytes;
    var w := 0;
    while w < |caches|
      invariant w <= |caches|
      invariant n == count - Sum(caches[..w], Len) && b == bytes - Sum(caches[..w], CacheBytes)
    {
      assert caches[..w + 1][..w] == caches[..w];
      n, b := Drain(fibers, caches[w], n, b);
      w := w + 1;
    }
    assert caches[..w] == caches;
  }

  /** The three operations as the scheduler runs them. */
  class CallbackCache {
    const c: Config
    var fibers: seq<Fiber>
    var caches: seq<seq<Ref>>
    var count: int
    var bytes: int
    var hits: nat
    var misses: nat
    var evictions: nat
    ghost var acquisitions: nat

    ghost function View(): State
      reads this
    {
      State(fibers, caches, count, bytes, hits, misses, evictions, acquisitions)
    }

    ghost predicate Valid()
      reads this
    {
      Safe(c, View())
    }

    constructor (config: Config)
      ensures c == config && Valid() && View() == Init(config)
    {
      c := config;
      fibers, caches := [], seq(config.workers, _ => []);
      count, bytes, hits, misses, evictions, acquisitions := 0, 0, 0, 0, 0, 0;
      new;
      CacheIsExact(config, []);
    }

    /** `built` is false when rebuilding the context, or building the fiber, throws. */
    method AcquireCallbackFiber(w: nat, built: bool, size: nat) returns (r: Option<nat>)
      requires Valid() && w < |caches|
      modifies this
      ensures Valid() && View() == Step(c, old(View()), Acquire(w, built, size))
      ensures r.Some? <==> built
      ensures built ==> r.value < |fibers| && fibers[r.value].owner == Some((c.me, w))
                        && fibers[r.value].life.Ready? && fibers[r.value].outside == 1
    {
      ghost var v := View();
      AcquireIn(c, v, w);
      acquisitions := acquisitions + 1;
      r := None;
      var n := |caches[w]|;
      if n > 0 {
        var f := caches[w][n - 1].id;
        caches := caches[w := caches[w][..n - 1]];
        hits, count, bytes := hits + 1, count - 1, bytes - fibers[f].bytes;
        if built {
          fibers := fibers[f := Rearmed(fibers[f])];
          r := Some(f);
        }
      } else {
        misses := misses + 1;
        if built {
          r := Some(|fibers|);
          fibers := fibers + [Fresh(Some((c.me, w)), false, size)];
        }
      }
      assert View() == AcquireStep(c, v, w, built, size);
      AcquireKeeps(c, v, w, built, size);
    }

    method TryCacheCallbackFiber(w: nat, f: nat, pushed: bool)
      requires Valid() && w < |caches| && f < |fibers|
      modifies this
      ensures Valid() && View() == Step(c, old(View()), Offer(w, f, pushed))
    {
      OfferKeeps(c, View(), w, f, pushed);
      var k := fibers[f];
      if k.outside != 1 || !Reusable(k, c.me, w) {
        return;
      }
      if |caches[w]| >= c.capacity || !pushed {
        evictions := evictions + 1;
        return;
      }
      caches := caches[w := caches[w] + [Ref(f, k.bytes)]];
      fibers := fibers[f := k.(outside := 0)];
      count, bytes := count + 1, bytes + k.bytes;
    }

    method ClearCallbackFiberCaches()
      requires Valid()
      modifies this
      ensures Valid() && count == 0 && bytes == 0
      ensures View() == Step(c, old(View()), Clear)
    {
      ClearKeeps(c, View());
      forall w, i | 0 <= w < |caches| && 0 <= i < |caches[w]| ensures Named(fibers, caches[w][i]) {
        assert CacheOk(c, fibers, caches[w], w);
        assert Cached(c, fibers, caches[w][i], w);
      }
      count, bytes := DrainAll(fibers, caches, count, bytes);
      caches := seq(|caches|, _ => []);
    }
  }
}
