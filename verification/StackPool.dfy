/** The pooled stack allocator (src/stack_allocator.cpp:24-27, 47-83, 205-341): free lists by size
    class under a byte cap, and a ledger of counters.

    Acquire, release and trim each use several critical sections with raw allocation or freeing in
    between, so any number of callers interleave; each event is one critical section, together with
    the raw operation that no other caller can see. */
module StackPools {
  import opened Prelude
  import opened PowersOfTwo

  /** `direct` marks a passthrough allocation; `id` names the allocation. */
  datatype Block = Block(id: nat, usable: nat, size: nat, direct: bool)

  /** One entry of the ordered map of free lists. */
  datatype Class = Class(size: nat, blocks: seq<Block>)
  datatype Loan = Loan(block: Block, asked: nat)

  /** A miss between its two critical sections: what was asked and what AllocateRaw is asked. */
  datatype Want = Want(asked: nat, raw: nat, direct: bool)

  datatype Stats = Stats(requests: nat, hits: nat, misses: nat, returned: nat, evictions: nat, direct: nat,
                         allocations: nat, frees: nat, cachedBytes: int, checkedOut: int, peak: int)

  /** `freeing` are blocks already evicted and not yet counted as freed; `base` is the number of
      blocks alive at the last reset of the counters; `terminated` is the check in release. */
  datatype State = State(lists: seq<Class>, lent: seq<Loan>, allocating: seq<Want>, freeing: seq<Block>,
                         stats: Stats, base: int, next: nat, terminated: bool)

  /** `page` is 0 in the malloc build and the guard page size otherwise. */
  datatype Config = Config(maxCached: nat, maxPooled: nat, min: nat, page: nat)

  datatype Insert = Inserted | NoEntry | EmptyEntry   // the last two: the map or the vector threw

  datatype Event =
    | Acquire(asked: nat)
    | Allocated(i: nat, ok: bool)
    | Release(i: nat, insert: Insert)
    | TrimTake(keep: nat)
    | Freed(i: nat)
    | ResetStats

  const ZERO := Stats(0, 0, 0, 0, 0, 0, 0, 0, 0, 0, 0)
  const INIT := State([], [], [], [], ZERO, 0, 0, false)

  // ----- sizes

  function NormalizeMinimum(c: Config, v: nat): nat {
    if v < c.min then c.min else v
  }

  /** None is bad_alloc, thrown before anything is counted. */
  function PooledSize(c: Config, asked: nat): Option<nat> {
    var m := NormalizeMinimum(c, asked);
    if m > HALF64 then None else Some(Round(m))
  }

  predicate Poolable(c: Config, pooled: nat) {
    c.maxCached != 0 && c.maxPooled != 0 && pooled <= c.maxPooled
  }

  function AlignUp(v: nat, a: nat): Option<nat>
    requires a > 0
  {
    if v > WORD64 - 1 - (a - 1) then None else Some((v + a - 1) / a * a)
  }

  /** Usable size of a raw allocation, with the overflow checks of the guard-page build. */
  function Raw(c: Config, v: nat): Option<nat> {
    var m := NormalizeMinimum(c, v);
    if c.page == 0 then Some(m)
    else
      match AlignUp(m, c.page)
      case None => None
      case Some(u) => if u > WORD64 - 1 - c.page then None else Some(u)
  }

  /** The size test of release. */
  predicate Accepts(c: Config, usable: nat) {
    c.maxCached != 0 && usable != 0 && And(usable, usable - 1) == 0 && usable <= c.maxPooled
  }

  predicate Cacheable(c: Config, b: Block, cachedBytes: int) {
    Accepts(c, b.usable) && cachedBytes <= c.maxCached && b.size <= c.maxCached - cachedBytes
  }

  /** What the constructor makes of its options. */
  ghost predicate Configured(c: Config) {
    c.min > 0 && (c.maxPooled == 0 || IsPow2(c.maxPooled))
  }

  // ----- the ordered map

  function At(lists: seq<Class>, k: nat): (i: nat)
    ensures i <= |lists|
    ensures i < |lists| ==> lists[i].size >= k
    ensures forall j :: 0 <= j < i ==> lists[j].size < k
  {
    if |lists| == 0 then 0 else if lists[0].size >= k then 0 else At(lists[1..], k) + 1
  }

  predicate Has(lists: seq<Class>, k: nat) {
    var i := At(lists, k); i < |lists| && lists[i].size == k
  }

  /** The map's operator[]: the entry for k exists afterwards. */
  function Entry(lists: seq<Class>, k: nat): seq<Class> {
    var i := At(lists, k);
    if Has(lists, k) then lists else lists[..i] + [Class(k, [])] + lists[i..]
  }

  function Push(lists: seq<Class>, i: nat, b: Block): seq<Class>
    requires i < |lists|
  {
    lists[i := Class(lists[i].size, lists[i].blocks + [b])]
  }

  /** Inserting a block into its class; a vector that throws leaves the entry it was given. */
  function Inserting(lists: seq<Class>, b: Block, insert: Insert): seq<Class> {
    var i, entered := At(lists, b.usable), Entry(lists, b.usable);
    if insert.NoEntry? then lists
    else if insert.Inserted? && i < |entered| then Push(entered, i, b) else entered
  }

  function Pop(lists: seq<Class>, i: nat): seq<Class>
    requires i < |lists| && |lists[i].blocks| > 0
  {
    lists[i := Class(lists[i].size, lists[i].blocks[..|lists[i].blocks| - 1])]
  }

  function Back(k: Class): Block
    requires |k.blocks| > 0
  {
    k.blocks[|k.blocks| - 1]
  }

  /** The largest class that still has a block, or the number of classes. */
  function Top(lists: seq<Class>): (i: nat)
    ensures i <= |lists|
    ensures i < |lists| ==> |lists[i].blocks| > 0
    ensures forall j :: 0 <= j < |lists| && (i < j || i == |lists|) ==> |lists[j].blocks| == 0
  {
    if |lists| == 0 then 0
    else
      var n := |lists| - 1;
      if |lists[n].blocks| > 0 then n
      else if Top(lists[..n]) < n then Top(lists[..n]) else |lists|
  }

  // ----- the steps

  function Remove<T>(s: seq<T>, i: nat): seq<T>
    requires i < |s|
  {
    s[..i] + s[i + 1..]
  }

  function Max(a: int, b: int): int { if a < b then b else a }

  /** Counting a block out: the gauge and its peak. */
  function CheckOut(t: Stats, size: nat): Stats {
    t.(checkedOut := t.checkedOut + size, peak := Max(t.peak, t.checkedOut + size))
  }

  function HitStep(s: State, i: nat, asked: nat): State
    requires i < |s.lists| && |s.lists[i].blocks| > 0
  {
    var b := Back(s.lists[i]);
    s.(lists := Pop(s.lists, i), lent := s.lent + [Loan(b, asked)],
       stats := CheckOut(s.stats.(requests := s.stats.requests + 1, hits := s.stats.hits + 1,
                                  cachedBytes := s.stats.cachedBytes - b.size), b.size))
  }

  function AcquireStep(c: Config, s: State, asked: nat): State {
    match PooledSize(c, asked)
    case None => s
    case Some(p) =>
      var i := At(s.lists, p);
      if Poolable(c, p) && Has(s.lists, p) && |s.lists[i].blocks| > 0 then HitStep(s, i, asked)
      else
        var direct := !Poolable(c, p);
        s.(allocating := s.allocating + [Want(asked, if direct then asked else p, direct)],
           stats := s.stats.(requests := s.stats.requests + 1, misses := s.stats.misses + 1,
                             direct := s.stats.direct + if direct then 1 else 0))
  }

  function AllocatedStep(c: Config, s: State, i: nat, ok: bool): State
    requires i < |s.allocating|
  {
    var w, t := s.allocating[i], s.(allocating := Remove(s.allocating, i));
    match Raw(c, w.raw)
    case None => t
    case Some(u) =>
      if !ok then t
      else
        var b := Block(s.next, u, u + c.page, w.direct);
        t.(next := s.next + 1, lent := s.lent + [Loan(b, w.asked)],
           stats := CheckOut(s.stats.(allocations := s.stats.allocations + 1), b.size))
  }

  function ReleaseStep(c: Config, s: State, i: nat, insert: Insert): State
    requires i < |s.lent|
  {
    var b := s.lent[i].block;
    var t := s.(lent := Remove(s.lent, i),
                stats := s.stats.(returned := s.stats.returned + 1, checkedOut := s.stats.checkedOut - b.size));
    if s.stats.checkedOut < b.size then s.(terminated := true)
    else if Cacheable(c, b, s.stats.cachedBytes) && insert.Inserted? then
      t.(lists := Inserting(s.lists, b, insert), stats := t.stats.(cachedBytes := t.stats.cachedBytes + b.size))
    else
      t.(lists := if Cacheable(c, b, s.stats.cachedBytes) then Inserting(s.lists, b, insert) else s.lists,
         freeing := s.freeing + [b], stats := t.stats.(evictions := t.stats.evictions + 1))
  }

  function TrimStep(s: State, keep: nat): State {
    var i := Top(s.lists);
    if s.stats.cachedBytes <= keep || i == |s.lists| then s
    else
      var b := Back(s.lists[i]);
      s.(lists := Pop(s.lists, i), freeing := s.freeing + [b],
         stats := s.stats.(cachedBytes := s.stats.cachedBytes - b.size, evictions := s.stats.evictions + 1))
  }

  function ResetStep(s: State): State {
    s.(base := s.base + s.stats.allocations - s.stats.frees,
       stats := ZERO.(cachedBytes := s.stats.cachedBytes, checkedOut := s.stats.checkedOut,
                      peak := s.stats.checkedOut))
  }

  function Step(c: Config, s: State, e: Event): State {
    match e
    case Acquire(asked) => AcquireStep(c, s, asked)
    case Allocated(i, ok) => if i < |s.allocating| then AllocatedStep(c, s, i, ok) else s
    case Release(i, insert) => if i < |s.lent| then ReleaseStep(c, s, i, insert) else s
    case TrimTake(keep) => TrimStep(s, keep)
    case Freed(i) =>
      if i < |s.freeing|
      then s.(freeing := Remove(s.freeing, i), stats := s.stats.(frees := s.stats.frees + 1)) else s
    case ResetStats => ResetStep(s)
  }

  function Run(c: Config, es: seq<Event>): State {
    if es == [] then INIT else Step(c, Run(c, es[..|es| - 1]), es[|es| - 1])
  }

  // ----- weighing the pool: one weight on blocks gives bytes, numbers and occurrences alike

  function Size(b: Block): nat { b.size }
  function Unit(b: Block): nat { 1 }
  function Is(id: nat): Block -> nat { (b: Block) => if b.id == id then 1 else 0 }

  function InClass(g: Block -> nat): Class -> nat { (k: Class) => Sum(k.blocks, g) }
  function InLoan(g: Block -> nat): Loan -> nat { (l: Loan) => g(l.block) }

  function Cached(s: State, g: Block -> nat): nat { Sum(s.lists, InClass(g)) }
  function Lent(s: State, g: Block -> nat): nat { Sum(s.lent, InLoan(g)) }
  function Alive(s: State, g: Block -> nat): nat { Cached(s, g) + Lent(s, g) + Sum(s.freeing, g) }

  lemma {:induction false} EntryWeight(lists: seq<Class>, k: nat, g: Block -> nat)
    ensures Sum(Entry(lists, k), InClass(g)) == Sum(lists, InClass(g))
  {
    SumInsert(lists, At(lists, k), Class(k, []), InClass(g));
  }

  lemma {:induction false} PushWeight(lists: seq<Class>, i: nat, b: Block, g: Block -> nat)
    requires i < |lists|
    ensures Sum(Push(lists, i, b), InClass(g)) == Sum(lists, InClass(g)) + g(b)
  {
    SumUpdate(lists, i, Class(lists[i].size, lists[i].blocks + [b]), InClass(g));
    SumSnoc(lists[i].blocks, b, g);
  }

  lemma {:induction false} PopWeight(lists: seq<Class>, i: nat, g: Block -> nat)
    requires i < |lists| && |lists[i].blocks| > 0
    ensures Sum(Pop(lists, i), InClass(g)) + g(Back(lists[i])) == Sum(lists, InClass(g))
  {
    SumUpdate(lists, i, Class(lists[i].size, lists[i].blocks[..|lists[i].blocks| - 1]), InClass(g));
  }

  // ----- sizes are right

  lemma {:induction false} RawCovers(c: Config, v: nat)
    requires Raw(c, v).Some?
    ensures Raw(c, v).value >= NormalizeMinimum(c, v)
  {
    if c.page > 0 { AlignCovers(NormalizeMinimum(c, v), c.page); }
  }

  lemma {:induction false} AlignCovers(v: nat, a: nat)
    requires a > 0
    ensures v <= (v + a - 1) / a * a < v + a
  {
    var x := v + a - 1;
    assert x == x / a * a + x % a;
  }

  /** The class of a request is at least what was asked. */
  lemma {:induction false} PooledCovers(c: Config, asked: nat)
    requires PooledSize(c, asked).Some?
    ensures asked <= NormalizeMinimum(c, asked) <= PooledSize(c, asked).value
    ensures IsPow2(PooledSize(c, asked).value)
  {
    RoundIsCeiling(NormalizeMinimum(c, asked));
  }

  /** A request too large for the pool, or made while the pool is off, yields a block whose size the
      pool will not take back. */
  lemma {:induction false} DirectIsNotAccepted(c: Config, asked: nat)
    requires Configured(c) && PooledSize(c, asked).Some? && !Poolable(c, PooledSize(c, asked).value)
    requires Raw(c, asked).Some?
    ensures !Accepts(c, Raw(c, asked).value)
  {
    var m := NormalizeMinimum(c, asked);
    RoundIsCeiling(m);
    RawCovers(c, asked);
    if c.maxPooled != 0 {
      var k: nat :| c.maxPooled == Pow2(k);
      assert m <= Pow2(k) ==> Round(m) <= Pow2(k);
    }
  }

  lemma {:induction false} Scale(n: int, a: int)
    requires a > 0
    ensures n >= 1 ==> n * a >= a
    ensures n <= -1 ==> n * a <= -a
  {
  }

  lemma {:induction false} AlignMultiple(v: nat, q: nat, a: nat)
    requires a > 0 && v == q * a
    ensures (v + a - 1) / a * a == v
  {
    var d := (v + a - 1) / a;
    AlignCovers(v, a);
    assert (d - q) * a == d * a - q * a;
    Scale(d - q, a);
  }

  lemma {:induction false} Quotient(a: nat, b: nat)
    requires b <= a
    ensures Pow2(a) == Pow2(a - b) * Pow2(b)
  {
    Pow2Product(a - b, b);
    assert a - b + b == a;
  }

  lemma {:induction false} AlignPow2(a: nat, b: nat)
    requires Pow2(b) <= Pow2(a)
    ensures (Pow2(a) + Pow2(b) - 1) / Pow2(b) * Pow2(b) == Pow2(a)
  {
    assert b <= a by {
      if a < b { Pow2Strict(a, b); }
    }
    Quotient(a, b);
    AlignMultiple(Pow2(a), Pow2(a - b), Pow2(b));
  }

  /** When guard pages are no larger than the class, a pooled block has exactly its class size, so it
      returns to the list it is looked up in. */
  lemma {:induction false} PooledBlockIsItsClass(c: Config, asked: nat)
    requires PooledSize(c, asked).Some?
    requires c.page == 0 || (IsPow2(c.page) && c.page <= PooledSize(c, asked).value && c.page < HALF64)
    ensures Raw(c, PooledSize(c, asked).value) == Some(PooledSize(c, asked).value)
  {
    var p := PooledSize(c, asked).value;
    PooledCovers(c, asked);
    PooledBelowHalf(c, asked);
    if c.page != 0 {
      var a: nat :| p == Pow2(a);
      var b: nat :| c.page == Pow2(b);
      AlignPow2(a, b);
    }
  }

  lemma {:induction false} PooledBelowHalf(c: Config, asked: nat)
    requires PooledSize(c, asked).Some?
    ensures PooledSize(c, asked).value <= HALF64
  {
    HalfIsPow2();
    RoundIsCeiling(NormalizeMinimum(c, asked));
  }

  lemma {:induction false} Pow2Strict(a: nat, b: nat)
    requires a < b
    ensures Pow2(a) < Pow2(b)
    decreases b
  {
    if a < b - 1 { Pow2Strict(a, b - 1); }
  }

  // ----- what every step keeps

  ghost predicate BlockOk(c: Config, b: Block) {
    b.size == b.usable + c.page && (b.direct ==> !Accepts(c, b.usable))
  }

  ghost predicate ClassOk(c: Config, k: Class) {
    && Accepts(c, k.size)
    && forall i :: 0 <= i < |k.blocks| ==> k.blocks[i].usable == k.size && BlockOk(c, k.blocks[i])
  }

  ghost predicate Sorted(lists: seq<Class>) {
    forall i, j :: 0 <= i < j < |lists| ==> lists[i].size < lists[j].size
  }

  ghost predicate Lists(c: Config, lists: seq<Class>) {
    Sorted(lists) && forall i :: 0 <= i < |lists| ==> ClassOk(c, lists[i])
  }

  ghost predicate Loans(c: Config, lent: seq<Loan>) {
    forall i :: 0 <= i < |lent| ==> lent[i].asked <= lent[i].block.usable && BlockOk(c, lent[i].block)
  }

  ghost predicate WantOk(c: Config, w: Want) {
    w.asked <= w.raw && (w.direct && Raw(c, w.raw).Some? ==> !Accepts(c, Raw(c, w.raw).value))
  }

  ghost predicate Wants(c: Config, allocating: seq<Want>) {
    forall i :: 0 <= i < |allocating| ==> WantOk(c, allocating[i])
  }

  /** Every counter against what is really there. */
  ghost predicate Ledger(c: Config, s: State) {
    && s.stats.cachedBytes == Cached(s, Size) && s.stats.cachedBytes <= c.maxCached
    && s.stats.checkedOut == Lent(s, Size) && s.stats.checkedOut <= s.stats.peak
    && s.stats.requests == s.stats.hits + s.stats.misses
    && s.stats.allocations + s.base == s.stats.frees + Alive(s, Unit)
  }

  ghost predicate Single(s: State, id: nat) {
    Alive(s, Is(id)) <= 1 && (id >= s.next ==> Alive(s, Is(id)) == 0)
  }

  ghost predicate Safe(c: Config, s: State) {
    && Lists(c, s.lists) && Loans(c, s.lent) && Wants(c, s.allocating)
    && Ledger(c, s)
    && (forall id: nat :: Single(s, id))
    && !s.terminated
  }

  lemma {:induction false} HitWeight(s: State, i: nat, asked: nat, g: Block -> nat)
    requires i < |s.lists| && |s.lists[i].blocks| > 0
    ensures var t, b := HitStep(s, i, asked), Back(s.lists[i]);
            && Cached(t, g) + g(b) == Cached(s, g) && Lent(t, g) == Lent(s, g) + g(b)
            && Alive(t, g) == Alive(s, g)
  {
    PopWeight(s.lists, i, g);
    SumSnoc(s.lent, Loan(Back(s.lists[i]), asked), InLoan(g));
  }

  lemma {:induction false} PopLists(c: Config, lists: seq<Class>, i: nat)
    requires Lists(c, lists) && i < |lists| && |lists[i].blocks| > 0
    ensures Lists(c, Pop(lists, i)) && BlockOk(c, Back(lists[i])) && Back(lists[i]).usable == lists[i].size
  {
    assert ClassOk(c, lists[i]);
  }

  lemma {:induction false} HitKeeps(c: Config, s: State, i: nat, asked: nat)
    requires Safe(c, s) && i < |s.lists| && |s.lists[i].blocks| > 0 && asked <= s.lists[i].size
    ensures Safe(c, HitStep(s, i, asked))
  {
    var t := HitStep(s, i, asked);
    PopLists(c, s.lists, i);
    HitWeight(s, i, asked, Size);
    HitWeight(s, i, asked, Unit);
    forall id: nat ensures Single(t, id) {
      HitWeight(s, i, asked, Is(id));
      assert Single(s, id);
    }
  }

  lemma {:induction false} AcquireKeeps(c: Config, s: State, asked: nat)
    requires Safe(c, s) && Configured(c)
    ensures Safe(c, AcquireStep(c, s, asked))
  {
    if PooledSize(c, asked).Some? {
      var p := PooledSize(c, asked).value;
      PooledCovers(c, asked);
      var i, t := At(s.lists, p), AcquireStep(c, s, asked);
      if Poolable(c, p) && Has(s.lists, p) && |s.lists[i].blocks| > 0 {
        HitKeeps(c, s, i, asked);
      } else {
        if !Poolable(c, p) && Raw(c, asked).Some? { DirectIsNotAccepted(c, asked); }
        MissKeeps(c, s, Want(asked, if !Poolable(c, p) then asked else p, !Poolable(c, p)), t);
      }
    }
  }

  lemma {:induction false} MissKeeps(c: Config, s: State, w: Want, t: State)
    requires Safe(c, s) && WantOk(c, w)
    requires t == s.(allocating := s.allocating + [w],
                     stats := s.stats.(requests := s.stats.requests + 1, misses := s.stats.misses + 1,
                                       direct := s.stats.direct + if w.direct then 1 else 0))
    ensures Safe(c, t)
  {
    forall id: nat ensures Single(t, id) {
      assert Single(s, id);
    }
  }

  lemma {:induction false} AllocatedWeight(c: Config, s: State, i: nat, g: Block -> nat)
    requires i < |s.allocating| && Raw(c, s.allocating[i].raw).Some?
    ensures var t, w, u := AllocatedStep(c, s, i, true), s.allocating[i], Raw(c, s.allocating[i].raw).value;
            var b := Block(s.next, u, u + c.page, w.direct);
            && Cached(t, g) == Cached(s, g) && Lent(t, g) == Lent(s, g) + g(b)
            && Alive(t, g) == Alive(s, g) + g(b)
  {
    var w, u := s.allocating[i], Raw(c, s.allocating[i].raw).value;
    SumSnoc(s.lent, Loan(Block(s.next, u, u + c.page, w.direct), w.asked), InLoan(g));
  }

  lemma {:induction false} ForgetKeeps(c: Config, s: State, i: nat)
    requires Safe(c, s) && i < |s.allocating|
    ensures Safe(c, s.(allocating := Remove(s.allocating, i)))
  {
    var t := s.(allocating := Remove(s.allocating, i));
    forall id: nat ensures Single(t, id) {
      assert Single(s, id);
    }
  }

  lemma {:induction false} AllocatedKeeps(c: Config, s: State, i: nat, ok: bool)
    requires Safe(c, s) && i < |s.allocating|
    ensures Safe(c, AllocatedStep(c, s, i, ok))
  {
    ForgetKeeps(c, s, i);
    var w, t := s.allocating[i], AllocatedStep(c, s, i, ok);
    if ok && Raw(c, w.raw).Some? {
      assert WantOk(c, w);
      RawCovers(c, w.raw);
      AllocatedWeight(c, s, i, Size);
      AllocatedWeight(c, s, i, Unit);
      forall id: nat ensures Single(t, id) {
        AllocatedWeight(c, s, i, Is(id));
        assert Single(s, id);
      }
    }
  }

  lemma {:induction false} LoanWeight(s: State, i: nat, g: Block -> nat)
    requires i < |s.lent|
    ensures Sum(Remove(s.lent, i), InLoan(g)) + g(s.lent[i].block) == Lent(s, g)
  {
    SumErase(s.lent, i, InLoan(g));
  }

  /** What is counted out covers each loan, so release cannot terminate the process. */
  lemma {:induction false} LoanIsCounted(c: Config, s: State, i: nat)
    requires Safe(c, s) && i < |s.lent|
    ensures s.stats.checkedOut >= s.lent[i].block.size
  {
    LoanWeight(s, i, Size);
  }

  lemma {:induction false} SortedInsert(lists: seq<Class>, i: nat, k: nat)
    requires Sorted(lists) && i <= |lists| && (i < |lists| ==> lists[i].size > k)
    requires forall j :: 0 <= j < i ==> lists[j].size < k
    ensures Sorted(lists[..i] + [Class(k, [])] + lists[i..])
  {
    var r := lists[..i] + [Class(k, [])] + lists[i..];
    forall a, b | 0 <= a < b < |r| ensures r[a].size < r[b].size {
      assert b > i ==> r[b] == lists[b - 1] && lists[i].size <= lists[b - 1].size;
      assert a > i ==> r[a] == lists[a - 1];
    }
  }

  lemma {:induction false} EntryLists(c: Config, lists: seq<Class>, k: nat)
    requires Lists(c, lists) && Accepts(c, k)
    ensures Lists(c, Entry(lists, k))
    ensures At(lists, k) < |Entry(lists, k)| && Entry(lists, k)[At(lists, k)].size == k
  {
    var i, r := At(lists, k), Entry(lists, k);
    if !Has(lists, k) {
      assert r == lists[..i] + [Class(k, [])] + lists[i..];
      forall j | 0 <= j < |r| ensures ClassOk(c, r[j]) {
        if j < i { assert r[j] == lists[j]; } else if j > i { assert r[j] == lists[j - 1]; }
      }
      SortedInsert(lists, i, k);
    }
  }

  lemma {:induction false} PushLists(c: Config, lists: seq<Class>, i: nat, b: Block)
    requires Lists(c, lists) && i < |lists| && lists[i].size == b.usable && BlockOk(c, b)
    ensures Lists(c, Push(lists, i, b))
  {
    assert ClassOk(c, lists[i]);
  }

  lemma {:induction false} CacheWeight(c: Config, s: State, i: nat, g: Block -> nat)
    requires Safe(c, s) && i < |s.lent| && Cacheable(c, s.lent[i].block, s.stats.cachedBytes)
    ensures var t, b := ReleaseStep(c, s, i, Inserted), s.lent[i].block;
            && Cached(t, g) == Cached(s, g) + g(b) && Lent(t, g) + g(b) == Lent(s, g)
            && Alive(t, g) == Alive(s, g)
  {
    var b := s.lent[i].block;
    LoanIsCounted(c, s, i);
    EntryLists(c, s.lists, b.usable);
    EntryWeight(s.lists, b.usable, g);
    PushWeight(Entry(s.lists, b.usable), At(s.lists, b.usable), b, g);
    LoanWeight(s, i, g);
  }

  lemma {:induction false} RemoveLoan(c: Config, lent: seq<Loan>, i: nat)
    requires Loans(c, lent) && i < |lent|
    ensures Loans(c, Remove(lent, i))
  {
  }

  lemma {:induction false} CacheKeeps(c: Config, s: State, i: nat)
    requires Safe(c, s) && i < |s.lent| && Cacheable(c, s.lent[i].block, s.stats.cachedBytes)
    ensures Safe(c, ReleaseStep(c, s, i, Inserted))
  {
    var b, t := s.lent[i].block, ReleaseStep(c, s, i, Inserted);
    LoanIsCounted(c, s, i);
    EntryLists(c, s.lists, b.usable);
    PushLists(c, Entry(s.lists, b.usable), At(s.lists, b.usable), b);
    RemoveLoan(c, s.lent, i);
    CacheWeight(c, s, i, Size);
    CacheWeight(c, s, i, Unit);
    forall id: nat ensures Single(t, id) {
      CacheWeight(c, s, i, Is(id));
      assert Single(s, id);
    }
  }

  predicate Caches(c: Config, s: State, i: nat, insert: Insert)
    requires i < |s.lent|
  {
    Cacheable(c, s.lent[i].block, s.stats.cachedBytes) && insert.Inserted?
  }

  lemma {:induction false} EvictWeight(c: Config, s: State, i: nat, insert: Insert, g: Block -> nat)
    requires Safe(c, s) && i < |s.lent| && !Caches(c, s, i, insert)
    ensures var t, b := ReleaseStep(c, s, i, insert), s.lent[i].block;
            && Cached(t, g) == Cached(s, g) && Lent(t, g) + g(b) == Lent(s, g)
            && Alive(t, g) == Alive(s, g)
  {
    var b := s.lent[i].block;
    LoanIsCounted(c, s, i);
    EntryWeight(s.lists, b.usable, g);
    LoanWeight(s, i, g);
    SumSnoc(s.freeing, b, g);
  }

  lemma {:induction false} EvictKeeps(c: Config, s: State, i: nat, insert: Insert)
    requires Safe(c, s) && i < |s.lent| && !Caches(c, s, i, insert)
    ensures Safe(c, ReleaseStep(c, s, i, insert))
  {
    var b, t := s.lent[i].block, ReleaseStep(c, s, i, insert);
    LoanIsCounted(c, s, i);
    if Accepts(c, b.usable) { EntryLists(c, s.lists, b.usable); }
    RemoveLoan(c, s.lent, i);
    EvictWeight(c, s, i, insert, Size);
    EvictWeight(c, s, i, insert, Unit);
    forall id: nat ensures Single(t, id) {
      EvictWeight(c, s, i, insert, Is(id));
      assert Single(s, id);
    }
  }

  lemma {:induction false} TrimWeight(s: State, keep: nat, g: Block -> nat)
    requires s.stats.cachedBytes > keep && Top(s.lists) < |s.lists|
    ensures var t := TrimStep(s, keep);
            && Cached(t, g) + g(Back(s.lists[Top(s.lists)])) == Cached(s, g) && Lent(t, g) == Lent(s, g)
            && Alive(t, g) == Alive(s, g)
  {
    PopWeight(s.lists, Top(s.lists), g);
    SumSnoc(s.freeing, Back(s.lists[Top(s.lists)]), g);
  }

  lemma {:induction false} TrimKeeps(c: Config, s: State, keep: nat)
    requires Safe(c, s)
    ensures Safe(c, TrimStep(s, keep))
  {
    var t := TrimStep(s, keep);
    if s.stats.cachedBytes > keep && Top(s.lists) < |s.lists| {
      PopLists(c, s.lists, Top(s.lists));
      TrimWeight(s, keep, Size);
      TrimWeight(s, keep, Unit);
      forall id: nat ensures Single(t, id) {
        TrimWeight(s, keep, Is(id));
        assert Single(s, id);
      }
    }
  }

  lemma {:induction false} FreedKeeps(c: Config, s: State, i: nat)
    requires Safe(c, s) && i < |s.freeing|
    ensures Safe(c, s.(freeing := Remove(s.freeing, i), stats := s.stats.(frees := s.stats.frees + 1)))
  {
    var t := s.(freeing := Remove(s.freeing, i), stats := s.stats.(frees := s.stats.frees + 1));
    SumErase(s.freeing, i, Unit);
    forall id: nat ensures Single(t, id) {
      SumErase(s.freeing, i, Is(id));
      assert Single(s, id);
    }
  }

  lemma {:induction false} ResetKeeps(c: Config, s: State)
    requires Safe(c, s)
    ensures Safe(c, ResetStep(s))
  {
    forall id: nat ensures Single(ResetStep(s), id) {
      assert Single(s, id);
    }
  }

  lemma {:induction false} StepKeepsSafe(c: Config, s: State, e: Event)
    requires Safe(c, s) && Configured(c)
    ensures Safe(c, Step(c, s, e))
  {
    match e
    case Acquire(asked) => AcquireKeeps(c, s, asked);
    case Allocated(i, ok) => if i < |s.allocating| { AllocatedKeeps(c, s, i, ok); }
    case Release(i, insert) =>
      if i < |s.lent| {
        if Caches(c, s, i, insert) { CacheKeeps(c, s, i); } else { EvictKeeps(c, s, i, insert); }
      }
    case TrimTake(keep) => TrimKeeps(c, s, keep);
    case Freed(i) => if i < |s.freeing| { FreedKeeps(c, s, i); }
    case ResetStats => ResetKeeps(c, s);
  }

  /** The ledger balances after every step of every run. */
  lemma {:induction false} LedgerBalances(c: Config, es: seq<Event>)
    requires Configured(c)
    ensures Safe(c, Run(c, es))
    decreases |es|
  {
    if es == [] {
      forall id: nat ensures Single(INIT, id) { }
    } else {
      LedgerBalances(c, es[..|es| - 1]);
      StepKeepsSafe(c, Run(c, es[..|es| - 1]), es[|es| - 1]);
    }
  }

  /** No block is at once in a free list and lent out. */
  lemma {:induction false} CachedIsNotLent(c: Config, es: seq<Event>, k: nat, j: nat, i: nat)
    requires Configured(c)
    requires var s := Run(c, es); k < |s.lists| && j < |s.lists[k].blocks| && i < |s.lent|
    ensures Run(c, es).lists[k].blocks[j].id != Run(c, es).lent[i].block.id
  {
    LedgerBalances(c, es);
    var s := Run(c, es);
    var id := s.lent[i].block.id;
    assert Single(s, id);
    SumMember(s.lent, i, InLoan(Is(id)));
    SumMember(s.lists, k, InClass(Is(id)));
    SumMember(s.lists[k].blocks, j, Is(id));
  }

  /** Release never reaches its terminate, every loan is as large as it was asked to be, each free
      list is for one power of two within the bound and holds only blocks of that size, and a
      passthrough block is in no free list. */
  lemma {:induction false} LoansAreGood(c: Config, es: seq<Event>)
    requires Configured(c)
    ensures !Run(c, es).terminated
    ensures forall i :: 0 <= i < |Run(c, es).lent| ==> Run(c, es).lent[i].asked <= Run(c, es).lent[i].block.usable
    ensures forall k :: 0 <= k < |Run(c, es).lists| ==>
              IsPow2(Run(c, es).lists[k].size) && Run(c, es).lists[k].size <= c.maxPooled
    ensures forall k, j :: 0 <= k < |Run(c, es).lists| && 0 <= j < |Run(c, es).lists[k].blocks| ==>
              !Run(c, es).lists[k].blocks[j].direct
              && Run(c, es).lists[k].blocks[j].usable == Run(c, es).lists[k].size
  {
    LedgerBalances(c, es);
    var s := Run(c, es);
    forall k | 0 <= k < |s.lists| ensures IsPow2(s.lists[k].size) && s.lists[k].size <= c.maxPooled {
      assert ClassOk(c, s.lists[k]);
      BitTest(s.lists[k].size);
    }
    forall k, j | 0 <= k < |s.lists| && 0 <= j < |s.lists[k].blocks|
      ensures !s.lists[k].blocks[j].direct && s.lists[k].blocks[j].usable == s.lists[k].size
    {
      assert ClassOk(c, s.lists[k]);
    }
  }
}
