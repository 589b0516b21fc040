/** The operations of the pooled stack allocator as the source runs them
    (src/stack_allocator.cpp:205-341), proved against the steps of StackPools. */
module StackPoolOps {
  import opened Prelude
  import opened PowersOfTwo
  import opened StackPools

  /** What the constructor does to its options: a non-zero pool bound becomes a power of two, or the
      construction fails. */
  method NormalizeOptions(maxCached: nat, maxPooled: nat, min: nat, page: nat) returns (c: Option<Config>)
    requires 0 < min < WORD64 && maxPooled < WORD64
    ensures c.Some? <==> maxPooled == 0 || (maxPooled <= HALF64 && min <= HALF64)
    ensures c.Some? ==> Configured(c.value) && c.value.maxCached == maxCached && c.value.maxPooled >= maxPooled
    ensures c.Some? && maxPooled != 0 ==> c.value.maxPooled >= min
  {
    var bound := maxPooled;
    if maxPooled != 0 {
      var r, late := NextPowerOfTwo(if maxPooled < min then min else maxPooled);
      if r.None? {
        return None;
      }
      bound := r.value;
    }
    return Some(Config(maxCached, bound, min, page));
  }

  method PooledSizeFor(c: Config, asked: nat) returns (r: Option<nat>)
    requires c.min < WORD64 && asked < WORD64
    ensures r == PooledSize(c, asked)
    ensures r.Some? ==> IsPow2(r.value) && asked <= r.value && c.min <= r.value
  {
    var late;
    r, late := NextPowerOfTwo(if asked < c.min then c.min else asked);
  }

  // ----- trim

  /** The reverse walk over the map, past the empty lists. */
  method FindTop(lists: seq<Class>) returns (i: nat)
    ensures i == Top(lists)
  {
    var n: nat := |lists|;
    while n > 0 && |lists[n - 1].blocks| == 0
      invariant n <= |lists|
      invariant forall j :: n <= j < |lists| ==> |lists[j].blocks| == 0
    {
      n := n - 1;
    }
    i := if n == 0 then |lists| else n - 1;
    TopUnique(lists, i);
  }

  lemma {:induction false} TopUnique(lists: seq<Class>, i: nat)
    requires i <= |lists| && (i < |lists| ==> |lists[i].blocks| > 0)
    requires forall j :: 0 <= j < |lists| && (i < j || i == |lists|) ==> |lists[j].blocks| == 0
    ensures i == Top(lists)
    decreases |lists|
  {
    if |lists| > 0 {
      var n := |lists| - 1;
      if |lists[n].blocks| == 0 {
        TopUnique(lists[..n], if i == |lists| then n else i);
      }
    }
  }

  lemma {:induction false} EmptyWeighsNothing(lists: seq<Class>, g: Block -> nat)
    ensures Top(lists) == |lists| ==> Sum(lists, InClass(g)) == 0
  {
    if Top(lists) == |lists| {
      forall j | 0 <= j < |lists| ensures InClass(g)(lists[j]) == 0 {
        assert |lists[j].blocks| == 0;
      }
      SumZero(lists, InClass(g));
    }
  }

  /** Every block still in the lists is at most this large. */
  ghost predicate AtMost(lists: seq<Class>, usable: nat) {
    forall k, j :: 0 <= k < |lists| && 0 <= j < |lists[k].blocks| ==> lists[k].blocks[j].usable <= usable
  }

  ghost predicate Descending(freed: seq<Block>) {
    forall i, j :: 0 <= i < j < |freed| ==> freed[i].usable >= freed[j].usable
  }

  /** Blocks leave the lists, and no block is lost or invented. */
  ghost predicate Conserved(before: seq<Class>, after: seq<Class>, freed: seq<Block>) {
    forall id: nat :: Sum(before, InClass(Is(id))) == Sum(after, InClass(Is(id))) + Sum(freed, Is(id))
  }

  lemma {:induction false} TopIsLargest(c: Config, lists: seq<Class>)
    requires Lists(c, lists) && Top(lists) < |lists|
    ensures AtMost(lists, Back(lists[Top(lists)]).usable)
    ensures AtMost(Pop(lists, Top(lists)), Back(lists[Top(lists)]).usable)
  {
    var t := Top(lists);
    assert ClassOk(c, lists[t]);
    forall k, j | 0 <= k < |lists| && 0 <= j < |lists[k].blocks|
      ensures lists[k].blocks[j].usable <= Back(lists[t]).usable
    {
      assert ClassOk(c, lists[k]);
    }
  }

  lemma {:induction false} PopConserves(before: seq<Class>, lists: seq<Class>, freed: seq<Block>, i: nat)
    requires Conserved(before, lists, freed) && i < |lists| && |lists[i].blocks| > 0
    ensures Conserved(before, Pop(lists, i), freed + [Back(lists[i])])
  {
    forall id: nat ensures Sum(before, InClass(Is(id)))
                        == Sum(Pop(lists, i), InClass(Is(id))) + Sum(freed + [Back(lists[i])], Is(id))
    {
      PopWeight(lists, i, Is(id));
      SumSnoc(freed, Back(lists[i]), Is(id));
    }
  }

  /** After taking out `freed`: nothing lost, largest first, and the last one was still needed. */
  ghost predicate Trimmed(c: Config, before: seq<Class>, keep: nat, lists: seq<Class>, cached: nat, freed: seq<Block>) {
    && Lists(c, lists) && cached == Sum(lists, InClass(Size))
    && Conserved(before, lists, freed) && Descending(freed)
    && (|freed| > 0 ==> cached + freed[|freed| - 1].size > keep && AtMost(lists, freed[|freed| - 1].usable))
  }

  lemma {:induction false} DescendingSnoc(lists: seq<Class>, freed: seq<Block>, i: nat)
    requires Descending(freed) && i < |lists| && |lists[i].blocks| > 0
    requires |freed| > 0 ==> AtMost(lists, freed[|freed| - 1].usable)
    ensures Descending(freed + [Back(lists[i])])
  {
  }

  lemma {:induction false} TrimOnce(c: Config, before: seq<Class>, keep: nat, lists: seq<Class>, cached: nat,
                                    freed: seq<Block>)
    requires Trimmed(c, before, keep, lists, cached, freed) && cached > keep && Top(lists) < |lists|
    ensures var i := Top(lists); var b := Back(lists[i]);
            && b.size <= cached && Trimmed(c, before, keep, Pop(lists, i), cached - b.size, freed + [b])
            && Sum(Pop(lists, i), InClass(Unit)) < Sum(lists, InClass(Unit))
  {
    var i := Top(lists);
    TopIsLargest(c, lists);
    PopLists(c, lists, i);
    PopWeight(lists, i, Size);
    PopWeight(lists, i, Unit);
    PopConserves(before, lists, freed, i);
    DescendingSnoc(lists, freed, i);
  }

  lemma {:induction false} StartTrim(c: Config, before: seq<Class>, keep: nat)
    requires Lists(c, before)
    ensures Trimmed(c, before, keep, before, Sum(before, InClass(Size)), [])
  {
  }

  /** trim without interference: it ends at or below its target, takes the largest classes first,
      and takes no block more than it needs. */
  method Trim(c: Config, before: seq<Class>, cachedBytes: nat, keep: nat)
    returns (lists: seq<Class>, cached: nat, freed: seq<Block>)
    requires Lists(c, before) && cachedBytes == Sum(before, InClass(Size))
    ensures cached <= keep && Trimmed(c, before, keep, lists, cached, freed)
    ensures cachedBytes <= keep ==> lists == before && freed == []
  {
    lists, cached, freed := before, cachedBytes, [];
    StartTrim(c, before, keep);
    while cached > keep
      invariant Trimmed(c, before, keep, lists, cached, freed)
      invariant cachedBytes <= keep ==> lists == before && freed == []
      decreases Sum(lists, InClass(Unit))
    {
      EmptyWeighsNothing(lists, Size);
      var i := FindTop(lists);
      TrimOnce(c, before, keep, lists, cached, freed);
      var victim := Back(lists[i]);
      lists, cached, freed := Pop(lists, i), cached - victim.size, freed + [victim];
    }
  }

  /** Inserting keeps the lists in order and adds the block's weight, whatever the weight. */
  lemma {:induction false} InsertingWeight(c: Config, lists: seq<Class>, b: Block, insert: Insert, g: Block -> nat)
    requires Lists(c, lists) && Accepts(c, b.usable) && BlockOk(c, b)
    ensures Sum(Inserting(lists, b, insert), InClass(g))
         == Sum(lists, InClass(g)) + if insert.Inserted? then g(b) else 0
  {
    EntryLists(c, lists, b.usable);
    EntryWeight(lists, b.usable, g);
    PushWeight(Entry(lists, b.usable), At(lists, b.usable), b, g);
  }

  /** Putting a block into the list of its class: whether or not the map or the vector throws, the
      lists stay ordered and pure, and they gain exactly this block, at the back of its class, or
      nothing. */
  lemma {:induction false} InsertingEffect(c: Config, lists: seq<Class>, b: Block, insert: Insert)
    requires Lists(c, lists) && Accepts(c, b.usable) && BlockOk(c, b)
    ensures var r := Inserting(lists, b, insert);
            && Lists(c, r)
            && Sum(r, InClass(Size)) == Sum(lists, InClass(Size)) + (if insert.Inserted? then b.size else 0)
            && Conserved(r, lists, if insert.Inserted? then [b] else [])
            && (insert.Inserted? ==> At(r, b.usable) < |r| && |r[At(r, b.usable)].blocks| > 0
                                     && Back(r[At(r, b.usable)]) == b)
  {
    var i, r := At(lists, b.usable), Inserting(lists, b, insert);
    EntryLists(c, lists, b.usable);
    PushLists(c, Entry(lists, b.usable), i, b);
    InsertingWeight(c, lists, b, insert, Size);
    forall id: nat ensures Sum(r, InClass(Is(id)))
                        == Sum(lists, InClass(Is(id))) + Sum(if insert.Inserted? then [b] else [], Is(id))
    {
      InsertingWeight(c, lists, b, insert, Is(id));
      SumSnoc([], b, Is(id));
      assert [] + [b] == [b];
    }
    if insert.Inserted? {
      AtUnique(r, b.usable, i);
    }
  }

  lemma {:induction false} AtUnique(lists: seq<Class>, k: nat, i: nat)
    requires Sorted(lists) && i < |lists| && lists[i].size == k
    ensures At(lists, k) == i
  {
  }

  // ----- the critical sections

  class StackPool {
    const c: Config
    var lists: seq<Class>
    var stats: Stats
    ghost var lent: seq<Loan>
    ghost var allocating: seq<Want>
    ghost var freeing: seq<Block>
    ghost var base: int
    ghost var next: nat

    ghost function View(): State
      reads this
    {
      State(lists, lent, allocating, freeing, stats, base, next, false)
    }

    constructor (config: Config)
      ensures c == config && View() == INIT
    {
      c, lists, stats := config, [], ZERO;
      lent, allocating, freeing, base, next := [], [], [], 0, 0;
    }

    method Find(k: nat) returns (i: nat)
      ensures i == At(lists, k)
    {
      i := 0;
      while i < |lists| && lists[i].size < k
        invariant i <= |lists|
        invariant At(lists, k) == i + At(lists[i..], k)
      {
        i := i + 1;
      }
    }

    /** The first critical section of acquire, after the class has been computed. */
    method AcquireBegin(asked: nat, pooled: nat) returns (block: Option<Block>)
      requires Lists(c, lists) && PooledSize(c, asked) == Some(pooled)
      modifies this
      ensures View() == AcquireStep(c, old(View()), asked)
      ensures block.Some? ==> block.value.usable == pooled && asked <= pooled
    {
      var poolable := c.maxCached != 0 && c.maxPooled != 0 && pooled <= c.maxPooled;
      stats := stats.(requests := stats.requests + 1);
      block := None;
      var i := Find(pooled);
      PooledCovers(c, asked);
      if poolable && i < |lists| && lists[i].size == pooled && |lists[i].blocks| > 0 {
        PopLists(c, lists, i);
        var b := Back(lists[i]);
        lists := Pop(lists, i);
        stats := stats.(hits := stats.hits + 1, cachedBytes := stats.cachedBytes - b.size);
        stats := CheckOut(stats, b.size);
        lent := lent + [Loan(b, asked)];
        block := Some(b);
      } else {
        stats := stats.(misses := stats.misses + 1, direct := stats.direct + if poolable then 0 else 1);
        allocating := allocating + [Want(asked, if poolable then pooled else asked, !poolable)];
      }
    }

    method InsertBlock(b: Block, insert: Insert)
      requires Lists(c, lists) && Accepts(c, b.usable) && BlockOk(c, b)
      modifies `lists
      ensures lists == Inserting(old(lists), b, insert) && Lists(c, lists)
    {
      EntryLists(c, lists, b.usable);
      InsertingEffect(c, lists, b, insert);
      if !insert.NoEntry? {
        var k := Find(b.usable);
        lists := Entry(lists, b.usable);
        if insert.Inserted? {
          lists := Push(lists, k, b);
        }
      }
    }

    /** The critical section of release, where the gauge covers the block, as LoanIsCounted shows; false means
        the caller frees the block. */
    method ReleaseLocked(ghost i: nat, b: Block, insert: Insert) returns (cached: bool)
      requires Lists(c, lists) && i < |lent| && lent[i].block == b && b.size <= stats.checkedOut && BlockOk(c, b)
      modifies this
      ensures View() == ReleaseStep(c, old(View()), i, insert) && Lists(c, lists)
      ensures cached <==> Cacheable(c, b, old(stats.cachedBytes)) && insert.Inserted?
    {
      stats := stats.(returned := stats.returned + 1, checkedOut := stats.checkedOut - b.size);
      var cacheable := Cacheable(c, b, stats.cachedBytes);
      cached := cacheable && insert.Inserted?;
      if cacheable {
        InsertBlock(b, insert);
      }
      if cached {
        stats := stats.(cachedBytes := stats.cachedBytes + b.size);
      }
      if !cached {
        stats := stats.(evictions := stats.evictions + 1);
        freeing := freeing + [b];
      }
      lent := Remove(lent, i);
    }

    /** Cumulative counters restart, the gauges stay and the peak falls to the current value. */
    method Reset()
      modifies `stats, `base
      ensures View() == ResetStep(old(View()))
      ensures stats.cachedBytes == old(stats.cachedBytes) && stats.checkedOut == old(stats.checkedOut)
      ensures stats.peak == stats.checkedOut && stats.requests == stats.hits == stats.misses == 0
    {
      base := base + stats.allocations - stats.frees;
      stats := ZERO.(cachedBytes := stats.cachedBytes, checkedOut := stats.checkedOut, peak := stats.checkedOut);
    }
  }
}
