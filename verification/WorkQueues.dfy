/** The scheduler's work-stealing queues (src/scheduler.cpp:122-212).  Every worker owns a deque of
    unpinned tasks and a list of tasks pinned to threads, under one lock; any number of threads
    enqueue, take locally and steal in any order. */
module WorkQueues {
  import opened Prelude

  /** `thread` is -1 for an unpinned task. */
  datatype Task = Task(id: nat, thread: int)

  /** A pinned task with the number of its arrival in its queue. */
  datatype Entry = Entry(task: Task, arrival: nat)

  /** `arrivals` numbers the pinned tasks that entered this queue and `left` logs those that left. */
  datatype Queue = Queue(unpinned: seq<Task>, pinned: seq<Entry>, threadId: int, arrivals: nat, left: seq<Entry>)

  datatype Taken = Taken(task: Task, worker: nat)
  datatype State = State(queues: seq<Queue>, enqueued: multiset<Task>, taken: seq<Taken>)

  /** `Enqueue` names the queue it chose: the choice reads atomics before it locks, so any other
      step may come between.  A thief probes one victim at a time. */
  datatype Event =
    | Register(w: nat, threadId: int)
    | Enqueue(task: Task, q: nat)
    | TakeLocal(w: nat)
    | Probe(w: nat, victim: nat)

  const IDLE := Queue([], [], -1, 0, [])

  function Init(n: nat): State {
    State(seq(n, _ => IDLE), multiset{}, [])
  }

  // ----- one queue

  function First(s: seq<Entry>, t: int): (i: nat)
    ensures i <= |s|
    ensures i < |s| ==> s[i].task.thread == t
    ensures forall j :: 0 <= j < i ==> s[j].task.thread != t
  {
    if s == [] then 0 else if s[0].task.thread == t then 0 else First(s[1..], t) + 1
  }

  function Push(q: Queue, task: Task): Queue {
    if task.thread != -1
    then q.(pinned := q.pinned + [Entry(task, q.arrivals)], arrivals := q.arrivals + 1)
    else q.(unpinned := q.unpinned + [task])
  }

  function PopPinned(q: Queue, i: nat): Queue
    requires i < |q.pinned|
  {
    q.(pinned := q.pinned[..i] + q.pinned[i + 1..], left := q.left + [q.pinned[i]])
  }

  /** The owner looks at the pinned list first and then at the front of the deque. */
  function Local(q: Queue): (Option<Task>, Queue) {
    var i := First(q.pinned, q.threadId);
    if i < |q.pinned| then (Some(q.pinned[i].task), PopPinned(q, i))
    else if q.unpinned != [] then (Some(q.unpinned[0]), q.(unpinned := q.unpinned[1..]))
    else (None, q)
  }

  /** A thief looks at the back of the deque first, then for a task pinned to its own thread. */
  function Steal(q: Queue, threadId: int): (Option<Task>, Queue) {
    var n := |q.unpinned|;
    var i := First(q.pinned, threadId);
    if n > 0 then (Some(q.unpinned[n - 1]), q.(unpinned := q.unpinned[..n - 1]))
    else if i < |q.pinned| then (Some(q.pinned[i].task), PopPinned(q, i))
    else (None, q)
  }

  function Put(s: State, q: nat, r: (Option<Task>, Queue), worker: nat): State
    requires q < |s.queues|
  {
    match r.0
    case None => s
    case Some(task) => s.(queues := s.queues[q := r.1], taken := s.taken + [Taken(task, worker)])
  }

  function Step(s: State, e: Event): State {
    match e
    case Register(w, threadId) =>
      if w < |s.queues| && s.queues[w].threadId == -1
      then s.(queues := s.queues[w := s.queues[w].(threadId := threadId)]) else s
    case Enqueue(task, q) =>
      if q < |s.queues|
      then s.(queues := s.queues[q := Push(s.queues[q], task)], enqueued := s.enqueued + multiset{task}) else s
    case TakeLocal(w) =>
      if w < |s.queues| && s.queues[w].threadId != -1 then Put(s, w, Local(s.queues[w]), w) else s
    case Probe(w, victim) =>
      if w < |s.queues| && victim < |s.queues| && victim != w && s.queues[w].threadId != -1
      then Put(s, victim, Steal(s.queues[victim], s.queues[w].threadId), w) else s
  }

  function Run(n: nat, es: seq<Event>): State {
    if es == [] then Init(n) else Step(Run(n, es[..|es| - 1]), es[|es| - 1])
  }

  // ----- what every step keeps

  function One(y: Task, x: Task): nat { if y == x then 1 else 0 }

  // How often task x is in a pinned list, in a queue, in all queues, and among the taken tasks.
  function InEntry(x: Task): Entry -> nat { (e: Entry) => One(e.task, x) }
  function Copies(q: Queue, x: Task): nat { multiset(q.unpinned)[x] + Sum(q.pinned, InEntry(x)) }
  function InQueue(x: Task): Queue -> nat { (q: Queue) => Copies(q, x) }
  function Held(qs: seq<Queue>, x: Task): nat { Sum(qs, InQueue(x)) }
  function InTaken(x: Task): Taken -> nat { (k: Taken) => One(k.task, x) }
  function TakenCopies(taken: seq<Taken>, x: Task): nat { Sum(taken, InTaken(x)) }

  lemma {:induction false} HeldUpdate(qs: seq<Queue>, i: nat, q: Queue, x: Task)
    requires i < |qs|
    ensures Held(qs[i := q], x) + Copies(qs[i], x) == Held(qs, x) + Copies(q, x)
  {
    SumUpdate(qs, i, q, InQueue(x));
  }

  /** The list is in arrival order, and for each thread everything that left arrived, in that order,
      before everything that stays. */
  ghost predicate Fifo(pinned: seq<Entry>, arrivals: nat, left: seq<Entry>) {
    && (forall i, j :: 0 <= i < j < |pinned| ==> pinned[i].arrival < pinned[j].arrival)
    && (forall i :: 0 <= i < |pinned| ==> pinned[i].arrival < arrivals)
    && (forall i :: 0 <= i < |left| ==> left[i].arrival < arrivals)
    && (forall i, j :: 0 <= i < j < |left| && left[i].task.thread == left[j].task.thread ==>
          left[i].arrival < left[j].arrival)
    && (forall i, j :: 0 <= i < |left| && 0 <= j < |pinned| && left[i].task.thread == pinned[j].task.thread ==>
          left[i].arrival < pinned[j].arrival)
  }

  ghost predicate Apart(unpinned: seq<Task>, pinned: seq<Entry>) {
    && (forall i :: 0 <= i < |unpinned| ==> unpinned[i].thread == -1)
    && (forall i :: 0 <= i < |pinned| ==> pinned[i].task.thread != -1)
  }

  ghost predicate QueueOk(q: Queue) {
    Apart(q.unpinned, q.pinned) && Fifo(q.pinned, q.arrivals, q.left)
  }

  ghost predicate Affine(k: Taken, queues: seq<Queue>) {
    k.worker < |queues| && queues[k.worker].threadId != -1
    && (k.task.thread != -1 ==> k.task.thread == queues[k.worker].threadId)
  }

  /** Every enqueued copy of every task is in exactly one queue or was taken exactly once. */
  ghost predicate Conserved(s: State) {
    forall x :: s.enqueued[x] == Held(s.queues, x) + TakenCopies(s.taken, x)
  }

  ghost predicate Safe(s: State) {
    && (forall q :: 0 <= q < |s.queues| ==> QueueOk(s.queues[q]))
    && Conserved(s)
    && (forall i :: 0 <= i < |s.taken| ==> Affine(s.taken[i], s.queues))
  }

  lemma {:induction false} PushKeeps(q: Queue, task: Task)
    requires QueueOk(q)
    ensures QueueOk(Push(q, task))
  {
    var e := Entry(task, q.arrivals);
    if task.thread != -1 {
      assert Fifo(q.pinned + [e], q.arrivals + 1, q.left);
    }
  }

  lemma {:induction false} PushCopies(q: Queue, task: Task, x: Task)
    ensures Copies(Push(q, task), x) == Copies(q, x) + One(task, x)
  {
    SumSnoc(q.pinned, Entry(task, q.arrivals), InEntry(x));
  }

  ghost predicate Releases(q: Queue, r: Queue, task: Task) {
    forall x :: Copies(q, x) == Copies(r, x) + One(task, x)
  }

  lemma {:induction false} PopFifo(q: Queue, i: nat)
    requires Fifo(q.pinned, q.arrivals, q.left) && i < |q.pinned|
    requires forall j :: 0 <= j < i ==> q.pinned[j].task.thread != q.pinned[i].task.thread
    ensures Fifo(q.pinned[..i] + q.pinned[i + 1..], q.arrivals, q.left + [q.pinned[i]])
  {
  }

  lemma {:induction false} PopPinnedKeeps(q: Queue, i: nat)
    requires QueueOk(q) && i < |q.pinned|
    requires forall j :: 0 <= j < i ==> q.pinned[j].task.thread != q.pinned[i].task.thread
    ensures QueueOk(PopPinned(q, i)) && Releases(q, PopPinned(q, i), q.pinned[i].task)
  {
    PopFifo(q, i);
    forall x ensures Copies(q, x) == Copies(PopPinned(q, i), x) + One(q.pinned[i].task, x) {
      SumErase(q.pinned, i, InEntry(x));
    }
  }

  /** What taking one task out of a queue must do. */
  ghost predicate TakesOne(q: Queue, threadId: int, r: (Option<Task>, Queue)) {
    match r.0
    case None => r.1 == q
    case Some(task) =>
      && QueueOk(r.1) && Releases(q, r.1, task) && r.1.threadId == q.threadId
      && (task.thread != -1 ==> task.thread == threadId)
  }

  lemma {:induction false} LocalTakes(q: Queue)
    requires QueueOk(q)
    ensures TakesOne(q, q.threadId, Local(q))
  {
    var i := First(q.pinned, q.threadId);
    if i < |q.pinned| {
      PopPinnedKeeps(q, i);
    } else if q.unpinned != [] {
      assert q.unpinned == [q.unpinned[0]] + q.unpinned[1..];
    }
  }

  lemma {:induction false} StealTakes(q: Queue, threadId: int)
    requires QueueOk(q)
    ensures TakesOne(q, threadId, Steal(q, threadId))
  {
    var n := |q.unpinned|;
    var i := First(q.pinned, threadId);
    if n > 0 {
      assert q.unpinned == q.unpinned[..n - 1] + [q.unpinned[n - 1]];
    } else if i < |q.pinned| {
      PopPinnedKeeps(q, i);
    }
  }

  lemma {:induction false} AffineKept(s: State, q: nat, r: Queue)
    requires q < |s.queues| && (s.queues[q].threadId != -1 ==> r.threadId == s.queues[q].threadId)
    requires forall i :: 0 <= i < |s.taken| ==> Affine(s.taken[i], s.queues)
    ensures forall i :: 0 <= i < |s.taken| ==> Affine(s.taken[i], s.queues[q := r])
  {
    forall i | 0 <= i < |s.taken| ensures Affine(s.taken[i], s.queues[q := r]) {
      assert Affine(s.taken[i], s.queues);
    }
  }

  lemma {:induction false} PutKeeps(s: State, q: nat, r: (Option<Task>, Queue), worker: nat)
    requires Safe(s) && q < |s.queues| && worker < |s.queues| && s.queues[worker].threadId != -1
    requires TakesOne(s.queues[q], s.queues[worker].threadId, r)
    ensures Safe(Put(s, q, r, worker))
  {
    if r.0.Some? {
      var k, t := Taken(r.0.value, worker), Put(s, q, r, worker);
      forall x ensures t.enqueued[x] == Held(t.queues, x) + TakenCopies(t.taken, x) {
        HeldUpdate(s.queues, q, r.1, x);
        SumSnoc(s.taken, k, InTaken(x));
        assert Copies(s.queues[q], x) == Copies(r.1, x) + One(k.task, x);
      }
      AffineKept(s, q, r.1);
    }
  }

  lemma {:induction false} RegisterKeeps(s: State, w: nat, threadId: int)
    requires Safe(s)
    ensures Safe(Step(s, Register(w, threadId)))
  {
    if w < |s.queues| && s.queues[w].threadId == -1 {
      var q := s.queues[w].(threadId := threadId);
      forall x ensures Held(s.queues[w := q], x) == Held(s.queues, x) {
        HeldUpdate(s.queues, w, q, x);
      }
      assert QueueOk(s.queues[w]);
      AffineKept(s, w, q);
    }
  }

  lemma {:induction false} EnqueueConserves(s: State, task: Task, q: nat, x: Task)
    requires q < |s.queues| && s.enqueued[x] == Held(s.queues, x) + TakenCopies(s.taken, x)
    ensures (s.enqueued + multiset{task})[x]
         == Held(s.queues[q := Push(s.queues[q], task)], x) + TakenCopies(s.taken, x)
  {
    HeldUpdate(s.queues, q, Push(s.queues[q], task), x);
    PushCopies(s.queues[q], task, x);
  }

  lemma {:induction false} EnqueueKeeps(s: State, task: Task, q: nat)
    requires Safe(s)
    ensures Safe(Step(s, Enqueue(task, q)))
  {
    if q < |s.queues| {
      var t, k := Step(s, Enqueue(task, q)), Push(s.queues[q], task);
      PushKeeps(s.queues[q], task);
      forall x ensures t.enqueued[x] == Held(t.queues, x) + TakenCopies(t.taken, x) {
        EnqueueConserves(s, task, q, x);
      }
      AffineKept(s, q, k);
    }
  }

  lemma {:induction false} StepKeepsSafe(s: State, e: Event)
    requires Safe(s)
    ensures Safe(Step(s, e))
  {
    match e
    case Register(w, threadId) => RegisterKeeps(s, w, threadId);
    case Enqueue(task, q) => EnqueueKeeps(s, task, q);
    case TakeLocal(w) =>
      if w < |s.queues| && s.queues[w].threadId != -1 {
        LocalTakes(s.queues[w]);
        PutKeeps(s, w, Local(s.queues[w]), w);
      }
    case Probe(w, victim) =>
      if w < |s.queues| && victim < |s.queues| && victim != w && s.queues[w].threadId != -1 {
        StealTakes(s.queues[victim], s.queues[w].threadId);
        PutKeeps(s, victim, Steal(s.queues[victim], s.queues[w].threadId), w);
      }
  }

  lemma {:induction false} IdleHoldsNothing(n: nat)
    ensures forall x :: Held(Init(n).queues, x) == 0
  {
    forall x ensures Held(Init(n).queues, x) == 0 {
      SumZero(Init(n).queues, InQueue(x));
    }
  }

  lemma {:induction false} RunIsSafe(n: nat, es: seq<Event>)
    ensures Safe(Run(n, es))
    decreases |es|
  {
    if es == [] {
      IdleHoldsNothing(n);
    } else {
      RunIsSafe(n, es[..|es| - 1]);
      StepKeepsSafe(Run(n, es[..|es| - 1]), es[|es| - 1]);
    }
  }

  /** Over every interleaving no task is lost or duplicated, and a pinned task is only ever taken by
      the worker registered as its thread. */
  lemma {:induction false} ConservesTasks(n: nat, es: seq<Event>)
    ensures Conserved(Run(n, es))
    ensures forall i :: 0 <= i < |Run(n, es).taken| ==> Affine(Run(n, es).taken[i], Run(n, es).queues)
  {
    RunIsSafe(n, es);
  }

  /** Within one queue, tasks pinned to the same thread leave in the order they arrived, ahead of
      those that stay. */
  lemma {:induction false} PinnedTasksLeaveInOrder(n: nat, es: seq<Event>, q: nat)
    requires q < |Run(n, es).queues|
    ensures var k := Run(n, es).queues[q]; Fifo(k.pinned, k.arrivals, k.left)
  {
    RunIsSafe(n, es);
    assert QueueOk(Run(n, es).queues[q]);
  }

  // ----- the victim scan

  const WORD32: nat := 0x1_0000_0000
  const WORD64: nat := 0x1_0000_0000_0000_0000

  /** The thread-local linear congruential generator, in 32-bit arithmetic. */
  function NextSeed(seed: nat): (r: nat)
    ensures r < WORD32
  {
    (seed * 1664525 + 1013904223) % WORD32
  }

  function StartOffset(seed: nat, n: nat): (r: nat)
    requires n > 1
    ensures 1 <= r < n
  {
    NextSeed(seed) % (n - 1) + 1
  }

  function Offset(n: nat, start: nat, i: nat): nat
    requires n > 1 && start > 0
  {
    (start + i - 1) % (n - 1) + 1
  }

  function Victim(n: nat, w: nat, start: nat, i: nat): nat
    requires n > 1 && start > 0
  {
    (w + Offset(n, start, i)) % n
  }

  lemma {:induction false} Multiple(m: nat, d: int)
    ensures d <= 0 ==> m * d <= 0
    ensures d >= 2 ==> m * d >= 2 * m
  {
  }

  lemma {:induction false} ModOnce(x: nat, m: nat)
    requires 0 < m <= x < 2 * m
    ensures x % m == x - m
  {
    Multiple(m, x / m);
    assert x == m * (x / m) + x % m;
    assert x / m == 1;
  }

  /** Both reductions wrap at most once. */
  lemma {:induction false} ScanAt(n: nat, w: nat, start: nat, i: nat)
    requires n > 1 && w < n && 1 <= start < n && i < n - 1
    ensures var o := start + i; Offset(n, start, i) == if o < n then o else o - (n - 1)
    ensures var v := w + Offset(n, start, i); Victim(n, w, start, i) == if v < n then v else v - n
  {
    if start + i >= n { ModOnce(start + i - 1, n - 1); }
    var v := w + Offset(n, start, i);
    if v >= n { ModOnce(v, n); }
  }

  /** The position at which the scan reaches worker v. */
  function ScanIndex(n: nat, w: nat, start: nat, v: nat): int {
    var o := if v > w then v - w else v + n - w;
    if o >= start then o - start else o + (n - 1) - start
  }

  /** For every seed the n - 1 probes are a permutation of the other workers: each is in range, none
      is the thief, no two coincide, and every other worker is reached. */
  lemma {:induction false} ScanIsPermutation(n: nat, w: nat, seed: nat)
    requires n > 1 && w < n
    ensures var start := StartOffset(seed, n);
            && (forall i :: 0 <= i < n - 1 ==> Victim(n, w, start, i) < n && Victim(n, w, start, i) != w)
            && (forall i, j :: 0 <= i < j < n - 1 ==> Victim(n, w, start, i) != Victim(n, w, start, j))
            && (forall v :: 0 <= v < n && v != w ==>
                  0 <= ScanIndex(n, w, start, v) < n - 1 && Victim(n, w, start, ScanIndex(n, w, start, v)) == v)
  {
    var start := StartOffset(seed, n);
    forall i | 0 <= i < n - 1 ensures Victim(n, w, start, i) < n && Victim(n, w, start, i) != w {
      ScanAt(n, w, start, i);
    }
    forall i, j | 0 <= i < j < n - 1 ensures Victim(n, w, start, i) != Victim(n, w, start, j) {
      ScanAt(n, w, start, i);
      ScanAt(n, w, start, j);
    }
    forall v | 0 <= v < n && v != w
      ensures 0 <= ScanIndex(n, w, start, v) < n - 1 && Victim(n, w, start, ScanIndex(n, w, start, v)) == v
    {
      ScanAt(n, w, start, ScanIndex(n, w, start, v));
    }
  }

  // ----- the methods

  /** Whether a thread could run something from this queue: the guard of both kinds of take. */
  ghost predicate Offers(q: Queue, threadId: int) {
    q.unpinned != [] || exists i :: 0 <= i < |q.pinned| && q.pinned[i].task.thread == threadId
  }

  method FindPinned(pinned: seq<Entry>, threadId: int) returns (i: nat)
    ensures i == First(pinned, threadId)
  {
    i := 0;
    while i < |pinned| && pinned[i].task.thread != threadId
      invariant i <= |pinned|
      invariant First(pinned, threadId) == i + First(pinned[i..], threadId)
    {
      i := i + 1;
    }
  }

  /** The owner's search also accepts an unpinned task, but the pinned list never holds one. */
  method FindOwn(pinned: seq<Entry>, threadId: int) returns (i: nat)
    requires forall j :: 0 <= j < |pinned| ==> pinned[j].task.thread != -1
    ensures i == First(pinned, threadId)
  {
    i := 0;
    while i < |pinned| && pinned[i].task.thread != -1 && pinned[i].task.thread != threadId
      invariant i <= |pinned|
      invariant First(pinned, threadId) == i + First(pinned[i..], threadId)
    {
      i := i + 1;
    }
  }

  class Scheduler {
    var queues: seq<Queue>
    var nextQueue: nat
    var seeds: seq<nat>

    ghost predicate Valid()
      reads this
    {
      |queues| > 0 && |seeds| == |queues| && forall q :: 0 <= q < |queues| ==> QueueOk(queues[q])
    }

    constructor (workers: nat)
      requires workers > 0
      ensures Valid() && queues == Init(workers).queues
    {
      queues := seq(workers, _ => IDLE);
      nextQueue := 0;
      seeds := seq(workers, w => (w * 2654435761 + 1) % WORD32);
    }

    /** The first worker registered as `thread`, or the number of workers if there is none. */
    method FindWorkerByThread(thread: int) returns (i: nat)
      requires Valid()
      ensures thread == -1 ==> i == |queues|
      ensures i < |queues| ==> queues[i].threadId == thread
      ensures thread != -1 ==> i <= |queues| && forall j :: 0 <= j < i ==> queues[j].threadId != thread
    {
      if thread == -1 {
        return |queues|;
      }
      i := 0;
      while i < |queues| && queues[i].threadId != thread
        invariant i <= |queues|
        invariant forall j :: 0 <= j < i ==> queues[j].threadId != thread
      {
        i := i + 1;
      }
    }

    /** A pinned task goes to its worker when that is registered, an unpinned one to the calling
        worker; otherwise queues take turns. */
    method ChooseQueue(task: Task, local: Option<nat>) returns (q: nat)
      requires Valid()
      modifies `nextQueue
      ensures q < |queues|
      ensures task.thread != -1 && (exists w :: 0 <= w < |queues| && queues[w].threadId == task.thread)
              ==> queues[q].threadId == task.thread && nextQueue == old(nextQueue)
      ensures task.thread == -1 && local.Some? && local.value < |queues|
              ==> q == local.value && nextQueue == old(nextQueue)
      ensures nextQueue != old(nextQueue) ==> q == old(nextQueue) % |queues|
    {
      q := |queues|;
      if task.thread != -1 {
        q := FindWorkerByThread(task.thread);
      } else if local.Some? && local.value < |queues| {
        q := local.value;
      }
      if q >= |queues| {
        q := nextQueue % |queues|;
        nextQueue := (nextQueue + 1) % WORD64;
      }
    }

    /** The critical section of enqueueTask; the caller wakes a worker when the queue was empty. */
    method EnqueueTask(task: Task, q: nat) returns (wasEmpty: bool)
      requires Valid() && q < |queues|
      modifies `queues
      ensures Valid()
      ensures queues == old(queues)[q := Push(old(queues)[q], task)]
      ensures wasEmpty <==> old(queues)[q].unpinned == [] && old(queues)[q].pinned == []
    {
      var k := queues[q];
      wasEmpty := k.unpinned == [] && k.pinned == [];
      PushKeeps(k, task);
      if task.thread != -1 {
        k := k.(pinned := k.pinned + [Entry(task, k.arrivals)], arrivals := k.arrivals + 1);
      } else {
        k := k.(unpinned := k.unpinned + [task]);
      }
      queues := queues[q := k];
    }

    method TryTakeLocal(w: nat) returns (task: Option<Task>)
      requires Valid() && w < |queues| && queues[w].threadId != -1
      modifies `queues
      ensures Valid() && (task, queues[w]) == Local(old(queues)[w])
      ensures queues == old(queues)[w := queues[w]]
      ensures task.None? <==> !Offers(old(queues)[w], old(queues)[w].threadId)
    {
      LocalTakes(queues[w]);
      var q := queues[w];
      var i := FindOwn(q.pinned, q.threadId);
      if i < |q.pinned| {
        task, queues := Some(q.pinned[i].task), queues[w := PopPinned(q, i)];
      } else if q.unpinned != [] {
        task, queues := Some(q.unpinned[0]), queues[w := q.(unpinned := q.unpinned[1..])];
      } else {
        task := None;
      }
    }

    /** Probing one victim under its lock. */
    method ProbeVictim(v: nat, threadId: int) returns (task: Option<Task>)
      requires Valid() && v < |queues|
      modifies `queues
      ensures Valid() && (task, queues[v]) == Steal(old(queues)[v], threadId)
      ensures queues == old(queues)[v := queues[v]]
      ensures task.None? <==> !Offers(old(queues)[v], threadId)
    {
      StealTakes(queues[v], threadId);
      var q := queues[v];
      var n := |q.unpinned|;
      if n > 0 {
        task, queues := Some(q.unpinned[n - 1]), queues[v := q.(unpinned := q.unpinned[..n - 1])];
      } else {
        var i := FindPinned(q.pinned, threadId);
        if i < |q.pinned| {
          task, queues := Some(q.pinned[i].task), queues[v := PopPinned(q, i)];
        } else {
          task := None;
        }
      }
    }

    method TrySteal(w: nat, threadId: int) returns (task: Option<Task>, ghost v: nat)
      requires Valid() && w < |queues|
      modifies `queues, `seeds
      ensures Valid() && |queues| == |old(queues)|
      ensures task.None? <==> forall u :: 0 <= u < |queues| && u != w ==> !Offers(old(queues)[u], threadId)
      ensures task.None? ==> queues == old(queues)
      ensures task.Some? ==> v < |queues| && v != w && (task, queues[v]) == Steal(old(queues)[v], threadId)
                             && queues == old(queues)[v := queues[v]]
    {
      var n := |queues|;
      v, task := 0, None;
      if n <= 1 {
        return;
      }
      ghost var seed := seeds[w];
      seeds := seeds[w := NextSeed(seeds[w])];
      var start := seeds[w] % (n - 1) + 1;
      assert start == StartOffset(seed, n);
      ScanIsPermutation(n, w, seed);
      var i := 0;
      while i < n - 1 && task.None?
        invariant i <= n - 1 && |queues| == n && Valid()
        invariant task.None? ==> queues == old(queues)
        invariant task.None? ==> forall j :: 0 <= j < i ==> !Offers(old(queues)[Victim(n, w, start, j)], threadId)
        invariant task.Some? ==> v < n && v != w && (task, queues[v]) == Steal(old(queues)[v], threadId)
                                 && queues == old(queues)[v := queues[v]] && Offers(old(queues)[v], threadId)
      {
        var offset := (start + i - 1) % (n - 1) + 1;
        var victim := (w + offset) % n;
        assert victim == Victim(n, w, start, i);
        v := victim;
        task := ProbeVictim(victim, threadId);
        i := i + 1;
      }
      if task.None? {
        forall u | 0 <= u < n && u != w ensures !Offers(old(queues)[u], threadId) {
          assert Victim(n, w, start, ScanIndex(n, w, start, u)) == u;
        }
      }
    }

    /** Without interference a worker comes back empty-handed exactly when there is no unpinned task
        anywhere and none pinned to its thread. */
    method TryTakeTask(w: nat) returns (task: Option<Task>)
      requires Valid() && w < |queues| && queues[w].threadId != -1
      modifies `queues, `seeds
      ensures Valid()
      ensures task.None? <==> forall u :: 0 <= u < |old(queues)| ==> !Offers(old(queues)[u], old(queues)[w].threadId)
      ensures task.None? ==> queues == old(queues)
      ensures task.Some? ==> exists v :: 0 <= v < |queues| == |old(queues)| && queues == old(queues)[v := queues[v]]
                                         && TakesOne(old(queues)[v], old(queues)[w].threadId, (task, queues[v]))
    {
      var threadId := queues[w].threadId;
      ghost var v := w;
      LocalTakes(queues[w]);
      task := TryTakeLocal(w);
      if task.None? {
        assert queues == old(queues);
        task, v := TrySteal(w, threadId);
        if task.Some? { StealTakes(old(queues)[v], threadId); }
      }
      assert task.Some? ==> TakesOne(old(queues)[v], threadId, (task, queues[v]));
    }
  }
}
