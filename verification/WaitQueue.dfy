/** The wait queue shared by every fiber synchronisation primitive (src/sync.cpp:12-103).

    A `Waiter` is a heap record shared by the queue, the parked fiber and its timer.  A record
    is named here by its allocation index, so `table` is the heap of all records ever created
    and a smaller index parked earlier.  `resumes` logs every call to the scheduler. */
module WaitQueues {
  const EPERM := 1
  const EINTR := 4
  const EBUSY := 16
  const EINVAL := 22
  const EDEADLK := 35
  const ENOTSUP := 95
  const ETIMEDOUT := 110
  const ECANCELED := 125

  /** Which scheduler the calling thread belongs to; only an IOManager has timers. */
  datatype Context = NoScheduler | PlainScheduler | WithTimers

  datatype Waiter = Waiter(fiber: nat, thread: int, waiting: bool, error: int)
  datatype Queue = Queue(waiters: seq<nat>, table: seq<Waiter>, resumes: seq<nat>)

  const EMPTY := Queue([], [], [])

  ghost predicate Sorted(s: seq<nat>) {
    forall i, j :: 0 <= i < j < |s| ==> s[i] < s[j]
  }

  /** The invariant every operation keeps: a record is queued iff it is waiting, a waiting record
      carries no error, exactly the completed records have been handed to the scheduler, and each
      of them once. */
  ghost predicate Inv(q: Queue) {
    && Sorted(q.waiters)
    && (forall w :: w in q.waiters ==> w < |q.table|)
    && (forall w :: 0 <= w < |q.table| ==> (q.table[w].waiting <==> w in q.waiters))
    && (forall w :: 0 <= w < |q.table| ==> (q.table[w].waiting <==> w !in q.resumes))
    && (forall w :: 0 <= w < |q.table| && q.table[w].waiting ==> q.table[w].error == 0)
    && (forall w :: w in q.resumes ==> w < |q.table|)
    && (forall i, j :: 0 <= i < j < |q.resumes| ==> q.resumes[i] != q.resumes[j])
  }

  function Erase(s: seq<nat>, w: nat): seq<nat> {
    if s == [] then [] else if s[0] == w then s[1..] else [s[0]] + Erase(s[1..], w)
  }

  lemma {:induction false} ConsSorted(a: nat, s: seq<nat>)
    requires Sorted(s) && forall x :: x in s ==> a < x
    ensures Sorted([a] + s)
  {
    var t := [a] + s;
    forall i, j | 0 <= i < j < |t| ensures t[i] < t[j] {
      assert t[j] == s[j - 1] && s[j - 1] in s;
      if i > 0 { assert t[i] == s[i - 1]; }
    }
  }

  lemma {:induction false} EraseSorted(s: seq<nat>, w: nat)
    requires Sorted(s)
    ensures Sorted(Erase(s, w))
    ensures forall x :: x in Erase(s, w) <==> x in s && x != w
    decreases |s|
  {
    if s != [] {
      EraseSorted(s[1..], w);
      assert s == [s[0]] + s[1..];
      if s[0] != w {
        ConsSorted(s[0], Erase(s[1..], w));
      }
    }
  }

  lemma {:induction false} EraseAt(s: seq<nat>, w: nat, i: nat)
    requires i < |s| && s[i] == w && w !in s[..i]
    ensures Erase(s, w) == s[..i] + s[i + 1..]
    decreases |s|
  {
    if i > 0 {
      assert s[0] in s[..i];
      assert s[1..][..i - 1] == s[..i][1..];
      EraseAt(s[1..], w, i - 1);
    }
  }

  /** The part of waitLocked run under the guard: the fiber is queued before the predicate
      lock is released. */
  function Push(q: Queue, fiber: nat, thread: int): Queue {
    Queue(q.waiters + [|q.table|], q.table + [Waiter(fiber, thread, true, 0)], q.resumes)
  }

  predicate CanComplete(q: Queue, w: nat) {
    w < |q.table| && q.table[w].waiting && w in q.waiters
  }

  function Complete(q: Queue, w: nat, error: int): Queue {
    if CanComplete(q, w) then
      Queue(Erase(q.waiters, w), q.table[w := q.table[w].(waiting := false, error := error)],
            q.resumes + [w])
    else q
  }

  function WakeOne(q: Queue, error: int): Queue {
    if q.waiters == [] then q else Complete(q, q.waiters[0], error)
  }

  /** The front record can always be completed, which is why the wake loops end. */
  lemma {:induction false} FrontCompletes(q: Queue, error: int)
    requires Inv(q) && q.waiters != []
    ensures CanComplete(q, q.waiters[0])
    ensures Inv(WakeOne(q, error))
    ensures WakeOne(q, error).waiters == q.waiters[1..]
    ensures WakeOne(q, error).resumes == q.resumes + [q.waiters[0]]
  {
    assert q.waiters[0] in q.waiters;
    CompleteKeepsInv(q, q.waiters[0], error);
  }

  /** Every queued record, oldest first. */
  ghost function WakeAll(q: Queue, error: int): Queue
    requires Inv(q)
    decreases |q.waiters|
  {
    if q.waiters == [] then q
    else
      FrontCompletes(q, error);
      WakeAll(WakeOne(q, error), error)
  }

  lemma {:induction false} PushKeepsInv(q: Queue, fiber: nat, thread: int)
    requires Inv(q)
    ensures Inv(Push(q, fiber, thread))
  {
    var r := Push(q, fiber, thread);
    assert forall w :: w in r.waiters <==> w in q.waiters || w == |q.table|;
    forall i, j | 0 <= i < j < |r.waiters| ensures r.waiters[i] < r.waiters[j] {
      assert q.waiters[i] in q.waiters;
    }
  }

  lemma {:induction false} CompleteKeepsInv(q: Queue, w: nat, error: int)
    requires Inv(q)
    ensures Inv(Complete(q, w, error))
  {
    if CanComplete(q, w) {
      EraseSorted(q.waiters, w);
      var r := Complete(q, w, error);
      assert forall x :: x in r.resumes <==> x in q.resumes || x == w;
    }
  }

  /** Over one park: whichever of wake, timeout or cancel comes first completes the record,
      fixes its error for good and issues the only resume. */
  lemma {:induction false} CompletesExactlyOnce(q: Queue, w: nat, first: int, second: int)
    requires Inv(q) && CanComplete(q, w)
    ensures var r := Complete(q, w, first);
            && r.table[w].error == first
            && multiset(r.resumes)[w] == 1
            && w !in r.waiters
            && Complete(r, w, second) == r
  {
    EraseSorted(q.waiters, w);
    assert w !in q.resumes;
    assert multiset(q.resumes)[w] == 0;
  }

  /** wakeAllLocked resumes the whole queue in park order and nothing else. */
  lemma {:induction false} WakeAllDrains(q: Queue, error: int)
    requires Inv(q)
    ensures Inv(WakeAll(q, error))
    ensures WakeAll(q, error).waiters == []
    ensures WakeAll(q, error).resumes == q.resumes + q.waiters
    ensures |WakeAll(q, error).table| == |q.table|
    decreases |q.waiters|
  {
    if q.waiters == [] {
      assert q.resumes + q.waiters == q.resumes;
    } else {
      FrontCompletes(q, error);
      WakeAllDrains(WakeOne(q, error), error);
      assert q.resumes + [q.waiters[0]] + q.waiters[1..] == q.resumes + q.waiters;
    }
  }

  /** ... and it stores the error in exactly the records that were queued. */
  lemma {:induction false} WakeAllRecords(q: Queue, error: int, w: nat)
    requires Inv(q) && w < |q.table|
    ensures |WakeAll(q, error).table| == |q.table|
    ensures WakeAll(q, error).table[w] ==
            if w in q.waiters then q.table[w].(waiting := false, error := error) else q.table[w]
    decreases |q.waiters|
  {
    if q.waiters != [] {
      var m := WakeOne(q, error);
      FrontCompletes(q, error);
      WakeAllRecords(m, error, w);
      assert w in q.waiters <==> w == q.waiters[0] || w in m.waiters;
      assert w == q.waiters[0] ==> w !in m.waiters;
    }
  }

  /** The tail of waitLocked, run by a resumed fiber under the guard: the error is read first, then a
      record that is still queued is completed. */
  function AfterYield(q: Queue, w: nat): (int, Queue)
    requires w < |q.table|
  {
    (q.table[w].error, Complete(q, w, ECANCELED))
  }

  /** What a resumed fiber reports: the error of the completion that came first, and 0 if none did,
      although its record is then completed with ECANCELED.  So it reports failure exactly when its
      record was completed with a non-zero error before it ran. */
  lemma {:induction false} ResumeReports(q: Queue, w: nat, error: int)
    requires Inv(q) && CanComplete(q, w)
    ensures AfterYield(q, w).0 == 0
    ensures AfterYield(q, w).1.table[w].error == ECANCELED && w !in AfterYield(q, w).1.waiters
    ensures AfterYield(Complete(q, w, error), w) == (error, Complete(q, w, error))
  {
    CompletesExactlyOnce(q, w, error, ECANCELED);
    CompletesExactlyOnce(q, w, ECANCELED, ECANCELED);
  }

  lemma {:induction false} ResumeFailsIffCompletedWithError(q: Queue, w: nat)
    requires Inv(q) && w < |q.table|
    ensures AfterYield(q, w).0 != 0 <==> w in q.resumes && q.table[w].error != 0
  {
  }

  /** One fiber parked, resumed by a stray task before anybody completed it: it returns 0. */
  lemma {:induction false} StrayResumeReturnsZero()
    ensures var q := Push(EMPTY, 1, 0); Inv(q) && 0 in q.waiters && AfterYield(q, 0).0 == 0
  {
    PushKeepsInv(EMPTY, 1, 0);
  }

  class WaitQueue {
    var waiters: seq<nat>
    var table: seq<Waiter>
    var resumes: seq<nat>

    function View(): Queue
      reads this
    {
      Queue(waiters, table, resumes)
    }

    constructor ()
      ensures View() == EMPTY && Inv(View())
    {
      waiters, table, resumes := [], [], [];
    }

    method PushBack(fiber: nat, thread: int) returns (w: nat)
      requires Inv(View())
      modifies this
      ensures View() == Push(old(View()), fiber, thread) && Inv(View())
      ensures w == old(|table|)
    {
      w := |table|;
      table := table + [Waiter(fiber, thread, true, 0)];
      waiters := waiters + [w];
      PushKeepsInv(old(View()), fiber, thread);
    }

    method CompleteLocked(w: nat, error: int) returns (ok: bool)
      requires Inv(View())
      modifies this
      ensures View() == Complete(old(View()), w, error) && Inv(View())
      ensures ok == old(CanComplete(View(), w))
    {
      CompleteKeepsInv(View(), w, error);
      if w >= |table| || !table[w].waiting {
        return false;
      }
      var i := 0;
      while i < |waiters| && waiters[i] != w
        invariant 0 <= i <= |waiters|
        invariant w !in waiters[..i]
      {
        i := i + 1;
      }
      ok := i < |waiters|;
      if ok {
        EraseAt(waiters, w, i);
        waiters := waiters[..i] + waiters[i + 1..];
        table := table[w := table[w].(waiting := false, error := error)];
        resumes := resumes + [w];
      }
    }

    method WakeOneLocked(error: int) returns (woke: bool)
      requires Inv(View())
      modifies this
      ensures View() == WakeOne(old(View()), error) && Inv(View())
      ensures woke == old(waiters != [])
    {
      woke := false;
      while |waiters| > 0 && !woke
        invariant Inv(View())
        invariant if woke then View() == WakeOne(old(View()), error) && old(waiters) != []
                  else View() == old(View())
        decreases !woke
      {
        FrontCompletes(View(), error);
        woke := CompleteLocked(waiters[0], error);
      }
    }

    method WakeAllLocked(error: int) returns (count: nat)
      requires Inv(View())
      modifies this
      ensures View() == WakeAll(old(View()), error) && Inv(View())
      ensures count == old(|waiters|) && waiters == []
    {
      count := 0;
      var woke := true;
      while woke
        invariant Inv(View())
        invariant WakeAll(View(), error) == WakeAll(old(View()), error)
        invariant count + |waiters| == old(|waiters|)
        invariant !woke ==> waiters == []
        decreases |waiters|, woke
      {
        if waiters != [] {
          FrontCompletes(View(), error);
        }
        woke := WakeOneLocked(error);
        if woke {
          count := count + 1;
        }
      }
    }

    /** The tail of waitLocked after the fiber resumes.  A fiber resumed while still queued reports
        success. */
    method Resumed(w: nat) returns (error: int)
      requires Inv(View()) && w < |table|
      modifies this
      ensures (error, View()) == AfterYield(old(View()), w) && Inv(View())
      ensures error != 0 <==> old(w in resumes && table[w].error != 0)
      ensures old(table[w].waiting) ==> error == 0 && table[w].error == ECANCELED
      ensures w !in waiters
    {
      error := table[w].error;
      if table[w].waiting {
        EraseSorted(waiters, w);
        var _ := CompleteLocked(w, ECANCELED);
      }
    }
  }
}
