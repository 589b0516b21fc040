/** The RPC server's byte budget (src/rpc.cpp:503-517): each request being read or answered holds a
    `Reservation`, grown by a lock-free add on the shared `buffered_bytes` and given back by its
    destructor.  The load, every compare-and-swap (which may fail spuriously) and the final subtraction
    are separate steps of any number of requests. */
module ByteBudgets {
  import opened Prelude

  datatype Phase = Idle | Trying(amount: nat, seen: int) | Dropped
  datatype Reservation = Reservation(bytes: nat, phase: Phase)
  datatype State = State(buffered: int, held: seq<Reservation>)

  datatype Event =
    | Open
    | Load(r: nat, amount: nat)
    | Swap(r: nat, spurious: bool)
    | Drop(r: nat)

  const INIT := State(0, [])

  /** The guard of the add loop; the subtraction is only evaluated when it cannot wrap. */
  predicate Fits(limit: nat, amount: nat, current: int) {
    amount <= limit && current <= limit - amount
  }

  /** The guard at the top of the loop: give up, or try to swap from `seen`. */
  function Attempt(limit: nat, amount: nat, seen: int): Phase {
    if Fits(limit, amount, seen) then Trying(amount, seen) else Idle
  }

  function Set(s: State, r: nat, h: Reservation): State
    requires r < |s.held|
  {
    s.(held := s.held[r := h])
  }

  function Step(limit: nat, s: State, e: Event): State {
    match e
    case Open => s.(held := s.held + [Reservation(0, Idle)])
    case Load(r, amount) =>
      if r < |s.held| && s.held[r].phase.Idle?
      then Set(s, r, s.held[r].(phase := Attempt(limit, amount, s.buffered))) else s
    case Swap(r, spurious) =>
      if r < |s.held| && s.held[r].phase.Trying? then
        var h := s.held[r];
        if !spurious && s.buffered == h.phase.seen
        then Set(s, r, Reservation(h.bytes + h.phase.amount, Idle)).(buffered := s.buffered + h.phase.amount)
        else Set(s, r, h.(phase := Attempt(limit, h.phase.amount, s.buffered)))
      else s
    case Drop(r) =>
      if r < |s.held| && s.held[r].phase.Idle?
      then Set(s, r, Reservation(0, Dropped)).(buffered := s.buffered - s.held[r].bytes) else s
  }

  function Run(limit: nat, es: seq<Event>): State {
    if es == [] then INIT else Step(limit, Run(limit, es[..|es| - 1]), es[|es| - 1])
  }

  function Bytes(h: Reservation): nat { h.bytes }

  ghost predicate Safe(limit: nat, s: State) {
    && s.buffered == Sum(s.held, Bytes)
    && s.buffered <= limit
    && forall r :: 0 <= r < |s.held| && s.held[r].phase.Trying? ==>
                   Fits(limit, s.held[r].phase.amount, s.held[r].phase.seen)
  }

  lemma {:induction false} StepKeepsSafe(limit: nat, s: State, e: Event)
    requires Safe(limit, s)
    ensures Safe(limit, Step(limit, s, e))
  {
    var t := Step(limit, s, e);
    if e.Open? {
      SumSnoc(s.held, Reservation(0, Idle), Bytes);
    } else if e.r < |s.held| {
      SumUpdate(s.held, e.r, t.held[e.r], Bytes);
      assert s.held == s.held[e.r := s.held[e.r]];
    }
  }

  /** Over every interleaving the shared counter is the sum of what live requests hold, and stays
      between zero and the limit. */
  lemma {:induction false} BudgetExact(limit: nat, es: seq<Event>)
    ensures Safe(limit, Run(limit, es))
    ensures Run(limit, es).buffered == Sum(Run(limit, es).held, Bytes)
    ensures 0 <= Run(limit, es).buffered <= limit
    decreases |es|
  {
    if es != [] {
      BudgetExact(limit, es[..|es| - 1]);
      StepKeepsSafe(limit, Run(limit, es[..|es| - 1]), es[|es| - 1]);
    }
  }

  /** When every request has gone the whole budget is free again. */
  lemma {:induction false} AllDroppedFreesAll(limit: nat, es: seq<Event>)
    requires forall r :: 0 <= r < |Run(limit, es).held| ==> Run(limit, es).held[r].bytes == 0
    ensures Run(limit, es).buffered == 0
  {
    BudgetExact(limit, es);
    SumZero(Run(limit, es).held, Bytes);
  }

  /** Reservation::Add, given the values its load and its failed swaps see: it succeeds exactly when
      the amount fits on top of each of them, and then swaps from the last. */
  method Add(limit: nat, amount: nat, seen: seq<nat>) returns (added: bool, buffered: nat)
    requires |seen| > 0
    ensures added <==> forall i :: 0 <= i < |seen| ==> seen[i] + amount <= limit
    ensures added ==> buffered == seen[|seen| - 1] + amount <= limit
  {
    var i, current := 0, seen[0];
    added, buffered := false, current;
    while i < |seen| && amount <= limit && current <= limit - amount
      invariant i <= |seen|
      invariant i < |seen| ==> current == seen[i]
      invariant i == |seen| ==> current == seen[i - 1]
      invariant forall j :: 0 <= j < i ==> seen[j] + amount <= limit
    {
      i := i + 1;
      if i < |seen| {
        current := seen[i];
      }
    }
    if i == |seen| {
      added, buffered := true, current + amount;
    }
  }
}
