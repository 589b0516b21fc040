/** The RPC server's request accounting (src/rpc.cpp:470-497, 571-733, 762-799): admission, the
    race between completion, timeout and stop for each v1 request, and the drain that Stop waits
    for.  Any number of connections, executor threads, timers and callers of Stop interleave; each
    event is one critical section of `mutex`, one compare-and-swap or one accepted hand-off.
    `Foreign` is a resume that was queued for a parked handler's fiber elsewhere.  Services call `done`
    exactly once and do not throw. */
module Providers {
  import opened Prelude

  /** Where the request's work is.  `Done` is after `done` was called: a v1 request has then been
      taken out of `outstanding`, a multiplexed one has its reply fiber scheduled. */
  datatype Work = Admitted | Refused | RefusedCounted | Queued | Done | Over

  /** Where the v1 handler fiber is. */
  datatype Handler = Submitting | Parked | Awake | Left

  datatype Call = Call(mux: bool, work: Work, handler: Handler, outcome: nat, scheduled: nat,
                       out: bool, pend: bool, listed: bool, replied: bool)

  /** `stopping` are the contexts a Stop has collected and not yet finished. */
  datatype State = State(started: bool, accepting: bool, outstanding: int, pendingCount: int,
                         calls: seq<Call>, stopping: set<nat>)

  datatype Event =
    | Start
    | AdmitV1
    | AdmitMux
    | Submit(c: nat, queued: bool)
    | RefusedCount(c: nat)
    | RefusedFinish(c: nat)
    | DoneCount(c: nat)
    | DoneFinish(c: nat)
    | MuxDone(c: nat)
    | MuxReply(c: nat)
    | Park(c: nat)
    | Timer(c: nat)
    | Resume(c: nat)
    | Foreign(c: nat)
    | Reply(c: nat, connected: bool)
    | StopBegin
    | StopFinish(c: nat)

  const INIT := State(false, false, 0, 0, [], {})

  /** CallContext::Finish: the compare-and-swap from 0 wins once, and only the winner schedules. */
  function Finish(k: Call, value: nat): Call {
    if k.outcome == 0 then k.(outcome := value, scheduled := k.scheduled + 1) else k
  }

  function NewCall(mux: bool): Call {
    Call(mux, Admitted, if mux then Left else Submitting, 0, 0, true, true, !mux, false)
  }

  function Collected(calls: seq<Call>): set<nat> {
    set c | 0 <= c < |calls| && calls[c].listed
  }

  function Unlist(calls: seq<Call>): (r: seq<Call>)
    ensures |r| == |calls|
    ensures forall c :: 0 <= c < |calls| ==> r[c] == calls[c].(listed := false)
  {
    if calls == [] then [] else Unlist(calls[..|calls| - 1]) + [calls[|calls| - 1].(listed := false)]
  }

  function StartStep(s: State): State {
    if s.started then s else s.(started := true, accepting := true)
  }

  /** The v1 path admits up to `max_connections`, the multiplexed path 64 times as many. */
  function Limit(max: nat, mux: bool): nat {
    if mux then max * 64 else max
  }

  function AdmitStep(max: nat, s: State, mux: bool): State {
    if !s.accepting || s.outstanding >= Limit(max, mux) then s
    else s.(calls := s.calls + [NewCall(mux)], outstanding := s.outstanding + 1, pendingCount := s.pendingCount + 1)
  }

  function StopStep(s: State): State {
    s.(accepting := false, stopping := s.stopping + Collected(s.calls), calls := Unlist(s.calls))
  }

  function Step(max: nat, s: State, e: Event): State {
    match e
    case Start => StartStep(s)
    case AdmitV1 => AdmitStep(max, s, false)
    case AdmitMux => AdmitStep(max, s, true)
    case StopBegin => StopStep(s)
    case _ => if e.c < |s.calls| then CallStep(s, e) else s
  }

  predicate OfCall(e: Event) {
    !e.Start? && !e.AdmitV1? && !e.AdmitMux? && !e.StopBegin?
  }

  function CallStep(s: State, e: Event): State
    requires OfCall(e) && e.c < |s.calls|
  {
    var k := s.calls[e.c];
    if e.StopFinish? && e.c !in s.stopping then s
    else
      State(s.started, s.accepting, s.outstanding - OutstandingDrop(k, e), s.pendingCount - PendingDrop(k, e),
            s.calls[e.c := Next(k, e, s.accepting)], if e.StopFinish? then s.stopping - {e.c} else s.stopping)
  }

  /** How one request's record moves; a step that is not enabled leaves it alone. */
  function Next(k: Call, e: Event, accepting: bool): Call
    requires OfCall(e)
  {
    match e
    case Submit(_, queued) => if k.work.Admitted? then k.(work := if queued then Queued else Refused) else k
    case RefusedCount(_) =>
      if !k.work.Refused? then k
      else if k.mux then k.(work := Over, out := false, pend := false)
      else k.(work := RefusedCounted, out := false)
    case RefusedFinish(_) => if k.work.RefusedCounted? then Finish(k, 2).(work := Over) else k
    case DoneCount(_) => if k.work.Queued? && !k.mux then k.(work := Done, out := false) else k
    case DoneFinish(_) => if k.work.Done? && !k.mux then Finish(k, 1).(work := Over) else k
    case MuxDone(_) => if k.work.Queued? && k.mux then k.(work := Done) else k
    case MuxReply(_) =>
      if k.work.Done? && k.mux then k.(work := Over, out := false, pend := false, replied := true) else k
    case Park(_) => if k.handler.Submitting? && !k.work.Admitted? then k.(handler := Parked) else k
    case Timer(_) => if !k.mux && !k.work.Admitted? then Finish(k, 2) else k
    case Resume(_) => if k.handler.Parked? && k.scheduled > 0 then k.(handler := Awake, pend := false) else k
    case Foreign(_) =>
      if k.handler.Parked? then k.(handler := if k.outcome == 0 then Left else Awake, pend := false) else k
    case Reply(_, connected) =>
      if k.handler.Awake?
      then k.(handler := Left, replied := k.outcome == 1 && connected && accepting) else k
    case StopFinish(_) => Finish(k, 2)
  }

  /** Where the code decrements `outstanding`. */
  function OutstandingDrop(k: Call, e: Event): nat {
    if e.RefusedCount? && k.work.Refused? then 1
    else if e.DoneCount? && k.work.Queued? && !k.mux then 1
    else if e.MuxReply? && k.work.Done? && k.mux then 1
    else 0
  }

  /** Where the code decrements `pending_count`. */
  function PendingDrop(k: Call, e: Event): nat {
    if e.RefusedCount? && k.work.Refused? && k.mux then 1
    else if e.MuxReply? && k.work.Done? && k.mux then 1
    else if e.Resume? && k.handler.Parked? && k.scheduled > 0 then 1
    else if e.Foreign? && k.handler.Parked? then 1
    else 0
  }

  function Run(max: nat, es: seq<Event>): State {
    if es == [] then INIT else Step(max, Run(max, es[..|es| - 1]), es[|es| - 1])
  }

  // ----- what every step keeps

  function Out(k: Call): nat { if k.out then 1 else 0 }
  function Pend(k: Call): nat { if k.pend then 1 else 0 }

  ghost predicate V1Ok(k: Call) {
    && (k.out <==> k.work.Admitted? || k.work.Refused? || k.work.Queued?)
    && (k.pend <==> k.handler.Submitting? || k.handler.Parked?)
    && k.scheduled == (if k.outcome == 0 then 0 else 1)
    && k.outcome <= 2
    && (k.outcome == 1 ==> k.work.Over?)
    && (k.work.Over? ==> k.outcome != 0)
    && (k.handler.Awake? ==> k.outcome != 0)
    && (k.replied ==> k.outcome == 1 && k.handler.Left?)
  }

  ghost predicate MuxOk(k: Call) {
    && k.handler.Left? && !k.listed && k.outcome == 0 && k.scheduled == 0
    && !k.work.RefusedCounted?
    && (k.out <==> !k.work.Over?) && (k.pend <==> k.out)
    && (k.replied ==> k.work.Over?)
  }

  ghost predicate CallOk(k: Call) {
    if k.mux then MuxOk(k) else V1Ok(k)
  }

  /** An undecided v1 request is in the list Stop takes or already taken by a Stop. */
  ghost predicate Reached(k: Call, c: nat, stopping: set<nat>) {
    !k.mux && k.outcome == 0 ==> k.listed || c in stopping
  }

  ghost predicate Calls(calls: seq<Call>, stopping: set<nat>) {
    && (forall c :: 0 <= c < |calls| ==> CallOk(calls[c]) && Reached(calls[c], c, stopping))
    && (forall c :: c in stopping ==> c < |calls| && !calls[c].mux)
  }

  ghost predicate Closed(s: State) {
    s.started && !s.accepting ==> forall c :: 0 <= c < |s.calls| ==> !s.calls[c].listed
  }

  ghost predicate Counted(s: State) {
    && s.outstanding == Sum(s.calls, Out)
    && s.pendingCount == Sum(s.calls, Pend)
  }

  ghost predicate Safe(max: nat, s: State) {
    && Counted(s)
    && s.outstanding <= Limit(max, true)
    && Calls(s.calls, s.stopping)
    && (s.accepting ==> s.started)
    && (!s.started ==> s.calls == [])
    && Closed(s)
  }

  lemma {:induction false} AdmitCounts(s: State, k: Call)
    requires Counted(s) && k.out && k.pend
    ensures Counted(s.(calls := s.calls + [k], outstanding := s.outstanding + 1, pendingCount := s.pendingCount + 1))
  {
    SumSnoc(s.calls, k, Out);
    SumSnoc(s.calls, k, Pend);
  }

  lemma {:induction false} AdmitKeeps(max: nat, s: State, mux: bool)
    requires Safe(max, s)
    ensures Safe(max, AdmitStep(max, s, mux))
  {
    AdmitCounts(s, NewCall(mux));
    assert CallOk(NewCall(mux));
  }

  lemma {:induction false} UnlistSums(calls: seq<Call>)
    ensures Sum(Unlist(calls), Out) == Sum(calls, Out)
    ensures Sum(Unlist(calls), Pend) == Sum(calls, Pend)
    decreases |calls|
  {
    if calls != [] {
      var n := |calls| - 1;
      UnlistSums(calls[..n]);
      SumSnoc(Unlist(calls[..n]), calls[n].(listed := false), Out);
      SumSnoc(Unlist(calls[..n]), calls[n].(listed := false), Pend);
    }
  }

  lemma {:induction false} StopKeepsCalls(s: State)
    requires Calls(s.calls, s.stopping)
    ensures Calls(Unlist(s.calls), s.stopping + Collected(s.calls))
  {
    var calls, stopping := Unlist(s.calls), s.stopping + Collected(s.calls);
    forall c | 0 <= c < |calls| ensures CallOk(calls[c]) && Reached(calls[c], c, stopping) {
      assert CallOk(s.calls[c]) && Reached(s.calls[c], c, s.stopping);
    }
    forall c | c in stopping ensures c < |calls| && !calls[c].mux {
      if c in Collected(s.calls) { assert CallOk(s.calls[c]); }
    }
  }

  lemma {:induction false} StopKeeps(max: nat, s: State)
    requires Safe(max, s)
    ensures Safe(max, StopStep(s))
  {
    UnlistSums(s.calls);
    StopKeepsCalls(s);
  }

  /** One request's own step keeps its record in order and moves each counter by what the record
      stops contributing. */
  lemma {:induction false} NextKeeps(k: Call, e: Event, accepting: bool)
    requires OfCall(e) && CallOk(k) && (e.StopFinish? ==> !k.mux)
    ensures var k' := Next(k, e, accepting);
            && CallOk(k')
            && k'.listed == k.listed && k'.mux == k.mux
            && (k.outcome != 0 ==> k'.outcome == k.outcome)
            && (e.StopFinish? ==> k'.outcome != 0)
            && Out(k) == Out(k') + OutstandingDrop(k, e)
            && Pend(k) == Pend(k') + PendingDrop(k, e)
  {
  }

  lemma {:induction false} CallCounts(s: State, e: Event, k': Call)
    requires Counted(s) && OfCall(e) && e.c < |s.calls|
    requires Out(s.calls[e.c]) == Out(k') + OutstandingDrop(s.calls[e.c], e)
    requires Pend(s.calls[e.c]) == Pend(k') + PendingDrop(s.calls[e.c], e)
    ensures Sum(s.calls[e.c := k'], Out) == s.outstanding - OutstandingDrop(s.calls[e.c], e)
    ensures Sum(s.calls[e.c := k'], Pend) == s.pendingCount - PendingDrop(s.calls[e.c], e)
  {
    SumUpdate(s.calls, e.c, k', Out);
    SumUpdate(s.calls, e.c, k', Pend);
  }

  lemma {:induction false} CallStepKeeps(max: nat, s: State, e: Event)
    requires Safe(max, s) && OfCall(e) && e.c < |s.calls|
    ensures Safe(max, CallStep(s, e))
  {
    var k, t := s.calls[e.c], CallStep(s, e);
    if !e.StopFinish? || e.c in s.stopping {
      var k' := Next(k, e, s.accepting);
      NextKeeps(k, e, s.accepting);
      CallCounts(s, e, k');
      CallsKeep(s, e, k');
    }
  }

  lemma {:induction false} CallsKeep(s: State, e: Event, k': Call)
    requires Calls(s.calls, s.stopping) && OfCall(e) && e.c < |s.calls| && CallOk(k')
    requires k'.listed == s.calls[e.c].listed && k'.mux == s.calls[e.c].mux
    requires s.calls[e.c].outcome != 0 || e.StopFinish? ==> k'.outcome != 0
    ensures Calls(s.calls[e.c := k'], if e.StopFinish? then s.stopping - {e.c} else s.stopping)
  {
    var calls := s.calls[e.c := k'];
    var stopping := if e.StopFinish? then s.stopping - {e.c} else s.stopping;
    forall c | 0 <= c < |calls| ensures CallOk(calls[c]) && Reached(calls[c], c, stopping) {
      assert CallOk(s.calls[c]) && Reached(s.calls[c], c, s.stopping);
    }
  }

  lemma {:induction false} StartKeeps(max: nat, s: State)
    requires Safe(max, s)
    ensures Safe(max, StartStep(s))
  {
  }

  lemma {:induction false} StepKeepsSafe(max: nat, s: State, e: Event)
    requires Safe(max, s)
    ensures Safe(max, Step(max, s, e))
  {
    match e
    case Start => StartKeeps(max, s);
    case AdmitV1 => AdmitKeeps(max, s, false);
    case AdmitMux => AdmitKeeps(max, s, true);
    case StopBegin => StopKeeps(max, s);
    case _ => if e.c < |s.calls| { CallStepKeeps(max, s, e); }
  }

  lemma {:induction false} RunIsSafe(max: nat, es: seq<Event>)
    ensures Safe(max, Run(max, es))
    decreases |es|
  {
    if es != [] {
      RunIsSafe(max, es[..|es| - 1]);
      StepKeepsSafe(max, Run(max, es[..|es| - 1]), es[|es| - 1]);
    }
  }

  lemma {:induction false} RunSnoc(max: nat, es: seq<Event>, e: Event)
    ensures Run(max, es + [e]) == Step(max, Run(max, es), e)
  {
    assert (es + [e])[..|es|] == es;
  }

  // ----- theorems over whole runs

  /** The unsigned counters never go below zero and stay within the multiplexed limit; each waiter is
      scheduled at most once; the drain condition holds exactly when every request is finished. */
  lemma {:induction false} CountersExact(max: nat, es: seq<Event>)
    ensures var s := Run(max, es);
            && 0 <= s.outstanding <= Limit(max, true) && 0 <= s.pendingCount
            && (forall c :: 0 <= c < |s.calls| ==> s.calls[c].scheduled <= 1)
            && (s.outstanding == 0 && s.pendingCount == 0
                <==> forall c :: 0 <= c < |s.calls| ==> !s.calls[c].out && !s.calls[c].pend)
  {
    RunIsSafe(max, es);
    var s := Run(max, es);
    if s.outstanding == 0 && s.pendingCount == 0 {
      forall c | 0 <= c < |s.calls| ensures !s.calls[c].out && !s.calls[c].pend {
        SumMember(s.calls, c, Out);
        SumMember(s.calls, c, Pend);
      }
    }
    if forall c :: 0 <= c < |s.calls| ==> !s.calls[c].out && !s.calls[c].pend {
      SumZero(s.calls, Out);
      SumZero(s.calls, Pend);
    }
  }

  lemma {:induction false} OutcomeKept(max: nat, s: State, e: Event, c: nat)
    requires Safe(max, s) && c < |s.calls|
    ensures var t := Step(max, s, e);
            && c < |t.calls| && t.calls[c].mux == s.calls[c].mux
            && (s.calls[c].outcome != 0 ==> t.calls[c].outcome == s.calls[c].outcome)
  {
    if OfCall(e) && e.c == c && (e.StopFinish? ==> c in s.stopping) {
      assert CallOk(s.calls[c]);
      NextKeeps(s.calls[c], e, s.accepting);
    }
  }

  ghost predicate TimedOut(s: State, c: nat) {
    c < |s.calls| && !s.calls[c].mux && s.calls[c].outcome == 2
  }

  /** Once a v1 request has timed out or been stopped, no later `done` changes that and no reply is
      ever written for it. */
  lemma {:induction false} LateDoneNeverReplies(max: nat, es: seq<Event>, later: seq<Event>, c: nat)
    requires TimedOut(Run(max, es), c)
    ensures TimedOut(Run(max, es + later), c) && !Run(max, es + later).calls[c].replied
    decreases |later|
  {
    if later == [] {
      assert es + later == es;
    } else {
      var n := |later| - 1;
      LateDoneNeverReplies(max, es, later[..n], c);
      RunIsSafe(max, es + later[..n]);
      assert es + later == es + later[..n] + [later[n]];
      RunSnoc(max, es + later[..n], later[n]);
      OutcomeKept(max, Run(max, es + later[..n]), later[n], c);
    }
    RunIsSafe(max, es + later);
    assert CallOk(Run(max, es + later).calls[c]);
  }

  /** When Stop has finished the contexts it collected, every v1 request has its outcome and its
      single wake. */
  lemma {:induction false} StopDecidesEveryWaiter(max: nat, es: seq<Event>, c: nat)
    requires var s := Run(max, es);
             s.started && !s.accepting && s.stopping == {} && c < |s.calls| && !s.calls[c].mux
    ensures Run(max, es).calls[c].outcome != 0 && Run(max, es).calls[c].scheduled == 1
  {
    RunIsSafe(max, es);
    var s := Run(max, es);
    assert CallOk(s.calls[c]) && Reached(s.calls[c], c, s.stopping);
  }

  /** What Stop's wait tests: it returns true in such a state, whatever happened since Stop began. */
  ghost predicate Drained(s: State) {
    s.outstanding == 0 && s.pendingCount == 0
  }

  /** Once a started provider has stopped accepting it never accepts again. */
  ghost predicate Shut(s: State) {
    s.started && !s.accepting
  }

  lemma {:induction false} DrainedStep(max: nat, s: State, e: Event)
    requires Safe(max, s) && Drained(s) && Shut(s)
    ensures var t := Step(max, s, e); Drained(t) && Shut(t) && |t.calls| == |s.calls|
  {
    if OfCall(e) && e.c < |s.calls| && (e.StopFinish? ==> e.c in s.stopping) {
      SumMember(s.calls, e.c, Out);
      SumMember(s.calls, e.c, Pend);
      NextKeeps(s.calls[e.c], e, s.accepting);
    }
  }

  lemma {:induction false} DrainedForever(max: nat, es: seq<Event>, later: seq<Event>)
    requires Drained(Run(max, es)) && Shut(Run(max, es))
    ensures var t := Run(max, es + later);
            Drained(t) && Shut(t) && |t.calls| == |Run(max, es).calls|
    decreases |later|
  {
    if later == [] {
      assert es + later == es;
    } else {
      var n := |later| - 1;
      DrainedForever(max, es, later[..n]);
      RunIsSafe(max, es + later[..n]);
      assert es + later == es + later[..n] + [later[n]];
      RunSnoc(max, es + later[..n], later[n]);
      DrainedStep(max, Run(max, es + later[..n]), later[n]);
    }
  }

  /** No accepted request is ever outstanding again. */
  ghost predicate Final(max: nat, es: seq<Event>) {
    forall later :: Run(max, es + later).outstanding == 0
  }

  /** Some Stop of the run was called on a provider that had been started. */
  ghost predicate StoppedWhileStarted(max: nat, es: seq<Event>) {
    exists i :: StopsAt(max, es, i)
  }

  ghost predicate StopsAt(max: nat, es: seq<Event>, i: int) {
    0 <= i < |es| && es[i] == StopBegin && Run(max, es[..i]).started
  }

  lemma {:induction false} ShutStep(max: nat, s: State, e: Event)
    requires Safe(max, s)
    ensures Shut(Step(max, s, e)) <==> Shut(s) || (e == StopBegin && s.started)
  {
  }

  lemma {:induction false} StopsAtSnoc(max: nat, es: seq<Event>, e: Event)
    ensures StoppedWhileStarted(max, es + [e]) <==>
            StoppedWhileStarted(max, es) || (e == StopBegin && Run(max, es).started)
  {
    var fs := es + [e];
    assert fs[..|es|] == es;
    forall i | 0 <= i < |es| ensures StopsAt(max, fs, i) <==> StopsAt(max, es, i) {
      assert fs[..i] == es[..i];
    }
    assert StopsAt(max, fs, |es|) <==> e == StopBegin && Run(max, es).started;
    if i :| StopsAt(max, es, i) {
      assert StopsAt(max, fs, i);
    }
  }

  lemma {:induction false} ShutIffStoppedWhileStarted(max: nat, es: seq<Event>)
    ensures Shut(Run(max, es)) <==> StoppedWhileStarted(max, es)
    decreases |es|
  {
    if es != [] {
      var n := |es| - 1;
      ShutIffStoppedWhileStarted(max, es[..n]);
      RunIsSafe(max, es[..n]);
      RunSnoc(max, es[..n], es[n]);
      StopsAtSnoc(max, es[..n], es[n]);
      assert es[..n] + [es[n]] == es;
      ShutStep(max, Run(max, es[..n]), es[n]);
    }
  }

  /** A drained provider that is not shut can still be made to admit a request. */
  lemma {:induction false} OpenCanAdmit(max: nat, es: seq<Event>)
    requires Drained(Run(max, es)) && !Shut(Run(max, es)) && max > 0
    ensures !Final(max, es)
  {
    RunIsSafe(max, es);
    RunSnoc(max, es, Start);
    RunSnoc(max, es + [Start], AdmitV1);
    assert es + [Start] + [AdmitV1] == es + [Start, AdmitV1];
    assert Run(max, es + [Start, AdmitV1]).outstanding == 1;
  }

  lemma {:induction false} NothingAdmitted(max: nat, es: seq<Event>)
    requires max == 0
    ensures Run(max, es).outstanding == 0
  {
    CountersExact(max, es);
  }

  /** When Stop's wait sees both counters at 0 that is final exactly if some Stop had been called on a
      started provider (or no request can ever be admitted). */
  lemma {:induction false} DrainFinalIffStoppedWhileStarted(max: nat, es: seq<Event>)
    requires Drained(Run(max, es))
    ensures Final(max, es) <==> StoppedWhileStarted(max, es) || max == 0
  {
    ShutIffStoppedWhileStarted(max, es);
    if max == 0 {
      forall later ensures Run(max, es + later).outstanding == 0 {
        NothingAdmitted(max, es + later);
      }
    } else if Shut(Run(max, es)) {
      forall later ensures Run(max, es + later).outstanding == 0 {
        DrainedForever(max, es, later);
      }
    } else {
      OpenCanAdmit(max, es);
    }
  }

  /** For the caller of one Stop, with anything at all, Start included, happening before its wait ends:
      a true result is final if the provider had been started when Stop was called, and only then
      unless a second Stop came in between. */
  lemma {:induction false} StopFinalIffStarted(max: nat, before: seq<Event>, mid: seq<Event>)
    requires max > 0 && Drained(Run(max, before + [StopBegin] + mid))
    ensures Run(max, before).started ==> Final(max, before + [StopBegin] + mid)
    ensures StopBegin !in mid ==> (Final(max, before + [StopBegin] + mid) <==> Run(max, before).started)
  {
    var es := before + [StopBegin] + mid;
    DrainFinalIffStoppedWhileStarted(max, es);
    assert es[..|before|] == before;
    if Run(max, before).started {
      assert StopsAt(max, es, |before|);
    }
    if StopBegin !in mid {
      forall i | |before| < i < |es| ensures !StopsAt(max, es, i) {
        assert es[i] == mid[i - |before| - 1];
      }
      if i :| StopsAt(max, es, i) {
        assert es[..i] == before[..i];
        StaysStarted(max, before, i);
      }
    }
  }

  lemma {:induction false} StaysStarted(max: nat, es: seq<Event>, i: nat)
    requires i <= |es| && Run(max, es[..i]).started
    ensures Run(max, es).started
    decreases |es| - i
  {
    if i < |es| {
      RunSnoc(max, es[..i], es[i]);
      assert es[..i] + [es[i]] == es[..i + 1];
      StaysStarted(max, es, i + 1);
    } else {
      assert es[..i] == es;
    }
  }

  lemma {:induction false} StopOfIdle(es: seq<Event>)
    requires Run(1, es) == INIT
    ensures Drained(Run(1, es + [StopBegin])) && !Run(1, es).started
    ensures Drained(Run(1, es + [StopBegin] + [Start]))
  {
    RunSnoc(1, es, StopBegin);
    RunSnoc(1, es + [StopBegin], Start);
  }

  /** Two such runs: stopped and only then started, before or after the wait saw both counters at 0. */
  lemma {:induction false} StopBeforeStartIsNotFinal()
    ensures Drained(Run(1, [] + [StopBegin] + [])) && !Final(1, [] + [StopBegin] + [])
    ensures Drained(Run(1, [] + [StopBegin] + [Start])) && !Final(1, [] + [StopBegin] + [Start])
  {
    var none: seq<Event> := [];
    StopOfIdle(none);
    assert none + [StopBegin] + [] == none + [StopBegin];
    StopFinalIffStarted(1, none, []);
    StopFinalIffStarted(1, none, [Start]);
  }

  lemma {:induction false} StopAfterStart(es: seq<Event>)
    requires Run(1, es) == INIT
    ensures Run(1, es + [StopBegin] + [Start]).started
    ensures Drained(Run(1, es + [StopBegin] + [Start] + [StopBegin]))
  {
    RunSnoc(1, es, StopBegin);
    RunSnoc(1, es + [StopBegin], Start);
    RunSnoc(1, es + [StopBegin] + [Start], StopBegin);
  }

  /** A second Stop, called after the Start, makes the first one's result final as well. */
  lemma {:induction false} SecondStopMakesItFinal()
    ensures !Run(1, []).started && Drained(Run(1, [] + [StopBegin] + [Start, StopBegin]))
    ensures Final(1, [] + [StopBegin] + [Start, StopBegin])
  {
    var none: seq<Event> := [];
    StopOfIdle(none);
    StopAfterStart(none);
    var before := none + [StopBegin] + [Start];
    assert before + [StopBegin] + [] == before + [StopBegin] == none + [StopBegin] + [Start, StopBegin];
    StopFinalIffStarted(1, before, []);
  }

  lemma {:induction false} OpenIsCounted(max: nat, s: State, c: nat)
    requires Safe(max, s) && c < |s.calls|
    ensures s.calls[c].out ==> s.outstanding > 0
    ensures s.calls[c].pend ==> s.pendingCount > 0
  {
    SumMember(s.calls, c, Out);
    SumMember(s.calls, c, Pend);
  }

  lemma {:induction false} UnlistAt(calls: seq<Call>, done: seq<Call>)
    requires |done| == |calls| && forall c :: 0 <= c < |calls| ==> done[c] == calls[c].(listed := false)
    ensures done == Unlist(calls)
  {
  }

  method TakeListed(calls: seq<Call>) returns (rest: seq<Call>, taken: set<nat>)
    ensures rest == Unlist(calls) && taken == Collected(calls)
  {
    rest, taken := [], {};
    var i := 0;
    while i < |calls|
      invariant i <= |calls| && |rest| == i
      invariant forall c :: 0 <= c < i ==> rest[c] == calls[c].(listed := false)
      invariant taken == Collected(calls[..i])
    {
      if calls[i].listed {
        taken := taken + {i};
      }
      rest := rest + [calls[i].(listed := false)];
      i := i + 1;
    }
    assert calls[..i] == calls;
    UnlistAt(calls, rest);
  }

  lemma {:induction false} StopFinishKeeps(max: nat, s: State, c: nat)
    requires Safe(max, s) && c in s.stopping
    ensures c < |s.calls|
    ensures Safe(max, s.(calls := s.calls[c := Finish(s.calls[c], 2)], stopping := s.stopping - {c}))
  {
    StepKeepsSafe(max, s, StopFinish(c));
  }

  /** The handler's own resume, or one from elsewhere. */
  function ResumeOf(k: Call, c: nat): Event {
    if k.scheduled > 0 then Resume(c) else Foreign(c)
  }

  lemma {:induction false} ResumedNext(k: Call, c: nat, accepting: bool, connected: bool)
    requires V1Ok(k) && k.handler.Parked?
    ensures Next(Next(k, ResumeOf(k, c), accepting), Reply(c, connected), accepting)
         == k.(handler := Left, pend := false, replied := k.outcome == 1 && connected && accepting)
    ensures PendingDrop(k, ResumeOf(k, c)) == 1
  {
  }

  lemma {:induction false} ResumedEffect(max: nat, s: State, c: nat, connected: bool)
    requires Safe(max, s) && c < |s.calls| && s.calls[c].handler.Parked?
    ensures var k := s.calls[c];
            var t := Step(max, Step(max, s, ResumeOf(k, c)), Reply(c, connected));
            && Safe(max, t)
            && t == s.(pendingCount := s.pendingCount - 1,
                       calls := s.calls[c := k.(handler := Left, pend := false,
                                                replied := k.outcome == 1 && connected && s.accepting)])
    ensures s.pendingCount > 0
  {
    var k := s.calls[c];
    var e := ResumeOf(k, c);
    assert CallOk(k);
    StepKeepsSafe(max, s, e);
    StepKeepsSafe(max, Step(max, s, e), Reply(c, connected));
    OpenIsCounted(max, s, c);
    ResumedNext(k, c, s.accepting, connected);
  }

  /** `Provider::State`.  Both counters are unsigned here: each method proves that its decrement
      stays in range. */
  class Provider {
    const max: nat
    var started: bool
    var accepting: bool
    var outstanding: nat
    var pendingCount: nat
    var calls: seq<Call>
    var stopping: set<nat>

    ghost function View(): State
      reads this
    {
      State(started, accepting, outstanding, pendingCount, calls, stopping)
    }

    ghost predicate Valid()
      reads this
    {
      Safe(max, View())
    }

    constructor (connections: nat)
      ensures max == connections && Valid() && View() == INIT
    {
      max, started, accepting, outstanding, pendingCount, calls, stopping :=
        connections, false, false, 0, 0, [], {};
    }

    /** The admission critical section of Handle; `mux` is a non-zero request id. */
    method Admit(mux: bool) returns (admitted: bool)
      requires Valid()
      modifies this
      ensures Valid() && View() == AdmitStep(max, old(View()), mux)
      ensures admitted <==> old(accepting) && old(outstanding) < Limit(max, mux)
    {
      ghost var v := View();
      admitted := accepting && outstanding < Limit(max, mux);
      if admitted {
        calls := calls + [NewCall(mux)];
        pendingCount, outstanding := pendingCount + 1, outstanding + 1;
      }
      assert View() == AdmitStep(max, v, mux);
      AdmitKeeps(max, v, mux);
    }

    /** DoneClosure::Run: count first, then race for the outcome. */
    method Done(c: nat)
      requires Valid() && c < |calls| && calls[c].work.Queued? && !calls[c].mux
      modifies this
      ensures Valid()
      ensures View() == Step(max, Step(max, old(View()), DoneCount(c)), DoneFinish(c))
      ensures calls[c].outcome == (if old(calls[c].outcome) == 0 then 1 else old(calls[c].outcome))
    {
      ghost var v := View();
      StepKeepsSafe(max, v, DoneCount(c));
      StepKeepsSafe(max, Step(max, v, DoneCount(c)), DoneFinish(c));
      OpenIsCounted(max, v, c);
      assert CallOk(calls[c]);
      outstanding := outstanding - 1;
      calls := calls[c := calls[c].(work := Work.Done, out := false)];
      calls := calls[c := Finish(calls[c], 1).(work := Over)];
    }

    /** The reply fiber of a multiplexed request ends by releasing both counters. */
    method ReplyMultiplexed(c: nat)
      requires Valid() && c < |calls| && calls[c].work.Done? && calls[c].mux
      modifies this
      ensures Valid() && View() == Step(max, old(View()), MuxReply(c))
    {
      StepKeepsSafe(max, View(), MuxReply(c));
      OpenIsCounted(max, View(), c);
      assert CallOk(calls[c]);
      calls := calls[c := calls[c].(work := Over, out := false, pend := false, replied := true)];
      outstanding, pendingCount := outstanding - 1, pendingCount - 1;
    }

    /** The resumed v1 handler leaves the pending count, then replies only to its own `done`, even if
        something else resumed it. */
    method Resumed(c: nat, connected: bool) returns (reply: bool)
      requires Valid() && c < |calls| && calls[c].handler.Parked?
      modifies this
      ensures Valid()
      ensures View() == Step(max, Step(max, old(View()), ResumeOf(old(calls[c]), c)), Reply(c, connected))
      ensures reply <==> old(calls[c].outcome) == 1 && connected && accepting
    {
      ResumedEffect(max, View(), c, connected);
      var completed := calls[c].outcome == 1;
      pendingCount := pendingCount - 1;
      reply := completed && connected && accepting;
      calls := calls[c := calls[c].(handler := Left, pend := false, replied := reply)];
    }

    /** Stop's first critical section collects the listed contexts. */
    method CollectPending()
      requires Valid()
      modifies this
      ensures Valid() && View() == StopStep(old(View()))
    {
      StopKeeps(max, View());
      accepting := false;
      var rest, taken := TakeListed(calls);
      calls, stopping := rest, stopping + taken;
    }

    method FinishCollected()
      requires Valid()
      modifies `calls, `stopping
      ensures Valid() && stopping == {} && |calls| == |old(calls)|
      ensures forall c :: 0 <= c < |calls| ==>
                calls[c] == if c in old(stopping) then Finish(old(calls)[c], 2) else old(calls)[c]
    {
      while stopping != {}
        invariant Valid() && stopping <= old(stopping) && |calls| == |old(calls)|
        invariant forall c :: 0 <= c < |calls| ==>
                    calls[c] == if c in old(stopping) - stopping then Finish(old(calls)[c], 2) else old(calls)[c]
        decreases |stopping|
      {
        var c :| c in stopping;
        StopFinishKeeps(max, View(), c);
        calls := calls[c := Finish(calls[c], 2)];
        stopping := stopping - {c};
      }
    }

    /** Provider::Stop, with the wait seen at its end: a true result on a started provider means
        that every request it ever accepted is finished. */
    method Stop() returns (drained: bool)
      requires Valid()
      modifies this
      ensures Valid() && !accepting && stopping == {}
      ensures drained <==> Drained(View())
      ensures drained && started ==> Shut(View())
      ensures started ==> forall c :: 0 <= c < |calls| && !calls[c].mux ==> calls[c].outcome != 0
      ensures drained ==> forall c :: 0 <= c < |calls| ==> !calls[c].out && !calls[c].pend
    {
      CollectPending();
      FinishCollected();
      drained := pendingCount == 0 && outstanding == 0;
      forall c | 0 <= c < |calls| ensures CallOk(calls[c]) && Reached(calls[c], c, stopping) {
      }
      forall c | 0 <= c < |calls| && drained ensures !calls[c].out && !calls[c].pend {
        OpenIsCounted(max, View(), c);
      }
    }
  }
}
