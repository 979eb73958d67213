/** The parallel loop of dispatch_apply: `n` participants claim indices from a shared counter.
    Participant 0 is the calling thread; every atomic operation, every read of the caller's stack
    frame and each end of a client call is one step, and a schedule is any sequence of participants. */
module ApplyProtocol {
  import opened Options

  datatype Phase =
    | Start                          // before the first increment of da_index
    | ReadFrame(idx: nat)            // an index is claimed; da_dc, on the caller's stack, is read next
    | Invoke(idx: nat, done: nat)
    | InCall(idx: nat, done: nat)
    | Next(done: nat)                // before the next increment of da_index
    | Report(done: nat)              // before the subtraction from da_todo
    | Signal                         // da_todo reached zero here
    | Exit                           // label `out`; the caller waits for the event here
    | Destroy                        // caller only: past the wait
    | Leave                          // before the decrement of da_thr_cnt
    | Free                           // da_thr_cnt reached zero here
    | Done

  datatype Event = Pending | Signalled | Destroyed

  /** `index`, `todo`, `thrCnt` and `event` are the shared fields; `size` is one more than the largest
      size_t.  `claims` counts the increments of `index`, without wrap-around; `started` and `finished`
      are the client calls in order. */
  datatype State = State(
    size: nat, iter: nat, index: nat, todo: int, thrCnt: int, event: Event,
    threads: seq<Phase>,
    claims: nat, started: seq<nat>, finished: seq<nat>, signals: nat, frees: nat)

  function Init(size: nat, iter: nat, n: nat): State {
    State(size, iter, 0, iter, n, Pending, seq(n, i => Start), 0, [], [], 0, 0)
  }

  /** The caller has not returned from apply, so its stack frame is still there. */
  predicate CallerInside(s: State) { s.threads != [] && !s.threads[0].Done? }

  predicate Enabled(s: State, t: nat) {
    && t < |s.threads| && !s.threads[t].Done?
    && (t == 0 && s.threads[t].Exit? ==> s.event == Signalled)
  }

  function Step(s: State, t: nat): State
    requires Enabled(s, t) && s.size > 0
  {
    var inc := s.(index := (s.index + 1) % s.size, claims := s.claims + 1);
    match s.threads[t]
    case Start => Goto(inc, t, if s.index < s.iter then ReadFrame(s.index) else Exit)
    case ReadFrame(idx) => Goto(s, t, Invoke(idx, 0))
    case Invoke(idx, done) => Goto(s.(started := s.started + [idx]), t, InCall(idx, done))
    case InCall(idx, done) => Goto(s.(finished := s.finished + [idx]), t, Next(done + 1))
    case Next(done) => Goto(inc, t, if s.index < s.iter then Invoke(s.index, done) else Report(done))
    case Report(done) => Goto(s.(todo := s.todo - done), t, if s.todo - done == 0 then Signal else Exit)
    case Signal => Goto(s.(event := Signalled, signals := s.signals + 1), t, Exit)
    case Exit => Goto(s, t, if t == 0 then Destroy else Leave)
    case Destroy => Goto(s.(event := Destroyed), t, Leave)
    case Leave => Goto(s.(thrCnt := s.thrCnt - 1), t, if s.thrCnt - 1 == 0 then Free else Done)
    case Free => Goto(s.(frees := s.frees + 1), t, Done)
  }

  function Goto(s: State, t: nat, p: Phase): State
    requires t < |s.threads|
  {
    s.(threads := s.threads[t := p])
  }

  function Run(init: State, schedule: seq<nat>): Option<State>
    requires init.size > 0
    ensures Run(init, schedule).Some? ==> Run(init, schedule).value.size == init.size
  {
    if schedule == [] then Some(init)
    else
      var last := |schedule| - 1;
      match Run(init, schedule[..last])
      case None => None
      case Some(s) => if Enabled(s, schedule[last]) then Some(Step(s, schedule[last])) else None
  }

  // ---- totals over the participants ---------------------------------------------------------

  function Total(w: Phase -> int, ts: seq<Phase>): int {
    if ts == [] then 0 else Total(w, ts[..|ts| - 1]) + w(ts[|ts| - 1])
  }

  lemma {:induction false} TotalUpdate(w: Phase -> int, ts: seq<Phase>, t: nat, p: Phase)
    requires t < |ts|
    ensures Total(w, ts[t := p]) == Total(w, ts) - w(ts[t]) + w(p)
  {
    var k := |ts| - 1;
    if t < k {
      TotalUpdate(w, ts[..k], t, p);
      assert ts[t := p][..k] == ts[..k][t := p];
    } else {
      assert ts[t := p][..k] == ts[..k];
    }
  }

  lemma {:induction false} TotalBelow(w: Phase -> int, v: Phase -> int, ts: seq<Phase>)
    requires forall p :: 0 <= w(p) <= v(p)
    ensures 0 <= Total(w, ts) <= Total(v, ts)
  {
    if ts != [] { TotalBelow(w, v, ts[..|ts| - 1]); }
  }

  lemma {:induction false} TotalAtLeast(w: Phase -> int, ts: seq<Phase>, t: nat)
    requires t < |ts| && forall p :: 0 <= w(p)
    ensures w(ts[t]) <= Total(w, ts)
  {
    var k := |ts| - 1;
    if t < k {
      TotalAtLeast(w, ts[..k], t);
    } else {
      TotalBelow(w, w, ts[..k]);
    }
  }

  lemma {:induction false} TotalPositive(w: Phase -> int, ts: seq<Phase>) returns (t: nat)
    requires Total(w, ts) > 0
    ensures t < |ts| && w(ts[t]) > 0
  {
    var k := |ts| - 1;
    if w(ts[k]) > 0 { t := k; } else { t := TotalPositive(w, ts[..k]); }
  }

  lemma {:induction false} TotalSame(w: Phase -> int, n: nat, p: Phase)
    ensures Total(w, seq(n, i => p)) == n * w(p)
  {
    if n > 0 {
      TotalSame(w, n - 1, p);
      assert seq(n, i => p)[..n - 1] == seq(n - 1, i => p);
    }
  }

  /** Iterations a participant has claimed and not yet subtracted from da_todo. */
  function Work(p: Phase): int {
    match p
    case ReadFrame(_) => 1
    case Invoke(_, done) => done + 1
    case InCall(_, done) => done + 1
    case Next(done) => done
    case Report(done) => done
    case _ => 0
  }

  function WaitsFor(p: Phase, i: nat): int {
    if p == ReadFrame(i) || (p.Invoke? && p.idx == i) then 1 else 0
  }

  function Calls(p: Phase, i: nat): int { if p.InCall? && p.idx == i then 1 else 0 }

  function Waiting(i: nat): Phase -> int { p => WaitsFor(p, i) }

  function Calling(i: nat): Phase -> int { p => Calls(p, i) }

  function Signalling(p: Phase): int { if p.Signal? then 1 else 0 }

  function Freeing(p: Phase): int { if p.Free? then 1 else 0 }

  /** Participants counted in da_thr_cnt. */
  function Present(p: Phase): int { if p.Free? || p.Done? then 0 else 1 }

  /** Participants that will not increment da_index again. */
  function Finished(p: Phase): int {
    if p.Start? || p.ReadFrame? || p.Invoke? || p.InCall? || p.Next? then 0 else 1
  }

  // ---- the invariant ------------------------------------------------------------------------

  function Claimed(s: State): nat { if s.claims < s.iter then s.claims else s.iter }

  /** Each claimed index is waiting to be called in one place, or has been called once. */
  ghost predicate IndexInv(s: State) {
    && (forall i: nat :: multiset(s.started)[i] + Total(Waiting(i), s.threads) == if i < Claimed(s) then 1 else 0)
    && (forall i: nat :: multiset(s.finished)[i] + Total(Calling(i), s.threads) == multiset(s.started)[i])
  }

  /** da_todo counts the iterations not yet claimed and those claimed but not yet reported. */
  ghost predicate TodoInv(s: State) {
    s.todo == s.iter - Claimed(s) + Total(Work, s.threads)
  }

  /** The counter has moved past the end at most once for each participant that has seen the end. */
  ghost predicate CounterInv(s: State) {
    && s.size > 0 && s.index == s.claims % s.size
    && s.claims <= s.iter + Total(Finished, s.threads)
    && (Total(Finished, s.threads) > 0 ==> s.claims >= s.iter)
  }

  ghost predicate EventInv(s: State)
    requires s.threads != []
  {
    && s.signals + Total(Signalling, s.threads) == (if s.todo == 0 then 1 else 0)
    && (s.event.Pending? <==> s.signals == 0)
    && (s.event.Destroyed? <==> s.threads[0].Leave? || s.threads[0].Free? || s.threads[0].Done?)
    && (s.threads[0].Destroy? ==> s.event.Signalled?)
  }

  ghost predicate CountInv(s: State) {
    && s.thrCnt == Total(Present, s.threads)
    && s.frees + Total(Freeing, s.threads) == (if s.thrCnt == 0 then 1 else 0)
  }

  ghost predicate PhaseInv(s: State) {
    forall t :: 0 <= t < |s.threads| ==>
      && (s.threads[t].Next? || s.threads[t].Report? ==> s.threads[t].done > 0)
      && (s.threads[t].Destroy? ==> t == 0)
  }

  ghost predicate Inv(s: State) {
    && 0 < |s.threads| && 0 < s.iter && s.iter + |s.threads| <= s.size
    && IndexInv(s) && TodoInv(s) && CounterInv(s) && EventInv(s) && CountInv(s) && PhaseInv(s)
  }

  lemma InitInv(size: nat, iter: nat, n: nat)
    requires 0 < n && 0 < iter && iter + n <= size
    ensures Inv(Init(size, iter, n))
  {
    var s := Init(size, iter, n);
    hide Total;
    forall i: nat
      ensures Total(Waiting(i), s.threads) == 0 && Total(Calling(i), s.threads) == 0
    {
      TotalSame(Waiting(i), n, Start);
      TotalSame(Calling(i), n, Start);
    }
    TotalSame(Work, n, Start);
    TotalSame(Finished, n, Start);
    TotalSame(Signalling, n, Start);
    TotalSame(Present, n, Start);
    TotalSame(Freeing, n, Start);
  }

  function One(p: Phase): int { 1 }

  lemma {:induction false} TotalOne(ts: seq<Phase>)
    ensures Total(One, ts) == |ts|
  {
    if ts != [] { TotalOne(ts[..|ts| - 1]); }
  }

  /** While a participant can still move the counter, the counter has not wrapped. */
  lemma NoWrap(s: State, t: nat)
    requires CounterInv(s) && s.iter + |s.threads| <= s.size && t < |s.threads| && Finished(s.threads[t]) == 0
    ensures s.index == s.claims
  {
    hide Total;
    TotalUpdate(Finished, s.threads, t, Done);
    TotalBelow(Finished, One, s.threads[t := Done]);
    TotalOne(s.threads[t := Done]);
    NotYetWrapped(s.claims, s.size);
  }

  lemma NotYetWrapped(x: nat, n: nat)
    requires n > 0
    ensures x < n ==> x % n == x
  {}

  lemma CountAppend(c: seq<nat>, x: nat, i: nat)
    ensures multiset(c + [x])[i] == multiset(c)[i] + if x == i then 1 else 0
  {}

  /** How one index moves in a step: it is claimed, then its call starts, then its call returns. */
  lemma StepWaits(s: State, t: nat, i: nat)
    requires s.size > 0 && Enabled(s, t)
    requires Finished(s.threads[t]) == 0 ==> s.index == s.claims
    requires Finished(s.threads[t]) > 0 ==> s.claims >= s.iter
    ensures var s', p, p' := Step(s, t), s.threads[t], Step(s, t).threads[t];
            multiset(s'.started)[i] + WaitsFor(p', i) + (if i < Claimed(s) then 1 else 0)
            == multiset(s.started)[i] + WaitsFor(p, i) + (if i < Claimed(s') then 1 else 0)
  {
    if s.threads[t].Invoke? { CountAppend(s.started, s.threads[t].idx, i); }
  }

  lemma StepCalls(s: State, t: nat, i: nat)
    requires s.size > 0 && Enabled(s, t)
    ensures var s', p, p' := Step(s, t), s.threads[t], Step(s, t).threads[t];
            multiset(s'.finished)[i] + Calls(p', i) + multiset(s.started)[i]
            == multiset(s.finished)[i] + Calls(p, i) + multiset(s'.started)[i]
  {
    var p := s.threads[t];
    if p.Invoke? { CountAppend(s.started, p.idx, i); }
    if p.InCall? { CountAppend(s.finished, p.idx, i); }
  }

  /** One index's share of the invariant is kept by one step. */
  lemma StepIndexAt(s: State, t: nat, i: nat)
    requires s.size > 0 && Enabled(s, t)
    requires Finished(s.threads[t]) == 0 ==> s.index == s.claims
    requires Finished(s.threads[t]) > 0 ==> s.claims >= s.iter
    requires multiset(s.started)[i] + Total(Waiting(i), s.threads) == if i < Claimed(s) then 1 else 0
    requires multiset(s.finished)[i] + Total(Calling(i), s.threads) == multiset(s.started)[i]
    ensures var s' := Step(s, t);
            && multiset(s'.started)[i] + Total(Waiting(i), s'.threads) == (if i < Claimed(s') then 1 else 0)
            && multiset(s'.finished)[i] + Total(Calling(i), s'.threads) == multiset(s'.started)[i]
  {
    var p' := Step(s, t).threads[t];
    assert Step(s, t).threads == s.threads[t := p'];
    StepWaits(s, t, i);
    StepCalls(s, t, i);
    hide Total, Step, Claimed, WaitsFor, Calls;
    TotalUpdate(Waiting(i), s.threads, t, p');
    TotalUpdate(Calling(i), s.threads, t, p');
  }

  lemma StepIndex(s: State, t: nat)
    requires IndexInv(s) && CounterInv(s) && s.iter + |s.threads| <= s.size && Enabled(s, t)
    ensures IndexInv(Step(s, t))
  {
    if Finished(s.threads[t]) == 0 { NoWrap(s, t); } else { TotalAtLeast(Finished, s.threads, t); }
    hide Total, Step;
    forall i: nat
      ensures var s' := Step(s, t);
              && multiset(s'.started)[i] + Total(Waiting(i), s'.threads) == (if i < Claimed(s') then 1 else 0)
              && multiset(s'.finished)[i] + Total(Calling(i), s'.threads) == multiset(s'.started)[i]
    {
      StepIndexAt(s, t, i);
    }
  }

  lemma StepTodo(s: State, t: nat)
    requires TodoInv(s) && CounterInv(s) && s.iter + |s.threads| <= s.size && Enabled(s, t)
    ensures TodoInv(Step(s, t)) && CounterInv(Step(s, t))
  {
    hide Total;
    var p' := Step(s, t).threads[t];
    if Finished(s.threads[t]) == 0 { NoWrap(s, t); }
    TotalUpdate(Work, s.threads, t, p');
    TotalUpdate(Finished, s.threads, t, p');
    TotalBelow(Finished, Finished, s.threads);
    TotalAtLeast(Finished, s.threads, t);
  }

  lemma StepPhase(s: State, t: nat)
    requires s.size > 0 && PhaseInv(s) && Enabled(s, t)
    ensures PhaseInv(Step(s, t))
  {}

  lemma StepEvent(s: State, t: nat)
    requires s.size > 0 && TodoInv(s) && s.threads != [] && EventInv(s) && PhaseInv(s) && Enabled(s, t)
    ensures EventInv(Step(s, t))
  {
    hide Total;
    var p, p' := s.threads[t], Step(s, t).threads[t];
    TotalUpdate(Signalling, s.threads, t, p');
    TotalAtLeast(Work, s.threads, t);
    TotalAtLeast(Signalling, s.threads, t);
  }

  lemma StepCount(s: State, t: nat)
    requires s.size > 0 && CountInv(s) && Enabled(s, t)
    ensures CountInv(Step(s, t))
  {
    hide Total;
    var p, p' := s.threads[t], Step(s, t).threads[t];
    TotalUpdate(Present, s.threads, t, p');
    TotalUpdate(Freeing, s.threads, t, p');
    TotalAtLeast(Present, s.threads, t);
    TotalAtLeast(Freeing, s.threads, t);
  }

  lemma StepKeepsInv(s: State, t: nat)
    requires Inv(s) && Enabled(s, t)
    ensures Inv(Step(s, t)) && Step(s, t).iter == s.iter && |Step(s, t).threads| == |s.threads|
  {
    hide IndexInv, TodoInv, CounterInv, EventInv, CountInv, PhaseInv, Total;
    StepIndex(s, t);
    StepTodo(s, t);
    StepPhase(s, t);
    StepEvent(s, t);
    StepCount(s, t);
  }

  lemma {:induction false} RunKeepsInv(size: nat, iter: nat, n: nat, schedule: seq<nat>)
    requires 0 < n && 0 < iter && iter + n <= size
    requires Run(Init(size, iter, n), schedule).Some?
    ensures var s := Run(Init(size, iter, n), schedule).value;
            Inv(s) && s.iter == iter && |s.threads| == n
  {
    if schedule == [] {
      InitInv(size, iter, n);
    } else {
      hide Inv, Init, Step;
      var k := |schedule| - 1;
      RunKeepsInv(size, iter, n, schedule[..k]);
      StepKeepsInv(Run(Init(size, iter, n), schedule[..k]).value, schedule[k]);
    }
  }
}
