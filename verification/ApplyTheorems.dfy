/** What parallel apply promises, for every iteration count, participant count and schedule. */
module ApplyTheorems {
  import opened ApplyProtocol
  import opened Options

  // ---- the serial loop ----------------------------------------------------------------------

  /** The calls of _dispatch_apply_serial, in order. */
  function SerialOrder(iter: nat): seq<nat> { seq(iter, i => i) }

  /** _dispatch_apply_serial: a do-while loop, so dispatch_apply_f has to return early for no iterations. */
  method ApplySerial(iter: nat) returns (calls: seq<nat>)
    requires iter > 0
    ensures calls == SerialOrder(iter)
  {
    var idx := 0;
    calls := [idx];
    idx := idx + 1;
    while idx < iter
      invariant 0 < idx <= iter
      invariant calls == SerialOrder(idx)
    {
      calls := calls + [idx];
      idx := idx + 1;
    }
  }

  lemma {:induction false} SerialCount(iter: nat, i: nat)
    ensures multiset(SerialOrder(iter))[i] == if i < iter then 1 else 0
  {
    if iter > 0 {
      SerialCount(iter - 1, i);
      assert SerialOrder(iter) == SerialOrder(iter - 1) + [iter - 1];
    }
  }

  // ---- main results -------------------------------------------------------------------------

  ghost predicate Reachable(s: State, size: nat, iter: nat, n: nat) {
    0 < n && 0 < iter && 0 < size && exists schedule :: Run(Init(size, iter, n), schedule) == Some(s)
  }

  lemma ReachableInv(s: State, size: nat, iter: nat, n: nat)
    requires Reachable(s, size, iter, n) && iter + n <= size
    ensures Inv(s) && s.iter == iter && |s.threads| == n
  {
    var schedule :| Run(Init(size, iter, n), schedule) == Some(s);
    RunKeepsInv(size, iter, n, schedule);
  }

  /** The waiting caller has passed its event. */
  predicate PastWait(s: State) {
    s.threads != [] && (s.threads[0].Destroy? || s.threads[0].Leave? || s.threads[0].Free? || s.threads[0].Done?)
  }

  /** At no time has an index been called twice, and none outside the range is ever called. */
  lemma NoIndexTwice(s: State, size: nat, iter: nat, n: nat, i: nat)
    requires Reachable(s, size, iter, n) && iter + n <= size
    ensures multiset(s.finished)[i] <= multiset(s.started)[i] <= if i < iter then 1 else 0
  {
    ReachableInv(s, size, iter, n);
    hide Total, Reachable;
    TotalBelow(Waiting(i), Waiting(i), s.threads);
    TotalBelow(Calling(i), Calling(i), s.threads);
  }

  /** Once the caller is past its event no work is left anywhere. */
  lemma NothingLeft(s: State)
    requires Inv(s) && PastWait(s)
    ensures s.todo == 0 && Total(Work, s.threads) == 0 && s.claims >= s.iter && s.signals == 1
  {
    hide Total, IndexInv, CountInv, PhaseInv;
    TotalBelow(Work, Work, s.threads);
    TotalBelow(Signalling, Signalling, s.threads);
  }

  /** Parallel apply does what serial apply does: when the caller passes its event every index of the
      range has been called, and has returned, exactly once. */
  lemma ParallelRefinesSerial(s: State, size: nat, iter: nat, n: nat)
    requires Reachable(s, size, iter, n) && iter + n <= size && PastWait(s)
    ensures multiset(s.finished) == multiset(SerialOrder(iter))
  {
    ReachableInv(s, size, iter, n);
    NothingLeft(s);
    hide Total, Reachable, TodoInv, CounterInv, EventInv, CountInv, PhaseInv;
    forall i: nat
      ensures multiset(s.finished)[i] == multiset(SerialOrder(iter))[i]
    {
      TotalBelow(Waiting(i), Work, s.threads);
      TotalBelow(Calling(i), Work, s.threads);
      SerialCount(iter, i);
    }
  }

  /** A participant reads the caller's frame, or calls the client, only while the caller is still waiting
      inside apply and the event has not been signalled. */
  lemma FrameReadsAreSafe(s: State, size: nat, iter: nat, n: nat, t: nat)
    requires Reachable(s, size, iter, n) && iter + n <= size && t < |s.threads|
    requires Work(s.threads[t]) > 0
    ensures s.todo > 0 && s.event.Pending? && CallerInside(s) && !PastWait(s)
  {
    ReachableInv(s, size, iter, n);
    hide Total, Reachable, IndexInv, CountInv, PhaseInv;
    TotalAtLeast(Work, s.threads, t);
    TotalBelow(Signalling, Signalling, s.threads);
  }

  /** The event is signalled at most once, and whoever is about to signal it finds it neither signalled
      nor destroyed. */
  lemma EventIsSignalledOnce(s: State, size: nat, iter: nat, n: nat, t: nat)
    requires Reachable(s, size, iter, n) && iter + n <= size && t < |s.threads|
    ensures s.signals <= 1
    ensures s.threads[t].Signal? ==> s.event.Pending? && s.signals == 0
    ensures s.threads[t].Destroy? ==> t == 0 && s.event.Signalled? && s.signals == 1
  {
    ReachableInv(s, size, iter, n);
    hide Total, Reachable, IndexInv, CountInv;
    TotalBelow(Signalling, Signalling, s.threads);
    TotalAtLeast(Signalling, s.threads, t);
  }

  /** The control block is freed at most once, never while any participant has a step left, and it has
      been freed when all participants are done; participants may start after the caller has returned. */
  lemma ControlBlockIsFreedOnce(s: State, size: nat, iter: nat, n: nat)
    requires Reachable(s, size, iter, n) && iter + n <= size
    ensures s.frees <= 1
    ensures s.frees == 1 <==> forall t :: 0 <= t < |s.threads| ==> s.threads[t].Done?
  {
    ReachableInv(s, size, iter, n);
    hide Total, Reachable, IndexInv, TodoInv, CounterInv, EventInv, PhaseInv;
    TotalBelow(Freeing, Freeing, s.threads);
    forall t | 0 <= t < n && !s.threads[t].Done?
      ensures s.frees == 0
    {
      TotalAtLeast(Freeing, s.threads, t);
      TotalAtLeast(Present, s.threads, t);
    }
    if forall t :: 0 <= t < |s.threads| ==> s.threads[t].Done? {
      assert s.threads == seq(n, i => Done);
      TotalSame(Present, n, Done);
      TotalSame(Freeing, n, Done);
    }
  }

  /** The caller never waits in vain: until everyone is done, somebody can take a step. */
  lemma NeverStuck(s: State, size: nat, iter: nat, n: nat) returns (t: nat)
    requires Reachable(s, size, iter, n) && iter + n <= size
    requires exists u :: 0 <= u < |s.threads| && !s.threads[u].Done?
    ensures Enabled(s, t)
  {
    ReachableInv(s, size, iter, n);
    hide Total, Reachable, IndexInv, CountInv, PhaseInv;
    t :| 0 <= t < n && !s.threads[t].Done?;
    if !Enabled(s, t) {
      assert t == 0 && s.threads[0].Exit? && !s.event.Signalled?;
      TotalAtLeast(Finished, s.threads, 0);
      if s.todo == 0 {
        t := TotalPositive(Signalling, s.threads);
      } else {
        TotalBelow(Work, Work, s.threads);
        t := TotalPositive(Work, s.threads);
      }
    }
  }

  // ---- when the counter wraps ---------------------------------------------------------------

  /** How many steps a participant has still to make if it claims nothing more. */
  function StepsLeft(p: Phase): int {
    match p
    case Start => 11
    case ReadFrame(_) => 10
    case Invoke(_, _) => 9
    case InCall(_, _) => 8
    case Next(_) => 7
    case Report(_) => 6
    case Signal => 5
    case Exit => 4
    case Destroy => 3
    case Leave => 2
    case Free => 1
    case Done => 0
  }

  /** And how many all of them have: each index still to be claimed takes three. */
  function Left(s: State): int { 3 * (s.iter - Claimed(s)) + Total(StepsLeft, s.threads) }

  lemma StepsShorten(s: State, t: nat)
    requires Inv(s) && Enabled(s, t)
    ensures Left(Step(s, t)) < Left(s)
  {
    hide Total, IndexInv, TodoInv, EventInv, CountInv, PhaseInv;
    var s' := Step(s, t);
    TotalUpdate(StepsLeft, s.threads, t, s'.threads[t]);
    assert s'.threads == s.threads[t := s'.threads[t]];
    if Finished(s.threads[t]) == 0 { NoWrap(s, t); }
  }

  /** Every schedule ends: as nobody is stuck until all are done, apply returns after three steps for each
      iteration and eleven for each participant, at most, whatever the order. */
  lemma {:induction false} SchedulesEnd(size: nat, iter: nat, n: nat, schedule: seq<nat>)
    requires 0 < n && 0 < iter && iter + n <= size
    requires Run(Init(size, iter, n), schedule).Some?
    ensures var s := Run(Init(size, iter, n), schedule).value;
            Left(s) >= 0 && |schedule| + Left(s) <= 3 * iter + 11 * n
  {
    hide Total, Inv;
    var s := Run(Init(size, iter, n), schedule).value;
    TotalBelow(StepsLeft, StepsLeft, s.threads);
    InitInv(size, iter, n);
    if schedule == [] {
      TotalSame(StepsLeft, n, Start);
    } else {
      var k := |schedule| - 1;
      SchedulesEnd(size, iter, n, schedule[..k]);
      RunKeepsInv(size, iter, n, schedule[..k]);
      StepsShorten(Run(Init(size, iter, n), schedule[..k]).value, schedule[k]);
    }
  }

  lemma SelfMod(m: nat)
    requires m > 0
    ensures m % m == 0
  {}

  lemma SmallMod(x: nat, m: nat)
    requires x < m
    ensures x % m == x
  {}

  lemma ReachStep(s: State, t: nat, size: nat, iter: nat, n: nat)
    requires Reachable(s, size, iter, n) && s.size > 0 && Enabled(s, t)
    ensures Reachable(Step(s, t), size, iter, n)
  {
    var schedule :| Run(Init(size, iter, n), schedule) == Some(s);
    assert (schedule + [t])[..|schedule|] == schedule;
    assert Run(Init(size, iter, n), schedule + [t]) == Some(Step(s, t));
  }

  /** The caller has run the first `k` iterations before anyone else has started. */
  function Alone(size: nat, iter: nat, n: nat, k: nat): State
    requires 0 < n && 0 < k <= iter < size
  {
    State(size, iter, k, iter, n, Pending, seq(n, i => Start)[0 := Next(k)], k, SerialOrder(k), SerialOrder(k), 0, 0)
  }

  /** The caller has just claimed index `k`. */
  function AboutToCall(size: nat, iter: nat, n: nat, k: nat): State
    requires 0 < n && k < iter < size
  {
    State(size, iter, k + 1, iter, n, Pending, seq(n, i => Start)[0 := Invoke(k, k)], k + 1,
          SerialOrder(k), SerialOrder(k), 0, 0)
  }

  lemma ReachFirst(size: nat, iter: nat, n: nat)
    requires 0 < n && 0 < iter < size
    ensures Reachable(AboutToCall(size, iter, n, 0), size, iter, n)
  {
    var s0 := Init(size, iter, n);
    assert Run(s0, []) == Some(s0);
    assert Reachable(s0, size, iter, n);
    hide Reachable, Run;
    SmallMod(1, size);
    ReachStep(s0, 0, size, iter, n);
    var s1 := Step(s0, 0);
    assert s1 == s0.(index := 1, claims := 1, threads := s0.threads[0 := ReadFrame(0)]);
    ReachStep(s1, 0, size, iter, n);
    assert Step(s1, 0).threads == seq(n, i => Start)[0 := Invoke(0, 0)];
    assert Step(s1, 0) == AboutToCall(size, iter, n, 0);
  }

  lemma {:induction false} ReachAlone(size: nat, iter: nat, n: nat, k: nat)
    requires 0 < n && 0 < k <= iter < size
    ensures Reachable(Alone(size, iter, n, k), size, iter, n)
  {
    hide Reachable;
    if k == 1 {
      ReachFirst(size, iter, n);
    } else {
      ReachAlone(size, iter, n, k - 1);
      var s := Alone(size, iter, n, k - 1);
      ReachStep(s, 0, size, iter, n);
      assert Step(s, 0).threads == seq(n, i => Start)[0 := Invoke(k - 1, k - 1)];
      assert Step(s, 0) == AboutToCall(size, iter, n, k - 1);
    }
    ReachCall(AboutToCall(size, iter, n, k - 1), size, iter, n, k - 1);
  }

  lemma ReachCall(s: State, size: nat, iter: nat, n: nat, k: nat)
    requires 0 < n && k < iter < size && s == AboutToCall(size, iter, n, k) && Reachable(s, size, iter, n)
    ensures Reachable(Alone(size, iter, n, k + 1), size, iter, n)
  {
    hide Reachable;
    assert SerialOrder(k + 1) == SerialOrder(k) + [k];
    ReachStep(s, 0, size, iter, n);
    var s1 := Step(s, 0);
    assert s1 == s.(started := SerialOrder(k + 1), threads := s.threads[0 := InCall(k, k)]);
    ReachStep(s1, 0, size, iter, n);
    assert Step(s1, 0).threads == seq(n, i => Start)[0 := Next(k + 1)];
    assert Step(s1, 0) == Alone(size, iter, n, k + 1);
  }

  /** All iterations are done, and participants 1 to `j` have started and found none left. */
  function Overshot(size: nat, iter: nat, n: nat, j: nat): State
    requires 0 < iter && j < n && iter + j < size
  {
    State(size, iter, (iter + 1 + j) % size, iter, n, Pending,
          seq(n, i => if i == 0 then Report(iter) else if i <= j then Exit else Start), iter + 1 + j,
          SerialOrder(iter), SerialOrder(iter), 0, 0)
  }

  lemma {:induction false} ReachOvershot(size: nat, iter: nat, n: nat, j: nat)
    requires 0 < iter && j < n && iter + j < size
    ensures Reachable(Overshot(size, iter, n, j), size, iter, n)
  {
    hide Reachable;
    if j == 0 {
      ReachAlone(size, iter, n, iter);
      var s := Alone(size, iter, n, iter);
      ReachStep(s, 0, size, iter, n);
      assert Step(s, 0).threads == Overshot(size, iter, n, 0).threads;
      assert Step(s, 0) == Overshot(size, iter, n, 0);
    } else {
      ReachOvershot(size, iter, n, j - 1);
      var s := Overshot(size, iter, n, j - 1);
      assert s.index == iter + j;
      ReachStep(s, j, size, iter, n);
      assert Step(s, j).threads == Overshot(size, iter, n, j).threads;
      assert Step(s, j) == Overshot(size, iter, n, j);
    }
  }

  /** A participant that starts on a counter of 0 calls iteration 0. */
  lemma StartsOver(s: State, t: nat, size: nat, iter: nat, n: nat) returns (s': State)
    requires Reachable(s, size, iter, n) && 0 < t < |s.threads| && s.threads[t].Start?
    requires s.size > 0 && s.index == 0 < s.iter
    ensures Reachable(s', size, iter, n) && s'.started == s.started + [0]
  {
    hide Reachable;
    ReachStep(s, t, size, iter, n);
    var s1 := Step(s, t);
    assert s1.threads[t] == ReadFrame(0) && s1.started == s.started && s1.size == s.size;
    ReachStep(s1, t, size, iter, n);
    var s2 := Step(s1, t);
    assert s2 == Goto(s1, t, Invoke(0, 0));
    ReachStep(s2, t, size, iter, n);
    s' := Step(s2, t);
  }

  /** With more participants than the counter has room for after the range, the counter wraps and
      iteration 0 is called a second time. */
  lemma WrappedCounterRepeats(size: nat, iter: nat, n: nat) returns (s: State)
    requires 0 < iter < size < iter + n
    ensures Reachable(s, size, iter, n) && multiset(s.started)[0] == 2
  {
    hide Reachable;
    var t := size - iter;
    ReachOvershot(size, iter, n, t - 1);
    var s0 := Overshot(size, iter, n, t - 1);
    assert iter + 1 + (t - 1) == size;
    SelfMod(size);
    assert s0.index == 0 && s0.threads[t] == Start && s0.started == SerialOrder(iter);
    hide Overshot;
    s := StartsOver(s0, t, size, iter, n);
    SerialCount(iter, 0);
    CountAppend(SerialOrder(iter), 0, 0);
  }

  /** No schedule calls an index twice exactly when the iterations and the participants together fit
      the counter. */
  lemma ExactlyOnceIffCounterFits(size: nat, iter: nat, n: nat)
    requires 0 < iter < size && 0 < n
    ensures iter + n <= size <==>
            forall s, i: nat :: Reachable(s, size, iter, n) ==> multiset(s.started)[i] <= 1
  {
    if iter + n <= size {
      forall s, i: nat | Reachable(s, size, iter, n)
        ensures multiset(s.started)[i] <= 1
      {
        NoIndexTwice(s, size, iter, n, i);
      }
    } else {
      var s := WrappedCounterRepeats(size, iter, n);
    }
  }
}
