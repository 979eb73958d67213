/** Readers, applies, drainers and barriers sharing one dq_state word.  Every read-modify-write loop that
    succeeds is one step; attempts that fail change nothing.  The parties are the work items in flight;
    the drainer, or the thread whose barrier runs, holds the drain lock. */
module WidthProtocol {
  import opened WidthLock
  import opened Options

  /** `owned` counts intervals; a drainer in a barrier owns the whole width.  `stalled`: the item at the
      head is a barrier that could not start, so the drainer has set PENDING and owns nothing.  It may try
      again, unlock, or requeue the queue. */
  datatype Drain = Nobody | Drainer(owned: nat, barrier: bool, stalled: bool)

  datatype Sys = Sys(f: DqState, w: nat, holds: seq<nat>, drain: Drain)

  function Init(w: nat, n: nat): Sys
    requires w <= FULL
  {
    Sys(Idle(w), w, seq(n, i => 0), Nobody)
  }

  function Sum(h: seq<nat>): nat {
    if h == [] then 0 else Sum(h[..|h| - 1]) + h[|h| - 1]
  }

  lemma {:induction false} SumUpdate(h: seq<nat>, p: nat, x: nat)
    requires p < |h|
    ensures Sum(h[p := x]) == Sum(h) - h[p] + x && h[p] <= Sum(h)
  {
    var k := |h| - 1;
    if p < k {
      SumUpdate(h[..k], p, x);
      assert h[p := x][..k] == h[..k][p := x];
    } else {
      assert h[p := x][..k] == h[..k];
    }
  }

  lemma {:induction false} SumZeros(n: nat)
    ensures Sum(seq(n, i => 0)) == 0
  {
    if n > 0 {
      SumZeros(n - 1);
      assert seq(n, i => 0)[..n - 1] == seq(n - 1, i => 0);
    }
  }

  function DrainOwned(d: Drain): nat { if d.Drainer? then d.owned else 0 }

  /** Width in use by anybody. */
  function InUse(s: Sys): nat { Sum(s.holds) + DrainOwned(s.drain) }

  datatype Label =
    | Async(p: nat)                     // _dispatch_queue_try_acquire_async for item p
    | Sync(p: nat)                      // _dispatch_queue_try_reserve_sync_width for item p
    | Apply(p: nat, want: nat)          // _dispatch_queue_try_reserve_apply_width
    | GiveBack(p: nat, k: nat)          // _dispatch_queue_relinquish_width
    | Finished(p: nat, tid: nat)        // _dispatch_lane_non_barrier_complete
    | Lock(tid: nat)                    // _dispatch_queue_drain_try_lock
    | Barrier(tid: nat)                 // _dispatch_queue_try_acquire_barrier_sync
    | TryUpgrade                        // _dispatch_queue_try_upgrade_full_width
    | Downgrade                         // the drainer leaves the barrier and keeps the width
    | Redirect(p: nat)                  // one interval moves from the drainer to item p
    | DrainAsync                        // the drainer, out of width, takes one for a work item
    | DrainSync                         // the drainer takes one for a waiting reader, unconditionally
    | Release(enq: nat, done: bool)     // _dispatch_queue_drain_try_unlock
    | Requeue(enq: nat, next: bool)     // _dispatch_queue_invoke_finish; `next`: stopped at a barrier
    | Claim(g: DqState, tid: nat)       // _dispatch_lane_resume or _dispatch_lane_push_waiter takes the lock
    | Transfer(tid: nat, enq: nat)      // _dispatch_lane_drain_barrier_waiter
    | BarrierDone(re: bool, qos: nat)   // _dispatch_lane_class_barrier_complete
    | NonBarriers(stop: Stop, tid: nat) // the end of _dispatch_lane_drain_non_barriers
    | Outside(g: DqState)               // others touch bits that are not about width

  predicate SameLock(f: DqState, g: DqState) {
    g.inBarrier == f.inBarrier && g.width == f.width && g.pending == f.pending && g.owner == f.owner
  }

  predicate Plain(d: Drain) { d.Drainer? && !d.barrier && !d.stalled }

  predicate Enabled(s: Sys, l: Label)
    requires WellFormed(s.f) && s.w <= FULL
  {
    match l
    case Async(p) => p < |s.holds| && AcquireAsync(s.f).Some?
    case Sync(p) => p < |s.holds| && ReserveSync(s.f).Some?
    case Apply(p, want) => p < |s.holds|
    case GiveBack(p, k) => p < |s.holds| && k <= s.holds[p] && k <= s.f.width
    case Finished(p, tid) => p < |s.holds| && 0 < s.holds[p] && 0 < s.f.width && 0 < tid < 0x4000_0000
    case Lock(tid) => CanDrainLock(s.f) && 0 < tid < 0x4000_0000
    case Barrier(tid) => CanBarrierSync(s.f, s.w) && 0 < tid < 0x4000_0000
    case TryUpgrade => s.drain.Drainer? && !s.drain.barrier && s.drain.owned <= s.f.width && 0 < s.w
    case Downgrade => s.drain.Drainer? && s.drain.barrier
    case Redirect(p) => p < |s.holds| && Plain(s.drain) && s.drain.owned > 0
    case DrainAsync => Plain(s.drain) && s.drain.owned == 0 && AcquireAsync(s.f).Some?
    case DrainSync => Plain(s.drain) && s.drain.owned == 0
    case Release(enq, _) => s.drain.Drainer? && s.drain.owned <= s.f.width && enq <= LowBit(s.f.bits)
    case Requeue(enq, _) => s.drain.Drainer? && s.drain.owned <= s.f.width && 0 < s.w && enq <= LowBit(s.f.bits)
    case Claim(g, tid) => WellFormed(g) && SameLock(s.f, g) && CanTakeBarrier(g, s.w) && 0 < tid < 0x4000_0000
    case Transfer(tid, enq) => s.drain.Drainer? && s.drain.barrier && 0 < tid < 0x4000_0000 && enq <= LowBit(s.f.bits)
    case BarrierDone(_, qos) => s.drain.Drainer? && s.drain.barrier && s.w <= s.f.width && qos < 8
    case NonBarriers(_, tid) => Plain(s.drain) && s.drain.owned <= s.f.width && 0 < s.w && 0 < tid < 0x4000_0000
    case Outside(g) => WellFormed(g) && SameLock(s.f, g)
  }

  function Take(s: Sys, f: DqState, p: nat, k: nat): Sys
    requires p < |s.holds|
  {
    s.(f := f, holds := s.holds[p := s.holds[p] + k])
  }

  function Step(s: Sys, l: Label): Sys
    requires WellFormed(s.f) && s.w <= FULL && Enabled(s, l)
  {
    match l
    case Async(p) => Take(s, AcquireAsync(s.f).value, p, 1)
    case Sync(p) => Take(s, ReserveSync(s.f).value, p, 1)
    case Apply(p, want) =>
      var k := ApplyGrant(s.f, s.w, want);
      Take(s, AddWidth(s.f, k), p, k)
    case GiveBack(p, k) => s.(f := s.f.(width := s.f.width - k), holds := s.holds[p := s.holds[p] - k])
    case Finished(p, tid) =>
      var g := Complete(s.f, s.w, tid);
      s.(f := g, holds := s.holds[p := s.holds[p] - 1],
         drain := if s.f.owner == 0 && g.owner != 0 then Drainer(s.w, true, false) else s.drain)
    case Lock(tid) =>
      var g := DrainLock(s.f, s.w, tid);
      s.(f := g, drain := if g.inBarrier then Drainer(s.w, true, false) else Drainer(FULL - s.f.width, false, false))
    case Barrier(tid) => s.(f := BarrierSync(s.f, tid), drain := Drainer(s.w, true, false))
    case TryUpgrade =>
      var g := Upgrade(s.f, s.w, s.drain.owned);
      s.(f := g, drain := if g.inBarrier then Drainer(s.w, true, false) else Drainer(0, false, true))
    case Downgrade => s.(f := s.f.(inBarrier := !s.f.inBarrier), drain := Drainer(s.w, false, false))
    case Redirect(p) => s.(holds := s.holds[p := s.holds[p] + 1], drain := s.drain.(owned := s.drain.owned - 1))
    case DrainAsync => s.(f := AcquireAsync(s.f).value, drain := s.drain.(owned := 1))
    case DrainSync => s.(f := AddWidth(s.f, 1), drain := s.drain.(owned := 1))
    case Release(enq, done) =>
      if UnlockRenews(s.f) then s.(f := s.f.(dirty := false))
      else s.(f := Unlock(s.f, s.drain.owned, s.drain.barrier, enq, done), drain := Nobody)
    case Requeue(enq, next) =>
      s.(f := Finish(s.f, s.w, s.drain.owned, s.drain.barrier, enq, next), drain := Nobody)
    case Claim(g, tid) => s.(f := TakeBarrier(g, s.w, tid), drain := Drainer(s.w, true, false))
    case Transfer(tid, enq) => s.(f := HandOver(s.f, tid, enq))
    case BarrierDone(re, qos) =>
      s.(f := BarrierComplete(s.f, s.w, re, MergeQos(s.f.mid, qos)),
         drain := if UnlockRenews(s.f) && !re then s.drain else Nobody)
    case NonBarriers(stop, tid) =>
      var g := NonBarriersDone(s.f, s.w, s.drain.owned, stop, tid);
      s.(f := g, drain := if stop.NoItem? && s.f.dirty then s.drain
                          else if g.owner != 0 then Drainer(s.w, true, false) else Nobody)
    case Outside(g) => s.(f := g)
  }

  // ---- the invariant ------------------------------------------------------------------------

  ghost predicate Inv(s: Sys) {
    && 0 < s.w <= WIDTH_MAX && WellFormed(s.f)
    && (s.f.owner != 0 <==> s.drain.Drainer?)
    && (s.f.inBarrier <==> s.drain.Drainer? && s.drain.barrier)
    && (s.f.inBarrier ==> s.f.width == FULL && Sum(s.holds) == 0 && !s.f.pending && s.drain.owned == s.w)
    && (!s.f.inBarrier ==> s.f.width + s.w == FULL + InUse(s) + if s.f.pending then s.w - 1 else 0)
    && (s.f.pending && s.drain.Drainer? ==> s.drain.stalled)
    && (s.drain.Drainer? && s.drain.stalled ==> s.f.pending && s.drain.owned == 0 && !s.drain.barrier)
  }

  /** What a second reservation leaves behind: 2 * w - 1 intervals that count as used and nobody holds. */
  ghost predicate Leaked(s: Sys) {
    && 1 < s.w <= WIDTH_MAX && WellFormed(s.f) && s.drain.Nobody? && s.f.owner == 0
    && !s.f.inBarrier && !s.f.pending && s.f.width + s.w == FULL + Sum(s.holds) + 2 * s.w - 1
  }

  /** The width is accounted for, or leaked. */
  ghost predicate Account(s: Sys) { Inv(s) || Leaked(s) }

  /** No addition of the step carries out of the width field. */
  predicate NoCarry(s: Sys, l: Label) {
    match l
    case Sync(_) => s.f.width + 1 < FIELD
    case DrainSync => s.f.width + 1 < FIELD
    case TryUpgrade => s.f.pending || Kept(s) < FIELD
    case Requeue(_, next) => next && s.w > 1 ==> Kept(s) + (if s.f.pending then 1 else 0) < FIELD
    case NonBarriers(stop, _) => stop.NextBarrier? && s.w > 1 ==> Kept(s) < FIELD
    case _ => true
  }

  /** A drainer that requeues in front of a barrier has reserved width for it before. */
  predicate ReservesTwice(s: Sys, l: Label) { l.Requeue? && l.next && s.w > 1 && s.f.pending }

  predicate Careful(s: Sys, l: Label) { NoCarry(s, l) && !ReservesTwice(s, l) }

  /** The width field after the drainer's part is given back and all but one interval is reserved. */
  function Kept(s: Sys): int { s.f.width - DrainOwned(s.drain) + s.w - 1 }

  lemma InitInv(w: nat, n: nat)
    requires 0 < w <= WIDTH_MAX
    ensures Inv(Init(w, n))
  {
    SumZeros(n);
  }

  /** Fewer parties than the counter has room for never make it carry. */
  lemma FewAreCareful(s: Sys, l: Label)
    requires Inv(s) && Enabled(s, l) && InUse(s) < FULL
    ensures Careful(s, l) || ReservesTwice(s, l)
    ensures InUse(s) + s.w <= FULL ==> NoCarry(s, l)
  {
    hide Sum;
  }

  lemma AcquireKeepsInv(s: Sys, l: Label)
    requires Inv(s) && Enabled(s, l) && (l.Async? || l.Sync? || l.Apply?)
    ensures Inv(Step(s, l)) <==> Careful(s, l)
  {
    hide Sum;
    var k := if l.Apply? then ApplyGrant(s.f, s.w, l.want) else 1;
    SumUpdate(s.holds, l.p, s.holds[l.p] + k);
  }

  lemma GiveBackKeepsInv(s: Sys, l: Label)
    requires Inv(s) && Enabled(s, l) && l.GiveBack?
    ensures Inv(Step(s, l))
  {
    hide Sum;
    SumUpdate(s.holds, l.p, s.holds[l.p] - l.k);
  }

  lemma FinishedKeepsInv(s: Sys, l: Label)
    requires Inv(s) && Enabled(s, l) && l.Finished?
    ensures Inv(Step(s, l))
  {
    hide Sum;
    SumUpdate(s.holds, l.p, s.holds[l.p] - 1);
  }

  lemma LockKeepsInv(s: Sys, l: Label)
    requires Inv(s) && Enabled(s, l) && (l.Lock? || l.Barrier? || l.Claim?)
    ensures Inv(Step(s, l))
  {
    hide Sum;
  }

  lemma UpgradeKeepsInv(s: Sys)
    requires Inv(s) && Enabled(s, TryUpgrade)
    ensures Inv(Step(s, TryUpgrade)) <==> Careful(s, TryUpgrade)
  {
    hide Sum;
  }

  lemma DrainerKeepsInv(s: Sys, l: Label)
    requires Inv(s) && Enabled(s, l)
    requires l.Downgrade? || l.Redirect? || l.DrainAsync? || l.DrainSync?
    ensures Inv(Step(s, l)) <==> Careful(s, l)
  {
    hide Sum;
    if l.Redirect? { SumUpdate(s.holds, l.p, s.holds[l.p] + 1); }
  }

  lemma UnlockKeepsInv(s: Sys, l: Label)
    requires Inv(s) && Enabled(s, l) && (l.Release? || l.Outside?)
    ensures Inv(Step(s, l))
  {
    hide Sum, AddWidth;
  }

  lemma BarrierEndKeepsInv(s: Sys, l: Label)
    requires Inv(s) && Enabled(s, l) && (l.Transfer? || l.BarrierDone?)
    ensures Inv(Step(s, l))
  {
    hide Sum, AddWidth;
  }

  /** A drainer that requeues keeps the account right if and only if the queue is not pending already when
      a barrier comes next (or has width 1), and the counter does not carry. */
  lemma RequeueKeepsInv(s: Sys, l: Label)
    requires Inv(s) && Enabled(s, l) && l.Requeue?
    ensures Inv(Step(s, l)) <==> Careful(s, l)
  {
    hide Sum;
  }

  /** The attempt to take the barrier succeeds exactly if the interval or the width it adds makes FULL. */
  lemma TryLockOutcome(g: DqState, dirty: bool, w: nat, tid: nat)
    requires g.width < FIELD && !g.inBarrier && g.owner == 0 && 0 < w <= WIDTH_MAX
    ensures var r := CompleteTryLock(g, dirty, w, tid);
            if g.width + (if g.pending then 1 else w) == FULL
            then r == g.(width := FULL, inBarrier := true, pending := false, dirty := false, owner := tid)
            else r == g.(bits := r.bits) && (WellFormed(g) ==> r.bits < 4)
  {}

  lemma NonBarriersKeepsInv(s: Sys, l: Label)
    requires Inv(s) && Enabled(s, l) && l.NonBarriers?
    ensures Inv(Step(s, l)) <==> Careful(s, l)
  {
    hide Sum, CompleteTryLock;
    if !l.stop.NoItem? {
      var r := Released(GivenBack(s.f, s.w, s.drain.owned, false, 0, l.stop.NextBarrier?)).(dirty := true);
      if !r.inBarrier { TryLockOutcome(r, s.f.dirty, s.w, l.tid); } else { CarriedStays(r, s.f.dirty, s.w, l.tid); }
    }
  }

  lemma CarriedStays(g: DqState, dirty: bool, w: nat, tid: nat)
    requires g.width + 1 < FULL && g.pending && g.inBarrier && g.owner == 0 && 0 < w <= WIDTH_MAX
    ensures CompleteTryLock(g, dirty, w, tid).inBarrier
  {}

  /** Every operation keeps the account of who holds how much width exactly when it is careful. */
  lemma StepKeepsInv(s: Sys, l: Label)
    requires Inv(s) && Enabled(s, l)
    ensures Inv(Step(s, l)) <==> Careful(s, l)
    ensures Step(s, l).w == s.w
  {
    hide Inv;
    match l
    case Async(_) => AcquireKeepsInv(s, l);
    case Sync(_) => AcquireKeepsInv(s, l);
    case Apply(_, _) => AcquireKeepsInv(s, l);
    case GiveBack(_, _) => GiveBackKeepsInv(s, l);
    case Finished(_, _) => FinishedKeepsInv(s, l);
    case Lock(_) => LockKeepsInv(s, l);
    case Barrier(_) => LockKeepsInv(s, l);
    case Claim(_, _) => LockKeepsInv(s, l);
    case TryUpgrade => UpgradeKeepsInv(s);
    case Downgrade => DrainerKeepsInv(s, l);
    case Redirect(_) => DrainerKeepsInv(s, l);
    case DrainAsync => DrainerKeepsInv(s, l);
    case DrainSync => DrainerKeepsInv(s, l);
    case Release(_, _) => UnlockKeepsInv(s, l);
    case Outside(_) => UnlockKeepsInv(s, l);
    case Requeue(_, _) => RequeueKeepsInv(s, l);
    case NonBarriers(_, _) => NonBarriersKeepsInv(s, l);
    case Transfer(_, _) => BarrierEndKeepsInv(s, l);
    case BarrierDone(_, _) => BarrierEndKeepsInv(s, l);
  }

  // ---- what a second reservation does -------------------------------------------------------

  /** Requeueing in front of a barrier that width is reserved for already adds PENDING to itself: the flag
      goes, and the queue counts 2 * w - 1 more in use than anybody holds. */
  lemma DoubleReservationLeaks(s: Sys, l: Label)
    requires Inv(s) && Enabled(s, l) && ReservesTwice(s, l)
    ensures Leaked(Step(s, l)) <==> NoCarry(s, l)
    ensures NoCarry(s, l) ==> var t := Step(s, l); Used(t.f, t.w) == InUse(t) + 2 * t.w - 1
  {
    hide Sum;
  }

  lemma CarryIsNoLeak(s: Sys, l: Label)
    requires Inv(s) && Enabled(s, l) && !NoCarry(s, l)
    ensures !Leaked(Step(s, l)) && Step(s, l).w == s.w
  {
    hide Sum, CompleteTryLock;
    if l.NonBarriers? {
      var r := Released(GivenBack(s.f, s.w, s.drain.owned, false, 0, true)).(dirty := true);
      CarriedStays(r, s.f.dirty, s.w, l.tid);
    }
  }

  /** A leak stays, and with it the queue gets no drainer, barrier or async, unless the counter carries. */
  lemma LeakedStays(s: Sys, l: Label)
    requires Leaked(s) && Enabled(s, l)
    ensures Leaked(Step(s, l)) <==> NoCarry(s, l)
    ensures !NoCarry(s, l) ==> !Inv(Step(s, l))
    ensures Step(s, l).w == s.w && !l.Lock? && !l.Barrier? && !l.Claim? && !l.Async?
  {
    hide Sum;
    if l.Sync? || l.Apply? || l.GiveBack? || l.Finished? {
      SumUpdate(s.holds, l.p, Step(s, l).holds[l.p]);
    }
  }

  /** Width is accounted for or leaked after a step exactly if the step does not carry. */
  lemma StepKeepsAccount(s: Sys, l: Label)
    requires Account(s) && Possible(s, l)
    ensures Account(Step(s, l)) <==> NoCarry(s, l)
    ensures Step(s, l).w == s.w
  {
    hide Inv, Leaked, NoCarry, Step, Enabled;
    if Leaked(s) {
      LeakedStays(s, l);
    } else {
      StepKeepsInv(s, l);
      if ReservesTwice(s, l) { DoubleReservationLeaks(s, l); }
      if !NoCarry(s, l) { CarryIsNoLeak(s, l); }
    }
  }

  // ---- whole runs ---------------------------------------------------------------------------

  predicate Possible(s: Sys, l: Label) { WellFormed(s.f) && s.w <= FULL && Enabled(s, l) }

  /** What is asked of the steps of a run. */
  datatype Care = Anything | NoneCarries | AllCareful

  predicate Meets(s: Sys, l: Label, care: Care) {
    match care
    case Anything => true
    case NoneCarries => NoCarry(s, l)
    case AllCareful => Careful(s, l)
  }

  /** Any interleaving of the steps. */
  ghost predicate Run(s: Sys, ls: seq<Label>, t: Sys, care: Care)
    decreases |ls|
  {
    if |ls| == 0 then t == s
    else
      var k := |ls| - 1;
      exists m :: Run(s, ls[..k], m, care) && Possible(m, ls[k]) && Meets(m, ls[k], care) && t == Step(m, ls[k])
  }

  lemma {:induction false} RunKeepsInv(s: Sys, ls: seq<Label>, t: Sys)
    requires Inv(s) && Run(s, ls, t, AllCareful)
    ensures Inv(t) && t.w == s.w
    decreases |ls|
  {
    hide Inv, Careful, Step, Enabled;
    if |ls| > 0 {
      var k := |ls| - 1;
      var m :| Run(s, ls[..k], m, AllCareful) && Possible(m, ls[k]) && Meets(m, ls[k], AllCareful)
               && t == Step(m, ls[k]);
      RunKeepsInv(s, ls[..k], m);
      StepKeepsInv(m, ls[k]);
    }
  }

  lemma {:induction false} RunKeepsAccount(s: Sys, ls: seq<Label>, t: Sys)
    requires Account(s) && Run(s, ls, t, NoneCarries)
    ensures Account(t) && t.w == s.w
    decreases |ls|
  {
    hide Account, NoCarry, Step, Enabled;
    if |ls| > 0 {
      var k := |ls| - 1;
      var m :| Run(s, ls[..k], m, NoneCarries) && Possible(m, ls[k]) && Meets(m, ls[k], NoneCarries)
               && t == Step(m, ls[k]);
      RunKeepsAccount(s, ls[..k], m);
      StepKeepsAccount(m, ls[k]);
    }
  }

  lemma RunStep(s: Sys, ls: seq<Label>, m: Sys, l: Label)
    requires Run(s, ls, m, Anything) && Possible(m, l)
    ensures Run(s, ls + [l], Step(m, l), Anything)
  {
    hide Step, Enabled, Careful;
    assert (ls + [l])[..|ls|] == ls && (ls + [l])[|ls|] == l;
  }

  lemma {:induction false} SumCovers(h: seq<nat>, p: nat)
    requires p < |h|
    ensures Sum(h) >= h[p]
  {
    SumUpdate(h, p, 0);
  }

  /** A barrier runs alone, in every run in which no addition carries: nobody else holds width, the drainer
      has all of it, and nobody gets any. */
  lemma BarrierExcludes(w: nat, n: nat, ls: seq<Label>, t: Sys, want: nat, p: nat)
    requires 0 < w <= WIDTH_MAX && Run(Init(w, n), ls, t, NoneCarries)
    ensures WellFormed(t.f) && (t.f.inBarrier ==> t.drain.Drainer? && t.drain.barrier && t.drain.owned == w)
    ensures t.f.inBarrier && p < |t.holds| ==> t.holds[p] == 0
    ensures t.f.inBarrier ==> AcquireAsync(t.f).None? && ReserveSync(t.f).None?
    ensures t.f.inBarrier ==> ApplyGrant(t.f, w, want) == 0 && !CanDrainLock(t.f) && !CanBarrierSync(t.f, w)
  {
    hide Sum, Run;
    InitInv(w, n);
    RunKeepsAccount(Init(w, n), ls, t);
    if p < |t.holds| { SumCovers(t.holds, p); }
  }

  /** Outside barriers the word counts the width in use exactly; a pending barrier takes all but the last
      interval, so that the last reader's release is what makes the queue runnable again. */
  lemma WidthIsCounted(w: nat, n: nat, ls: seq<Label>, t: Sys)
    requires 0 < w <= WIDTH_MAX && Run(Init(w, n), ls, t, AllCareful) && !t.f.inBarrier
    ensures Used(t.f, w) == InUse(t)
    ensures !t.f.pending ==> Available(t.f) == if InUse(t) < w then w - InUse(t) else 0
    ensures t.f.pending ==> (t.f.width < FULL <==> InUse(t) == 0)
  {
    hide Sum, Run;
    InitInv(w, n);
    RunKeepsInv(Init(w, n), ls, t);
  }

  /** In every run in which no addition carries, width outside barriers is counted, or a second reservation
      has leaked 2 * w - 1 intervals. */
  lemma WidthIsCountedOrLeaked(w: nat, n: nat, ls: seq<Label>, t: Sys)
    requires 0 < w <= WIDTH_MAX && Run(Init(w, n), ls, t, NoneCarries) && !t.f.inBarrier
    ensures Used(t.f, w) == InUse(t) + if Leaked(t) then 2 * w - 1 else 0
  {
    hide Sum, Run;
    InitInv(w, n);
    RunKeepsAccount(Init(w, n), ls, t);
  }

  /** Who gets width, in terms of what is in use: asyncs while there is some left, readers always unless a
      barrier runs or is next, applies as much as is left. */
  lemma WhoGetsWidth(s: Sys, want: nat)
    requires Inv(s)
    ensures AcquireAsync(s.f).Some? <==>
            s.f.susp == 0 && !s.f.inBarrier && !s.f.pending && !s.f.dirty && InUse(s) < s.w
    ensures ReserveSync(s.f).Some? <==> s.f.susp == 0 && !s.f.inBarrier && !s.f.pending && !s.f.dirty
    ensures !s.f.inBarrier && !s.f.pending && s.w > 1 ==>
            ApplyGrant(s.f, s.w, want)
            == if InUse(s) + want <= s.w then want else if InUse(s) < s.w then s.w - InUse(s) else 0
  {
    hide Sum;
  }

  /** A drain lock, an upgrade or the last reader's release starts a barrier if and only if nobody else
      holds width (and the queue is not suspended, and for the release, nobody drains it). */
  lemma BarriersStartExactlyWhenAlone(s: Sys, l: Label)
    requires Inv(s) && Careful(s, l) && Enabled(s, l)
    ensures l.Lock? ==> (Step(s, l).f.inBarrier <==> Sum(s.holds) == 0)
    ensures l.TryUpgrade? ==> (Step(s, l).f.inBarrier <==> Sum(s.holds) == 0 && s.f.susp == 0)
    ensures l.Finished? ==> (Step(s, l).f.inBarrier <==> Sum(s.holds) == 1 && s.f.susp == 0 && s.f.owner == 0)
  {
    hide Sum;
    if l.Finished? { SumUpdate(s.holds, l.p, s.holds[l.p] - 1); }
  }

  /** Applies, asyncs and drain locks never use more than the queue's width; only readers do, who
      reserve without looking. */
  lemma OnlyReadersOvercommit(s: Sys, l: Label)
    requires Inv(s) && Careful(s, l) && Enabled(s, l) && InUse(s) <= s.w
    requires !l.Sync? && !l.DrainSync?
    ensures InUse(Step(s, l)) <= s.w
  {
    hide Sum, CompleteTryLock, Reserve, AddWidth;
    StepKeepsInv(s, l);
    if l.Async? || l.Apply? || l.GiveBack? || l.Finished? || l.Redirect? {
      SumUpdate(s.holds, l.p, Step(s, l).holds[l.p]);
    }
  }

  /** Readers that overcommit are let in as long as the counter does not carry, and no longer. */
  lemma ReaderIsSafeIffItFits(s: Sys, p: nat)
    requires Inv(s) && Enabled(s, Sync(p))
    ensures Inv(Step(s, Sync(p))) <==> s.f.width + 1 < FIELD
  {
    hide Sum;
    SumUpdate(s.holds, p, s.holds[p] + 1);
  }

  /** The first `k` of `n` readers have reserved on an otherwise idle queue. */
  function Readers(w: nat, n: nat, k: nat): Sys
    requires w <= FULL
  {
    Sys(Idle(w).(width := FULL - w + k), w, seq(n, i => if i < k then 1 else 0), Nobody)
  }

  lemma {:induction false} ReachReaders(w: nat, n: nat, k: nat) returns (ls: seq<Label>)
    requires 0 < w <= WIDTH_MAX && k <= n && FULL - w + k < FIELD
    ensures Run(Init(w, n), ls, Readers(w, n, k), Anything)
  {
    hide Run;
    if k == 0 {
      ls := [];
      assert Readers(w, n, 0).holds == Init(w, n).holds;
      RunNothing(Init(w, n));
    } else {
      ls := ReachReaders(w, n, k - 1);
      var s := Readers(w, n, k - 1);
      RunStep(Init(w, n), ls, s, Sync(k - 1));
      assert Step(s, Sync(k - 1)).holds == Readers(w, n, k).holds;
      assert Step(s, Sync(k - 1)) == Readers(w, n, k);
      ls := ls + [Sync(k - 1)];
    }
  }

  lemma RunNothing(s: Sys)
    ensures Run(s, [], s, Anything)
  {}

  /** With enough readers the counter carries: on a queue of any width, FULL + w readers that reserve one
      after the other put it into a barrier that nobody asked for, while all of them hold width. */
  lemma CarryBreaksExclusion(w: nat, n: nat) returns (ls: seq<Label>, t: Sys)
    requires 0 < w <= WIDTH_MAX && FULL + w <= n
    ensures Run(Init(w, n), ls, t, Anything)
    ensures t.f.inBarrier && t.drain.Nobody? && |t.holds| == n && forall i :: 0 <= i < FULL + w ==> t.holds[i] == 1
  {
    hide Run;
    var k := FULL + w - 1;
    ls := ReachReaders(w, n, k);
    var s := Readers(w, n, k);
    RunStep(Init(w, n), ls, s, Sync(k));
    t := Step(s, Sync(k));
    ls := ls + [Sync(k)];
  }

  /** A run that gets there: a reader is in; the queue is enqueued, and its drainer locks and fails to start
      a barrier; the reader finishes; the unlock only renews the lock; the queue is suspended, requeued, and
      resumed. */
  function StallingLabel(w: nat, k: nat): Label
    requires 0 < w <= FULL
  {
    if k == 0 then Sync(0) else if k == 2 then Lock(1) else if k == 3 then TryUpgrade
    else if k == 4 then Finished(0, 2) else if k == 5 then Release(1, false)
    else if k == 7 then Requeue(1, true) else Outside(Stalling(w, k + 1).f)
  }

  /** The state after `k` of these steps. */
  function Stalling(w: nat, k: nat): Sys
    requires 0 < w <= FULL
  {
    Sys(Idle(w).(
          width := if k == 0 then FULL - w else if k <= 2 then FULL - w + 1 else if k <= 4 then FULL
                   else if k <= 7 then FULL - 1 else FULL - 1 + w,
          owner := if 3 <= k <= 7 then 1 else 0, pending := 4 <= k <= 7, dirty := k == 2 || k == 5 || k >= 8,
          susp := if 7 <= k <= 8 then 8 else 0, bits := if 2 <= k <= 7 then 1 else 0),
        w, [if 1 <= k <= 4 then 1 else 0],
        if k == 3 then Drainer(w - 1, false, false) else if 4 <= k <= 7 then Drainer(0, false, true) else Nobody)
  }

  lemma StallingStep(w: nat, k: nat)
    requires 1 < w <= WIDTH_MAX && k < 9
    ensures Possible(Stalling(w, k), StallingLabel(w, k))
    ensures Step(Stalling(w, k), StallingLabel(w, k)) == Stalling(w, k + 1)
  {
    hide Possible, Step, Stalling, StallingLabel;
    if k < 5 { StallingBegins(w, k); } else { StallingEnds(w, k); }
  }

  lemma StallingBegins(w: nat, k: nat)
    requires 1 < w <= WIDTH_MAX && k < 5
    ensures Possible(Stalling(w, k), StallingLabel(w, k))
    ensures Step(Stalling(w, k), StallingLabel(w, k)) == Stalling(w, k + 1)
  {
    hide CompleteTryLock, Finish, Unlock, NonBarriersDone, BarrierComplete;
    if k == 0 {} else if k == 1 {} else if k == 2 {} else if k == 3 {} else {}
  }

  lemma StallingEnds(w: nat, k: nat)
    requires 1 < w <= WIDTH_MAX && 5 <= k < 9
    ensures Possible(Stalling(w, k), StallingLabel(w, k))
    ensures Step(Stalling(w, k), StallingLabel(w, k)) == Stalling(w, k + 1)
  {
    hide CompleteTryLock, Upgrade, DrainLock, NonBarriersDone, BarrierComplete;
    if k == 5 {} else if k == 6 {} else if k == 7 {} else {}
  }

  lemma {:induction false} RunStalling(w: nat, k: nat) returns (ls: seq<Label>)
    requires 1 < w <= WIDTH_MAX && k <= 9
    ensures Run(Init(w, 1), ls, Stalling(w, k), Anything)
  {
    hide Run, Step, Enabled, StallingLabel;
    if k == 0 {
      ls := [];
      RunNothing(Init(w, 1));
      assert Stalling(w, 0) == Init(w, 1);
    } else {
      ls := RunStalling(w, k - 1);
      StallingStep(w, k - 1);
      RunStep(Init(w, 1), ls, Stalling(w, k - 1), StallingLabel(w, k - 1));
      ls := ls + [StallingLabel(w, k - 1)];
    }
  }

  /** At its end nobody holds width or the lock, and yet 2 * w - 1 intervals count as used. */
  lemma DoubleReservationHappens(w: nat) returns (ls: seq<Label>, t: Sys)
    requires 1 < w <= WIDTH_MAX
    ensures Run(Init(w, 1), ls, t, Anything) && Leaked(t)
    ensures t.holds == [0] && t.f.susp == 0 && Used(t.f, w) == 2 * w - 1
  {
    hide Run;
    ls := RunStalling(w, 9);
    t := Stalling(w, 9);
    SumZeros(1);
    assert t.holds == seq(1, i => 0);
  }

  /** The leak never heals: unless the counter carries, the queue gets no drainer, barrier or async again. */
  lemma {:induction false} LeakedForever(s: Sys, ls: seq<Label>, t: Sys)
    requires Leaked(s) && Run(s, ls, t, NoneCarries)
    ensures Leaked(t) && !Runnable(t.f) && forall l :: l in ls ==> !l.Lock? && !l.Barrier? && !l.Claim? && !l.Async?
    decreases |ls|
  {
    hide NoCarry, Step, Enabled, Sum;
    if |ls| > 0 {
      var k := |ls| - 1;
      var m :| Run(s, ls[..k], m, NoneCarries) && Possible(m, ls[k]) && Meets(m, ls[k], NoneCarries)
               && t == Step(m, ls[k]);
      LeakedForever(s, ls[..k], m);
      LeakedStays(m, ls[k]);
      assert ls == ls[..k] + [ls[k]];
    }
  }
}
