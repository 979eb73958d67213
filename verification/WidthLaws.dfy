/** What the operations on dq_state do with the bits that are not about width: no news is lost, the queue is
    put on its target exactly when it must be, and no operation touches what is not its business. */
module WidthLaws {
  import opened WidthLock
  import opened WidthProtocol

  predicate Unlocking(l: Label) { l.Release? || l.Requeue? || l.BarrierDone? || l.NonBarriers? }

  predicate Enqueued(f: DqState) { LowBit(f.bits) == 1 }

  lemma LowBits(b: nat, enq: nat)
    ensures LowBit(b) < 2 && LowBit(LowBit(b)) == LowBit(b) == LowBit(LowBit(b) + 2)
    ensures enq <= LowBit(b) ==> LowBit(b - enq) == LowBit(b) - enq == LowBit(LowBit(b) - enq)
    ensures LowBit(WithLowBit(b)) == LowBit(WithLowBit(LowBit(b))) == 1 == LowBit(1) && LowBit(0) == LowBit(2) == 0
    ensures LowBit(b) == 0 || LowBit(b) == 1
  {}

  /** The step ends with its thread holding the lock, which it did not hold before. */
  predicate Locks(s: Sys, l: Label)
    requires Possible(s, l)
  {
    l.Lock? || l.Barrier? || l.Claim? || l.Transfer?
    || (l.Finished? && s.f.owner == 0 && Step(s, l).f.owner != 0)
    || (l.NonBarriers? && !l.stop.NoItem? && Step(s, l).f.owner != 0)
  }

  /** The drainer unlocks: it does not keep the lock to look at the queue again. */
  predicate Unlocks(s: Sys, l: Label)
    requires Possible(s, l)
  {
    l.Requeue? || (l.Release? && !(s.f.susp == 0 && s.f.dirty))
    || (l.BarrierDone? && (l.re || s.f.susp != 0 || !s.f.dirty))
    || (l.NonBarriers? && (if l.stop.NoItem? then !s.f.dirty else Step(s, l).f.owner == 0))
  }

  /** The word before the step, as the thread that makes it changes it. */
  function Before(s: Sys, l: Label): DqState { if l.Claim? then l.g else s.f }

  predicate Reserving(l: Label) {
    l.Async? || l.Sync? || l.Apply? || l.GiveBack? || l.Redirect? || l.DrainAsync? || l.DrainSync? || l.Downgrade?
  }

  predicate Taking(l: Label) { l.Lock? || l.Barrier? || l.Claim? || l.Transfer? || l.TryUpgrade? }

  // What each kind of step leaves of the bits that are not about width.

  predicate ReservingLeaves(s: Sys, l: Label)
    requires Possible(s, l) && Reserving(l)
  {
    var f, t := s.f, Step(s, l).f;
    && t.mid == f.mid && t.mgr == f.mgr && t.bits == f.bits && t.dirty == f.dirty && t.owner == f.owner
    && (NoCarry(s, l) ==> t.susp == f.susp && t.inBarrier == (f.inBarrier && !l.Downgrade?))
    && t.pending == f.pending
  }

  lemma ReservingRest(s: Sys, l: Label)
    requires Possible(s, l) && Inv(s) && Reserving(l)
    ensures ReservingLeaves(s, l)
  {
    hide Sum;
  }

  predicate TakingLeaves(s: Sys, l: Label)
    requires Possible(s, l) && Taking(l)
  {
    var f, t := Before(s, l), Step(s, l).f;
    && t.mid == (if l.Barrier? || l.TryUpgrade? then f.mid else NoOverride(f.mid)) && t.mgr == f.mgr
    && !t.dirty && t.owner == (if l.TryUpgrade? then f.owner else l.tid)
    && (NoCarry(s, l) ==> t.susp == f.susp)
    && (l.Lock? ==> t.bits == LowBit(f.bits)) && (l.Barrier? ==> f.bits == 0 && t.bits == 2)
    && (l.Claim? ==> t.bits == LowBit(f.bits) + 2) && (l.TryUpgrade? ==> t.bits == f.bits)
    && (l.Transfer? ==> t.bits == LowBit(f.bits) - l.enq)
  }

  lemma TakingRest(s: Sys, l: Label)
    requires Possible(s, l) && Inv(s) && Taking(l)
    ensures TakingLeaves(s, l)
  {
    hide Sum, LowBit, NoOverride;
  }

  predicate ReleaseLeaves(s: Sys, l: Label)
    requires Possible(s, l) && l.Release?
  {
    var f, t := s.f, Step(s, l).f;
    t.mgr == f.mgr && t.susp == f.susp &&
    if f.susp == 0 && f.dirty then t == f.(dirty := false)
    else t.owner == 0 && t.bits == LowBit(f.bits - l.enq)
         && t.mid == (if f.susp == 0 && l.done then NoQos(NoOverride(f.mid)) else NoOverride(f.mid))
         && t.dirty == if f.susp == 0 then !l.done else f.dirty
  }

  lemma ReleaseRest(s: Sys, l: Label)
    requires Possible(s, l) && Inv(s) && l.Release?
    ensures ReleaseLeaves(s, l)
  {
    hide Sum, LowBit, NoOverride, NoQos;
  }

  predicate RequeueLeaves(s: Sys, l: Label)
    requires Possible(s, l) && l.Requeue?
  {
    var f, t := s.f, Step(s, l).f;
    && t.mgr == f.mgr && (NoCarry(s, l) ==> t.susp == f.susp) && t.owner == 0 && t.dirty
    && t.mid == NoOverride(f.mid)
    && t.bits == if Runnable(t) && LowBit(f.bits - l.enq) == 0 && !f.mgr then 1 else LowBit(f.bits - l.enq)
  }

  lemma RequeueRest(s: Sys, l: Label)
    requires Possible(s, l) && Inv(s) && l.Requeue?
    ensures RequeueLeaves(s, l)
  {
    hide Sum, LowBit, NoOverride;
  }

  predicate BarrierDoneLeaves(s: Sys, l: Label)
    requires Possible(s, l) && l.BarrierDone?
  {
    var f, t, m := s.f, Step(s, l).f, NoOverride(MergeQos(s.f.mid, l.qos));
    t.mgr == f.mgr && t.susp == f.susp &&
    if f.susp == 0 && f.dirty && !l.re then t == f.(dirty := false)
    else t.owner == 0 && t.dirty == f.dirty && t.mid == (if l.re || f.susp != 0 then m else NoQos(m))
         && t.bits == if f.susp == 0 && l.re && LowBit(f.bits) == 0 && !f.mgr then 1 else LowBit(f.bits)
  }

  lemma BarrierDoneRest(s: Sys, l: Label)
    requires Possible(s, l) && Inv(s) && l.BarrierDone?
    ensures BarrierDoneLeaves(s, l)
  {
    hide Sum, LowBit, NoOverride, NoQos, MergeQos;
  }

  predicate FinishedLeaves(s: Sys, l: Label)
    requires Possible(s, l) && l.Finished?
  {
    var f, t := s.f, Step(s, l).f;
    && t.mgr == f.mgr && t.susp == f.susp && t.mid == f.mid
    && (f.owner != 0 ==> t.owner == f.owner && t.dirty && t.bits == f.bits)
    && (f.owner == 0 && t.owner != 0 ==> t.owner == l.tid && !t.dirty && t.bits == f.bits && !Runnable(t))
    && (f.owner == 0 == t.owner ==>
          t.dirty == f.dirty && t.bits == if Runnable(t) && f.dirty then WithLowBit(f.bits) else f.bits)
  }

  lemma FinishedRest(s: Sys, l: Label)
    requires Possible(s, l) && Inv(s) && l.Finished?
    ensures FinishedLeaves(s, l)
  {
    hide Sum, WithLowBit;
  }

  /** What the end of a drain of readers leaves of the bits that are not about width. */
  predicate NonBarriersLeaves(s: Sys, l: Label)
    requires Possible(s, l) && l.NonBarriers?
  {
    var f, t, keeps := s.f, Step(s, l).f, l.stop.NoItem? && s.f.dirty;
    && t.mid == (if keeps then f.mid else NoOverride(f.mid))
    && t.mgr == f.mgr && (NoCarry(s, l) ==> t.susp == f.susp)
    && t.bits == if keeps then f.bits
                 else if t.owner == 0 && !l.stop.NoItem? && f.dirty then WithLowBit(LowBit(f.bits))
                 else LowBit(f.bits)
  }

  lemma NonBarriersRest(s: Sys, l: Label)
    requires Possible(s, l) && Inv(s) && l.NonBarriers?
    ensures NonBarriersLeaves(s, l)
  {
    hide Sum, LowBit, WithLowBit, NoOverride, CompleteTryLock, AddWidth, Reserve;
    var next := l.stop.NextBarrier?;
    GivenBackRest(s.f, s.w, s.drain.owned, next);
    var r := Released(GivenBack(s.f, s.w, s.drain.owned, false, 0, next));
    if !l.stop.NoItem? { TryLockRest(r.(dirty := true), s.f.dirty, s.w, l.tid); }
  }

  lemma GivenBackRest(f: DqState, w: nat, owned: nat, next: bool)
    requires owned <= f.width < FIELD && 0 < w <= WIDTH_MAX && !f.inBarrier && !f.pending
    ensures var r := GivenBack(f, w, owned, false, 0, next);
            && r == f.(width := r.width, inBarrier := r.inBarrier, pending := r.pending) && r.width < FIELD
            && (r.inBarrier ==> next && w > 1 && f.width - owned + w - 1 >= FIELD)
            && (r.inBarrier && f.width <= FIELD ==> r.pending && r.width + 1 < FULL)
  {}

  lemma TryLockRest(g: DqState, dirty: bool, w: nat, tid: nat)
    requires g.width < FIELD && 0 < w <= WIDTH_MAX && 0 < tid && g.owner == 0
    requires g.inBarrier ==> g.pending && g.width + 1 < FULL
    ensures var r := CompleteTryLock(g, dirty, w, tid);
            && r.mid == g.mid && r.mgr == g.mgr && (!g.inBarrier ==> r.susp == g.susp)
            && r.bits == if r.owner == 0 && dirty then WithLowBit(g.bits) else g.bits
  {
    hide WithLowBit;
  }

  /** All of these. */
  lemma Rest(s: Sys, l: Label)
    requires Possible(s, l) && Inv(s) && !l.Outside?
    ensures Reserving(l) ==> ReservingLeaves(s, l)
    ensures Taking(l) ==> TakingLeaves(s, l)
    ensures l.Release? ==> ReleaseLeaves(s, l)
    ensures l.Requeue? ==> RequeueLeaves(s, l)
    ensures l.BarrierDone? ==> BarrierDoneLeaves(s, l)
    ensures l.Finished? ==> FinishedLeaves(s, l)
    ensures l.NonBarriers? ==> NonBarriersLeaves(s, l)
  {
    hide *;
    if Reserving(l) { ReservingRest(s, l); }
    if Taking(l) { TakingRest(s, l); }
    if l.Release? { ReleaseRest(s, l); }
    if l.Requeue? { RequeueRest(s, l); }
    if l.BarrierDone? { BarrierDoneRest(s, l); }
    if l.Finished? { FinishedRest(s, l); }
    if l.NonBarriers? { NonBarriersRest(s, l); }
  }

  // ---- DIRTY: news for whoever holds the lock -----------------------------------------------

  /** DIRTY is cleared only by a thread that holds the lock from then on. */
  lemma DirtyIsNotLost(s: Sys, l: Label)
    requires Possible(s, l) && Inv(s) && !l.Outside?
    ensures s.f.dirty && !Step(s, l).f.dirty ==> Step(s, l).f.owner != 0
  {
    hide Sum;
  }

  /** Whoever takes the lock, or starts or awaits a barrier with it, has seen the news. */
  lemma TakingClearsDirty(s: Sys, l: Label)
    requires Possible(s, l) && Inv(s)
    ensures Locks(s, l) || l.TryUpgrade? ==> !Step(s, l).f.dirty
    ensures Locks(s, l) ==> Step(s, l).f.owner == l.tid
  {
    hide Sum;
  }

  /** An unlock is refused exactly if there is news, and then the drainer keeps all it has; else the owner is
      gone. */
  lemma NewsKeepsTheLock(s: Sys, l: Label)
    requires Possible(s, l) && Inv(s) && Unlocking(l)
    ensures Unlocks(s, l) ==> Step(s, l).f.owner == 0 && Step(s, l).drain.Nobody?
    ensures !Unlocks(s, l) && !Locks(s, l) ==> s.f.dirty && Step(s, l) == s.(f := s.f.(dirty := false))
  {
    hide Sum;
  }

  // ---- ENQUEUED: the queue is on its target's list ------------------------------------------

  /** How many times the step takes the queue off that list: the drainer that was put on it gives that up. */
  function GivesUp(l: Label): nat {
    match l
    case Release(enq, _) => enq
    case Requeue(enq, _) => enq
    case Transfer(_, enq) => enq
    case _ => 0
  }

  /** Only the drainer that was on the list takes the queue off it, and only as it unlocks. */
  lemma EnqueuedIsNotLost(s: Sys, l: Label)
    requires Possible(s, l) && Inv(s) && !l.Outside?
    ensures Enqueued(Before(s, l)) && !Enqueued(Step(s, l).f) ==> GivesUp(l) == 1 && (Unlocks(s, l) || l.Transfer?)
    ensures (l.Release? && Unlocks(s, l)) || l.Transfer? ==> (Enqueued(Step(s, l).f) <==> LowBit(s.f.bits) > GivesUp(l))
  {
    hide Sum, NoOverride, NoQos, MergeQos, LowBit, WithLowBit, Step, Inv;
    LowBits(Before(s, l).bits, GivesUp(l));
    Rest(s, l);
  }

  /** A drainer that requeues leaves the queue on the list exactly if it can run, or was put there anew; and it
      always leaves news for the next one. */
  lemma RequeueingPushes(s: Sys, l: Label)
    requires Possible(s, l) && Inv(s) && l.Requeue?
    ensures var t := Step(s, l).f; Enqueued(t) <==> LowBit(s.f.bits) > GivesUp(l) || (Runnable(t) && !t.mgr)
    ensures Step(s, l).f.dirty && Step(s, l).f.owner == 0
  {
    hide Sum, NoOverride, NoQos, MergeQos, LowBit, WithLowBit, Step, Inv;
    LowBits(Before(s, l).bits, GivesUp(l));
    Rest(s, l);
  }

  /** The last reader pushes exactly for news that nobody else will look at. */
  lemma FinishingPushes(s: Sys, l: Label)
    requires Possible(s, l) && Inv(s) && l.Finished?
    ensures var t := Step(s, l).f;
            Enqueued(t) <==> Enqueued(s.f) || (s.f.owner == 0 && Runnable(t) && s.f.dirty)
    ensures s.f.owner != 0 ==> Step(s, l).f.dirty
  {
    hide Sum, NoOverride, NoQos, MergeQos, LowBit, WithLowBit, Step, Inv;
    LowBits(Before(s, l).bits, GivesUp(l));
    Rest(s, l);
  }

  /** A completed barrier pushes exactly if it is asked to and the queue is not suspended. */
  lemma CompletingPushes(s: Sys, l: Label)
    requires Possible(s, l) && Inv(s) && l.BarrierDone?
    ensures Enqueued(Step(s, l).f) <==> Enqueued(s.f) || (l.re && s.f.susp == 0 && !s.f.mgr)
  {
    hide Sum, NoOverride, NoQos, MergeQos, LowBit, WithLowBit, Step, Inv;
    LowBits(Before(s, l).bits, GivesUp(l));
    Rest(s, l);
  }

  /** The end of a drain of readers pushes exactly for an item that is left, with news, while others hold width. */
  lemma DrainingPushes(s: Sys, l: Label)
    requires Possible(s, l) && Inv(s) && l.NonBarriers?
    ensures Enqueued(Step(s, l).f) <==> Enqueued(s.f) || (!l.stop.NoItem? && s.f.dirty && Unlocks(s, l))
  {
    hide Sum, NoOverride, NoQos, MergeQos, LowBit, WithLowBit, Step, Inv;
    LowBits(Before(s, l).bits, GivesUp(l));
    Rest(s, l);
  }

  /** Nobody else does. */
  lemma NobodyElsePushes(s: Sys, l: Label)
    requires Possible(s, l) && Inv(s) && !l.Outside?
    requires !Unlocking(l) && !l.Finished?
    ensures Enqueued(Step(s, l).f) ==> Enqueued(Before(s, l))
  {
    hide Sum, NoOverride, NoQos, MergeQos, LowBit, WithLowBit, Step, Inv;
    LowBits(Before(s, l).bits, GivesUp(l));
    Rest(s, l);
  }

  /** There is news, the queue could run, and nobody drains it or has it on a list. */
  predicate Forgotten(f: DqState) { f.dirty && Runnable(f) && f.owner == 0 && !Enqueued(f) && !f.mgr }

  /** No queue is forgotten, unless its drainer stops with its width used up, or an apply gives width back:
      both count on the reader inside which they run to come after them. */
  lemma NothingIsForgotten(s: Sys, l: Label)
    requires Possible(s, l) && Inv(s) && Careful(s, l) && !l.Outside? && !l.GiveBack?
    requires l.Release? ==> l.done
    requires l.NonBarriers? && l.stop.Reader? ==> s.f.dirty
    requires !Forgotten(s.f)
    ensures !Forgotten(Step(s, l).f)
  {
    hide Sum;
  }

  // ---- what stays ---------------------------------------------------------------------------

  /** Reserving width, giving it back and passing it on changes nothing but the width, and the barrier bit when
      the drainer leaves the barrier. */
  lemma WidthOnly(s: Sys, l: Label)
    requires Possible(s, l) && Inv(s) && NoCarry(s, l)
    requires l.Async? || l.Sync? || l.Apply? || l.GiveBack? || l.Redirect? || l.DrainAsync? || l.DrainSync?
          || l.Downgrade?
    ensures Step(s, l).f == s.f.(width := Step(s, l).f.width, inBarrier := s.f.inBarrier && !l.Downgrade?)
  {
    hide Sum, NoOverride, NoQos, MergeQos, LowBit, WithLowBit, Step, Inv;
    LowBits(Before(s, l).bits, GivesUp(l));
    Rest(s, l);
  }

  /** No step suspends or resumes the queue, or moves it to or from the manager. */
  lemma OthersBusiness(s: Sys, l: Label)
    requires Possible(s, l) && Inv(s) && NoCarry(s, l) && !l.Outside?
    ensures Step(s, l).f.susp == Before(s, l).susp && Step(s, l).f.mgr == Before(s, l).mgr
  {
    hide Sum, NoOverride, NoQos, MergeQos, LowBit, WithLowBit, Step, Inv;
    LowBits(Before(s, l).bits, GivesUp(l));
    Rest(s, l);
  }

  /** Role, override and QoS of a queue; and what the three changes to them do. */
  lemma MidParts(mid: nat, qos: nat)
    requires mid < 0x40 && qos < 8
    ensures var m := NoOverride(mid); m < 0x40 && m / 16 == mid / 16 && m / 8 % 2 == 0 && m % 8 == mid % 8
    ensures var m := NoQos(mid); m < 0x40 && m / 16 == mid / 16 && m / 8 % 2 == mid / 8 % 2 && m % 8 == 0
    ensures var m := MergeQos(mid, qos); m < 0x40 && m / 16 == mid / 16
    ensures MergeQos(mid, qos) % 8 == if qos > mid % 8 then qos else mid % 8
  {
    var a, b, c := mid / 16, mid / 8 % 2, mid % 8;
    assert mid == a * 16 + b * 8 + c && a < 4;
    Digits(a, 0, c);
    Digits(a, b, 0);
    Digits(a, if a == 1 then 1 else b, qos);
  }

  lemma Digits(a: nat, b: nat, c: nat)
    requires b < 2 && c < 8
    ensures var m := a * 16 + b * 8 + c; m / 16 == a && m / 8 % 2 == b && m % 8 == c
  {}

  /** The queue's role stays.  Its QoS stays but where the drainer unlocks with nothing left to do, and where a
      completed barrier brings a higher one.  An override ends with the lock for which it was meant. */
  lemma MidIsKept(s: Sys, l: Label)
    requires Possible(s, l) && Inv(s) && !l.Outside?
    ensures Step(s, l).f.mid == MidAfter(s, l)
  {
    hide Sum, NoOverride, NoQos, MergeQos, LowBit, WithLowBit, Step, Inv;
    LowBits(Before(s, l).bits, GivesUp(l));
    Rest(s, l);
  }

  function MidAfter(s: Sys, l: Label): nat
    requires Possible(s, l)
  {
    var mid := Before(s, l).mid;
    if l.Barrier? then mid
    else if l.Finished? then mid
    else if l.NonBarriers? then (if Unlocks(s, l) || Locks(s, l) then NoOverride(mid) else mid)
    else if l.Release? && Unlocks(s, l) && s.f.susp == 0 && l.done then NoQos(NoOverride(mid))
    else if l.BarrierDone? && Unlocks(s, l) then
      (if l.re || s.f.susp != 0 then NoOverride(MergeQos(mid, l.qos)) else NoQos(NoOverride(MergeQos(mid, l.qos))))
    else if Unlocks(s, l) || Locks(s, l) then NoOverride(mid)
    else mid
  }

  // ---- when the lock can be had --------------------------------------------------------------

  /** In terms of the width in use: a drainer needs some width left, a barrier all of it. */
  lemma WhoGetsTheLock(s: Sys)
    requires Inv(s)
    ensures CanDrainLock(s.f) <==>
            s.f.susp == 0 && s.f.owner == 0 && !s.f.mgr && (if s.f.pending then InUse(s) == 0 else InUse(s) < s.w)
    ensures CanTakeBarrier(s.f, s.w) <==> s.f.susp == 0 && s.f.owner == 0 && InUse(s) == 0
    ensures CanBarrierSync(s.f, s.w) <==>
            && s.f.susp == 0 && s.f.owner == 0 && InUse(s) == 0 && !s.f.pending
            && !s.f.dirty && !s.f.mgr && s.f.mid % 16 == 0 && s.f.bits == 0
  {
    hide Sum;
  }

  /** Whoever holds width or the lock can always take the steps that give it back or pass it on. */
  lemma HoldersCanAct(s: Sys, p: nat, k: nat, tid: nat, enq: nat, yes: bool)
    requires Inv(s) && p < |s.holds| && 0 < tid < 0x4000_0000
    ensures Enabled(s, GiveBack(p, k)) <==> k <= s.holds[p]
    ensures Enabled(s, Finished(p, tid)) <==> s.holds[p] > 0
    ensures Enabled(s, Release(enq, yes)) <==> s.drain.Drainer? && enq <= LowBit(s.f.bits)
    ensures Enabled(s, Requeue(enq, yes)) <==> s.drain.Drainer? && enq <= LowBit(s.f.bits)
    ensures Enabled(s, Transfer(tid, enq)) <==> s.drain.Drainer? && s.drain.barrier && enq <= LowBit(s.f.bits)
    ensures Enabled(s, TryUpgrade) <==> s.drain.Drainer? && !s.drain.barrier
    ensures Enabled(s, Downgrade) <==> s.drain.Drainer? && s.drain.barrier
    ensures Enabled(s, BarrierDone(yes, k)) <==> s.drain.Drainer? && s.drain.barrier && k < 8
    ensures Enabled(s, NonBarriers(NoItem, tid)) <==> s.drain.Drainer? && !s.drain.barrier && !s.drain.stalled
    ensures Enabled(s, Redirect(p)) <==> Plain(s.drain) && s.drain.owned > 0
  {
    hide Sum, LowBit;
    SumCovers(s.holds, p);
  }
}
