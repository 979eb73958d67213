/** The packed lock word dq_state: how much width is in use, whether a barrier runs or is pending, and who
    drains.  Fields are named here, and shown to be what the word's additions and comparisons see. */
module WidthLock {
  import opened Options

  const FULL: nat := 0x1000            // DISPATCH_QUEUE_WIDTH_FULL
  const FIELD: nat := 0x2000           // the width field, with the full bit on top, has 13 bits
  const WIDTH_MAX: nat := FULL - 2     // DISPATCH_QUEUE_WIDTH_MAX

  /** `width` counts from FULL - dq_width when idle, so that FULL means no width is left.
      `mid` holds role, override and QoS (bits 32-37); `bits` the two low lock bits, ENQUEUED the lower. */
  datatype DqState = DqState(
    susp: nat, inBarrier: bool, width: nat, pending: bool, dirty: bool, mgr: bool, mid: nat, owner: nat, bits: nat)

  predicate WellFormed(f: DqState) {
    f.susp < 0x200 && f.width < FIELD && f.mid < 0x40 && f.owner < 0x4000_0000 && f.bits < 4
  }

  /** DISPATCH_QUEUE_STATE_INIT_VALUE */
  function Idle(w: nat): DqState
    requires w <= FULL
  {
    DqState(0, false, FULL - w, false, false, false, 0, 0, 0)
  }

  /** _dq_state_is_runnable: not suspended, not in a barrier, not full. */
  predicate Runnable(f: DqState) { f.susp == 0 && !f.inBarrier && f.width < FULL }

  /** _dq_state_is_sync_runnable */
  predicate SyncRunnable(f: DqState) { f.susp == 0 && !f.inBarrier }

  /** _dq_state_available_width */
  function Available(f: DqState): nat { if f.width < FULL then FULL - f.width else 0 }

  /** _dq_state_used_width */
  function Used(f: DqState, w: nat): int {
    f.width - (FULL - w) - if f.pending then w - 1 else 0
  }

  /** Adding `k` width intervals to the word: past its field the width carries into the barrier bit. */
  function AddWidth(f: DqState, k: nat): DqState
    requires f.width < FIELD && k <= FIELD
  {
    var total := f.width + k;
    if total < FIELD then f.(width := total)
    else if !f.inBarrier then f.(width := total - FIELD, inBarrier := true)
    else f.(width := total - FIELD, inBarrier := false, susp := (f.susp + 1) % 0x200)
  }

  /** Adding the barrier bit: if it is set it carries into the suspend count. */
  function AddBarrier(f: DqState): DqState {
    if !f.inBarrier then f.(inBarrier := true) else f.(inBarrier := false, susp := (f.susp + 1) % 0x200)
  }

  /** _dispatch_queue_try_acquire_async */
  function AcquireAsync(f: DqState): Option<DqState>
    requires f.width < FIELD
  {
    if !Runnable(f) || f.dirty || f.pending then None else Some(AddWidth(f, 1))
  }

  /** _dispatch_queue_try_reserve_sync_width, on a queue without queued items. */
  function ReserveSync(f: DqState): Option<DqState>
    requires f.width < FIELD
  {
    if !SyncRunnable(f) || f.dirty || f.pending then None else Some(AddWidth(f, 1))
  }

  /** _dispatch_queue_try_reserve_apply_width: what is granted. */
  function ApplyGrant(f: DqState, w: nat, want: nat): nat {
    if w == 1 then 0 else if Available(f) < want then Available(f) else want
  }

  /** The override bit of `mid` cleared. */
  function NoOverride(mid: nat): nat { mid / 16 * 16 + mid % 8 }

  /** The lower lock bit, ENQUEUED, by itself, and set. */
  function LowBit(bits: nat): nat { bits % 2 }

  function WithLowBit(bits: nat): nat { bits / 2 * 2 + 1 }

  /** The QoS of `mid` cleared. */
  function NoQos(mid: nat): nat { mid / 8 * 8 }

  /** _dispatch_queue_drain_try_lock: when it locks, and what the word becomes. */
  predicate CanDrainLock(f: DqState) { Runnable(f) && f.owner == 0 && !f.mgr }

  function DrainLock(f: DqState, w: nat, tid: nat): DqState {
    f.(owner := tid, width := FULL, inBarrier := f.pending || f.width + w - 1 < FULL,
       pending := false, dirty := false, mid := NoOverride(f.mid), bits := LowBit(f.bits))
  }

  /** All but one of the queue's intervals reserved for a barrier, unless they are already. */
  function WithPending(f: DqState, w: nat): DqState
    requires 0 < w <= FULL && f.width < FIELD
  {
    if f.pending then f else AddWidth(f, w - 1).(pending := true)
  }

  /** The pending barrier starts if nobody else holds width. */
  function IntoBarrier(f: DqState): DqState
    requires f.width < FIELD
  {
    if Runnable(f) then AddWidth(f, 1).(inBarrier := true, pending := false) else f
  }

  /** _dispatch_queue_try_upgrade_full_width: the new word; it succeeded if that is in a barrier. */
  function Upgrade(f: DqState, w: nat, owned: nat): DqState
    requires 0 < w <= FULL && owned <= f.width < FIELD
  {
    IntoBarrier(WithPending(f.(width := f.width - owned), w)).(dirty := false)
  }

  /** _dispatch_queue_try_acquire_barrier_sync: only from the completely idle word. */
  predicate CanBarrierSync(f: DqState, w: nat)
    requires w <= FULL
  {
    f == Idle(w).(mid := f.mid) && f.mid % 16 == 0
  }

  function BarrierSync(f: DqState, tid: nat): DqState {
    f.(width := FULL, inBarrier := true, owner := tid, bits := 2)
  }

  /** The state in which the last reader would hold the whole width in a barrier. */
  function FullWidth(g: DqState, w: nat): DqState
    requires g.width < FIELD && w <= FULL
  {
    AddBarrier(if g.pending then AddWidth(g.(pending := false), 1) else AddWidth(g, w))
  }

  /** _dispatch_lane_non_barrier_complete_try_lock: take the barrier if that was the last. */
  function CompleteTryLock(g: DqState, wasDirty: bool, w: nat, tid: nat): DqState
    requires g.width < FIELD && w <= FULL
  {
    var h := FullWidth(g, w);
    if h.width == FULL then h.(dirty := false, owner := tid)
    else if wasDirty then g.(bits := WithLowBit(g.bits))
    else g
  }

  /** _dispatch_lane_non_barrier_complete: give back one. */
  function Complete(f: DqState, w: nat, tid: nat): DqState
    requires 0 < f.width < FIELD && w <= FULL
  {
    var g := f.(width := f.width - 1);
    if f.owner != 0 then g.(dirty := true)
    else if Runnable(g) then CompleteTryLock(g, f.dirty, w, tid)
    else g
  }

  /** _dispatch_queue_drain_try_unlock gives up, clearing only DIRTY. */
  predicate UnlockRenews(f: DqState) { f.susp == 0 && f.dirty }

  /** What an unlock leaves of the lock, besides the width it gives back. */
  function Released(f: DqState): DqState {
    f.(owner := 0, mid := NoOverride(f.mid), bits := LowBit(f.bits))
  }

  /** `enq` is 1 if the drainer also took over the ENQUEUED bit. */
  function Unlock(f: DqState, owned: nat, barrier: bool, enq: nat, done: bool): DqState
    requires owned <= f.width && enq <= f.bits
  {
    var g := Released(f.(width := f.width - owned, inBarrier := f.inBarrier && !barrier, bits := f.bits - enq));
    if f.susp != 0 then g
    else if done then g.(mid := NoQos(g.mid))
    else g.(dirty := true)
  }

  /** Subtracting what _dispatch_queue_adjust_owned has taken off `owned`: PENDING and all but one interval
      are added to the word.  If PENDING is set already, its sum is one more interval. */
  function Reserve(f: DqState, w: nat): DqState
    requires 0 < w <= FULL && f.width < FIELD
  {
    if f.pending then AddWidth(f.(pending := false), w) else AddWidth(f, w - 1).(pending := true)
  }

  /** What a drainer gives back, less what it keeps for a barrier that comes next. */
  function GivenBack(f: DqState, w: nat, owned: nat, barrier: bool, enq: nat, barrierNext: bool): DqState
    requires owned <= f.width < FIELD && 0 < w <= FULL && enq <= f.bits
  {
    var g := f.(width := f.width - owned, inBarrier := f.inBarrier && !barrier, bits := f.bits - enq);
    if barrierNext && w > 1 then Reserve(g, w) else g
  }

  /** _dispatch_queue_invoke_finish, after _dispatch_queue_adjust_owned: ENQUEUED again if it can run. */
  function Finish(f: DqState, w: nat, owned: nat, barrier: bool, enq: nat, barrierNext: bool): DqState
    requires owned <= f.width < FIELD && 0 < w <= FULL && enq <= f.bits
  {
    var r := Released(GivenBack(f, w, owned, barrier, enq, barrierNext)).(dirty := true);
    if Runnable(r) && r.bits == 0 && !r.mgr then r.(bits := 1) else r
  }

  /** When _dispatch_lane_resume and _dispatch_lane_push_waiter take the lock for a barrier, and what the
      word becomes. */
  predicate CanTakeBarrier(f: DqState, w: nat) {
    Runnable(f) && f.owner == 0 && (f.pending || f.width + w - 1 < FULL)
  }

  function TakeBarrier(f: DqState, w: nat, tid: nat): DqState {
    DrainLock(f, w, tid).(inBarrier := true, bits := LowBit(f.bits) + 2)
  }

  /** _dispatch_lane_drain_barrier_waiter: the next barrier's thread gets the lock as it is. */
  function HandOver(f: DqState, tid: nat, enq: nat): DqState
    requires enq <= LowBit(f.bits)
  {
    Released(f).(dirty := false, owner := tid, bits := LowBit(f.bits) - enq)
  }

  /** _dq_state_merge_qos: a higher QoS, and an override on a base queue without a workloop. */
  function MergeQos(mid: nat, qos: nat): nat {
    if mid % 8 < qos then mid / 16 * 16 + (if mid / 16 == 1 then 8 else mid / 8 % 2 * 8) + qos else mid
  }

  /** What a completed barrier leaves of the lock word. */
  function BarrierLeft(f: DqState, w: nat, mid: nat): DqState
    requires w <= f.width
  {
    Released(f.(width := f.width - w, inBarrier := false, mid := mid))
  }

  /** _dispatch_lane_class_barrier_complete; `mid` is with the caller's QoS merged in. */
  function BarrierComplete(f: DqState, w: nat, enqueue: bool, mid: nat): DqState
    requires w <= f.width
  {
    var g := BarrierLeft(f, w, mid);
    if f.susp != 0 then g
    else if enqueue then (if LowBit(f.bits) == 0 && !f.mgr then g.(bits := 1) else g)
    else if f.dirty then f.(dirty := false)
    else g.(mid := NoQos(g.mid))
  }

  /** The item _dispatch_lane_drain_non_barriers stops at. */
  datatype Stop = NoItem | Reader | NextBarrier

  /** Its last step: give back what is left, and try to take the barrier if something is left to do. */
  function NonBarriersDone(f: DqState, w: nat, owned: nat, stop: Stop, tid: nat): DqState
    requires owned <= f.width < FIELD && 0 < w <= FULL
  {
    var r := Released(GivenBack(f, w, owned, false, 0, stop.NextBarrier?));
    if !stop.NoItem? then CompleteTryLock(r.(dirty := true), f.dirty, w, tid)
    else if f.dirty then f.(dirty := false)
    else r
  }

  // ---- the packed word ----------------------------------------------------------------------

  const WORD: nat := 0x1_0000_0000_0000_0000
  const SUSPEND_UNIT: nat := 0x0080_0000_0000_0000
  const IN_BARRIER: nat := 0x0040_0000_0000_0000
  const FULL_BIT: nat := 0x0020_0000_0000_0000
  const INTERVAL: nat := 0x0000_0200_0000_0000
  const PENDING: nat := 0x0000_0100_0000_0000
  const DIRTY: nat := 0x0000_0080_0000_0000
  const MGR: nat := 0x0000_0040_0000_0000

  function Bit(b: bool): nat { if b then 1 else 0 }

  /** Unsigned 64-bit arithmetic. */
  function Wrap(x: nat): nat { x % WORD }

  function Low(f: DqState): nat { Bit(f.mgr) * MGR + f.mid * 0x1_0000_0000 + f.owner * 4 + f.bits }

  function Encode(f: DqState): nat {
    f.susp * SUSPEND_UNIT + Bit(f.inBarrier) * IN_BARRIER + f.width * INTERVAL
    + Bit(f.pending) * PENDING + Bit(f.dirty) * DIRTY + Low(f)
  }

  /** The word's comparisons test what the fields say. */
  lemma WordTests(f: DqState, w: nat)
    requires WellFormed(f) && 0 < w <= FULL
    ensures Encode(f) < WORD
    ensures Encode(f) < FULL_BIT <==> Runnable(f)
    ensures Encode(f) < IN_BARRIER <==> SyncRunnable(f)
    ensures Encode(f) + (w - 1) * INTERVAL < FULL_BIT <==> SyncRunnable(f) && f.width + w - 1 < FULL
  {
    assert Low(f) < DIRTY;
  }

  lemma WrapOnce(sum: nat, x: nat)
    requires x < WORD && (sum == x || sum == x + WORD)
    ensures Wrap(sum) == x
  {}

  /** The word's additions do what the fields say, the carry out of the width field included. */
  lemma WordAdd(f: DqState, k: nat)
    requires WellFormed(f) && k <= FIELD
    ensures WellFormed(AddWidth(f, k))
    ensures Encode(AddWidth(f, k)) == Wrap(Encode(f) + k * INTERVAL)
  {
    hide Encode, Wrap, Low;
    var g := AddWidth(f, k);
    assert WellFormed(g);
    hide AddWidth;
    WordTests(g, 1);
    WordCarry(f, k);
    WrapOnce(Encode(f) + k * INTERVAL, Encode(g));
  }

  lemma WordCarry(f: DqState, k: nat)
    requires WellFormed(f) && k <= FIELD
    ensures Encode(f) + k * INTERVAL == Encode(AddWidth(f, k))
         || Encode(f) + k * INTERVAL == Encode(AddWidth(f, k)) + WORD
  {
    var g := AddWidth(f, k);
    assert Low(g) == Low(f);
    hide Low;
    if f.width + k >= FIELD && f.inBarrier {
      assert g.susp == f.susp + 1 || (f.susp == 0x1ff && g.susp == 0);
    }
  }

  /** Giving back width, and setting and clearing the single bits. */
  lemma WordBits(f: DqState, k: nat)
    requires WellFormed(f)
    ensures k <= f.width ==> Encode(f.(width := f.width - k)) == Encode(f) - k * INTERVAL
    ensures !f.pending ==> Encode(f.(pending := true)) == Encode(f) + PENDING
    ensures f.pending && !f.inBarrier ==>
              Encode(f.(inBarrier := true, pending := false)) == Encode(f) + IN_BARRIER - PENDING
    ensures Encode(f.(dirty := false)) == Encode(f) - Bit(f.dirty) * DIRTY
  {
    assert Low(f.(width := 0)) == Low(f.(pending := true)) == Low(f.(inBarrier := true)) == Low(f);
    hide Low;
  }

  lemma WordGiveBack(f: DqState, k: nat)
    requires WellFormed(f) && k <= f.width
    ensures WellFormed(f.(width := f.width - k))
    ensures k * INTERVAL <= Encode(f) && Encode(f.(width := f.width - k)) == Encode(f) - k * INTERVAL
  {
    WordBits(f, k);
    hide Low;
  }

  lemma WordPending(f: DqState, w: nat)
    requires WellFormed(f) && 0 < w <= FULL
    ensures WellFormed(WithPending(f, w)) && WithPending(f, w).pending && WithPending(f, w).width < FIELD
    ensures Encode(WithPending(f, w))
         == if f.pending then Encode(f) else Wrap(Encode(f) + (w - 1) * INTERVAL) + PENDING
  {
    hide Encode, Wrap;
    if !f.pending {
      WordAdd(f, w - 1);
      WordBits(AddWidth(f, w - 1), 0);
    }
  }

  lemma WordBarrier(f: DqState)
    requires WellFormed(f) && f.pending
    ensures WellFormed(IntoBarrier(f))
    ensures Encode(IntoBarrier(f))
         == if Runnable(f) then Wrap(Encode(f) + INTERVAL) + IN_BARRIER - PENDING else Encode(f)
  {
    hide Encode, Wrap;
    WordAdd(f, 1);
    WordBits(AddWidth(f, 1), 0);
  }

  lemma WordClean(f: DqState)
    requires WellFormed(f)
    ensures WellFormed(f.(dirty := false)) && Encode(f.(dirty := false)) == Encode(f) - Bit(f.dirty) * DIRTY
    ensures Encode(f) >= Bit(f.dirty) * DIRTY
  {
    WordBits(f, 0);
  }

  /** The flag tests of the word. */
  lemma WordFlags(f: DqState)
    requires WellFormed(f)
    ensures Encode(f) / PENDING % 2 == Bit(f.pending)
    ensures Encode(f) / DIRTY % 2 == Bit(f.dirty)
    ensures Encode(f) / INTERVAL % FIELD == f.width
    ensures Encode(f) / IN_BARRIER % 2 == Bit(f.inBarrier)
  {
    assert Low(f) < DIRTY;
    hide Low;
    assert Encode(f) / DIRTY
        == ((f.susp * 2 + Bit(f.inBarrier)) * FIELD + f.width) * 4 + Bit(f.pending) * 2 + Bit(f.dirty);
    assert Encode(f) / PENDING == ((f.susp * 2 + Bit(f.inBarrier)) * FIELD + f.width) * 2 + Bit(f.pending);
    assert Encode(f) / INTERVAL == (f.susp * 2 + Bit(f.inBarrier)) * FIELD + f.width;
    assert Encode(f) / IN_BARRIER == f.susp * 2 + Bit(f.inBarrier);
  }

  const HIGH: nat := 0x1_0000_0000

  /** The upper half of the word. */
  function Upper(f: DqState): nat {
    (((f.susp * 2 + Bit(f.inBarrier)) * FIELD + f.width) * 4 + Bit(f.pending) * 2 + Bit(f.dirty)) * 128
    + Bit(f.mgr) * 64 + f.mid
  }

  lemma WordHalves(f: DqState)
    requires WellFormed(f)
    ensures Encode(f) == Upper(f) * HIGH + (f.owner * 4 + f.bits)
    ensures Encode(f) / HIGH == Upper(f) && Encode(f) % HIGH == f.owner * 4 + f.bits
  {
    assert Encode(f) == Upper(f) * HIGH + (f.owner * 4 + f.bits);
    hide Encode, Upper;
    Halves(Upper(f), f.owner * 4 + f.bits);
  }

  lemma Halves(u: nat, l: nat)
    requires l < HIGH
    ensures (u * HIGH + l) / HIGH == u && (u * HIGH + l) % HIGH == l
  {}

  /** What masks on the upper half see: QoS, override, role, manager bit and suspend count. */
  lemma UpperParts(f: DqState)
    requires WellFormed(f)
    ensures Upper(f) % 8 == f.mid % 8 && Upper(f) / 8 % 2 == f.mid / 8 % 2 && Upper(f) / 16 % 4 == f.mid / 16
    ensures Upper(f) / 64 % 2 == Bit(f.mgr) && Upper(f) / 0x80_0000 == f.susp
  {
    var v := ((f.susp * 2 + Bit(f.inBarrier)) * FIELD + f.width) * 4 + Bit(f.pending) * 2 + Bit(f.dirty);
    Parts(v, Bit(f.mgr), f.mid);
    TopPart(f.susp, Upper(f) - f.susp * 0x80_0000);
  }

  lemma Parts(v: nat, b: nat, mid: nat)
    requires b < 2 && mid < 0x40
    ensures var u := v * 128 + b * 64 + mid;
            u % 8 == mid % 8 && u / 8 % 2 == mid / 8 % 2 && u / 16 % 4 == mid / 16 && u / 64 % 2 == b
  {
    var u := v * 128 + b * 64 + mid;
    assert u / 8 == v * 16 + b * 8 + mid / 8 && u % 8 == mid % 8;
    assert u / 16 == v * 8 + b * 4 + mid / 16;
    assert u / 64 == v * 2 + b;
    hide *;
    Pair(v * 8 + b * 4, mid / 8);
    Pair(v, b);
    Quads(v * 2 + b, mid / 16);
  }

  lemma Pair(x: nat, y: nat)
    ensures (x * 2 + y) % 2 == y % 2
  {
    var n := x * 2 + y;
    assert n == n / 2 * 2 + n % 2 && y == y / 2 * 2 + y % 2;
  }

  lemma Quads(x: nat, y: nat)
    requires y < 4
    ensures (x * 4 + y) % 4 == y && (x * 4 + y) / 4 == x
  {
    var n := x * 4 + y;
    assert n == n / 4 * 4 + n % 4;
  }

  lemma TopPart(x: nat, rest: int)
    requires 0 <= rest < 0x80_0000
    ensures (x * 0x80_0000 + rest) / 0x80_0000 == x
  {}

  /** The word holds every field: different fields, different words. */
  lemma WordIsFaithful(f: DqState, h: DqState)
    requires WellFormed(f) && WellFormed(h) && Encode(f) == Encode(h)
    ensures f == h
  {
    hide Encode, Upper;
    WordHalves(f);
    WordHalves(h);
    WordFlags(f);
    WordFlags(h);
    UpperParts(f);
    UpperParts(h);
    MidParts(f.mid);
    MidParts(h.mid);
    OwnerPart(f);
    OwnerPart(h);
  }

  lemma MidParts(mid: nat)
    ensures mid == mid / 16 * 16 + mid / 8 % 2 * 8 + mid % 8
  {}

  // ---- the read-modify-write loops on the word itself ---------------------------------------

  /** A queue whose lock word is the packed integer; each method is one successful round of its loop. */
  class Lane {
    const dqWidth: nat
    var word: nat
    ghost var fields: DqState

    ghost predicate Valid()
      reads this
    {
      0 < dqWidth <= WIDTH_MAX && WellFormed(fields) && word == Encode(fields)
    }

    constructor (dqWidth: nat)
      requires 0 < dqWidth <= WIDTH_MAX
      ensures Valid() && this.dqWidth == dqWidth && fields == Idle(dqWidth)
    {
      this.dqWidth := dqWidth;
      word := (FULL - dqWidth) * INTERVAL;
      fields := Idle(dqWidth);
    }

    method TryAcquireAsync() returns (ok: bool)
      requires Valid()
      modifies this
      ensures Valid() && ok == AcquireAsync(old(fields)).Some?
      ensures fields == if ok then AcquireAsync(old(fields)).value else old(fields)
    {
      WordTests(fields, dqWidth);
      WordFlags(fields);
      if !(word < FULL_BIT) || word / DIRTY % 2 == 1 || word / PENDING % 2 == 1 {
        return false;
      }
      WordAdd(fields, 1);
      word := Wrap(word + INTERVAL);
      fields := AddWidth(fields, 1);
      ok := true;
    }

    /** `queued`: the queue has items, which must not be overtaken. */
    method TryReserveSyncWidth(queued: bool) returns (ok: bool)
      requires Valid()
      modifies this
      ensures Valid() && ok == (!queued && ReserveSync(old(fields)).Some?)
      ensures fields == if ok then ReserveSync(old(fields)).value else old(fields)
    {
      if queued {
        return false;
      }
      WordTests(fields, dqWidth);
      WordFlags(fields);
      if !(word < IN_BARRIER) || word / DIRTY % 2 == 1 || word / PENDING % 2 == 1 {
        return false;
      }
      WordAdd(fields, 1);
      word := Wrap(word + INTERVAL);
      fields := AddWidth(fields, 1);
      ok := true;
    }

    method TryReserveApplyWidth(want: nat) returns (width: nat)
      requires Valid()
      modifies this
      ensures Valid() && width == ApplyGrant(old(fields), dqWidth, want)
      ensures fields == AddWidth(old(fields), width) && fields.width == old(fields).width + width
    {
      hide Encode, Wrap, Low;
      if dqWidth == 1 {
        return 0;
      }
      WordFlags(fields);
      var used := word / INTERVAL % FIELD;
      width := if used < FULL then FULL - used else 0;
      if width == 0 {
        return;
      }
      if width > want {
        width := want;
      }
      WordAdd(fields, width);
      word := Wrap(word + width * INTERVAL);
      fields := AddWidth(fields, width);
    }

    method RelinquishWidth(k: nat)
      requires Valid() && k <= fields.width
      modifies this
      ensures Valid() && fields == old(fields).(width := old(fields).width - k)
    {
      word := word - k * INTERVAL;
      fields := fields.(width := fields.width - k);
    }

    /** `owned` counts intervals; the caller is a drainer that holds them. */
    method TryUpgradeFullWidth(owned: nat) returns (ok: bool)
      requires Valid() && owned <= fields.width
      modifies this
      ensures Valid() && fields == Upgrade(old(fields), dqWidth, owned)
      ensures ok == fields.inBarrier
    {
      hide Encode, Wrap, WithPending, IntoBarrier, AddWidth, WellFormed, Runnable;
      var next := word - owned * INTERVAL;
      ghost var g := fields.(width := fields.width - owned);
      WordGiveBack(fields, owned);
      WordFlags(fields);
      if word / PENDING % 2 == 0 {
        next := Wrap(next + (dqWidth - 1) * INTERVAL) + PENDING;
      }
      WordPending(g, dqWidth);
      g := WithPending(g, dqWidth);
      WordTests(g, dqWidth);
      WordBarrier(g);
      if next < FULL_BIT {
        next := Wrap(next + INTERVAL) + IN_BARRIER - PENDING;
      }
      assert g.width < FIELD;
      g := IntoBarrier(g);
      WordFlags(g);
      WordClean(g);
      if next / DIRTY % 2 == 1 {
        next := next - DIRTY;
      }
      WordFlags(g.(dirty := false));
      word, fields := next, g.(dirty := false);
      ok := next / IN_BARRIER % 2 == 1;
    }

    /** For a drain that is neither the manager's nor stolen: a failed attempt gives up the ENQUEUED bit. */
    method TryDrainLock(tid: nat) returns (ok: bool)
      requires Valid() && 0 < tid < 0x4000_0000 && fields.bits % 2 == 1
      modifies this
      ensures Valid() && ok == CanDrainLock(old(fields))
      ensures fields == if ok then DrainLock(old(fields), dqWidth, tid) else old(fields).(bits := old(fields).bits - 1)
    {
      hide Encode, Upper, Low, WellFormed, DrainLock, CanDrainLock, AddWidth, FullWidth;
      WordCanDrainLock(fields);
      WordTests(fields, dqWidth);
      WordFlags(fields);
      var upper, lock := word / HIGH, word % HIGH;
      ok := word < FULL_BIT && lock / 4 == 0 && upper / 64 % 2 == 0;
      if ok {
        var next := (upper / 16 % 4 * 16 + upper % 8) * HIGH + lock % 2 + tid * 4 + FULL_BIT;
        if word / PENDING % 2 == 1 || word + (dqWidth - 1) * INTERVAL < FULL_BIT {
          next := next + IN_BARRIER;
        }
        WordDrainLock(fields, dqWidth, tid);
        word, fields := next, DrainLock(fields, dqWidth, tid);
      } else {
        WordDequeue(fields);
        word, fields := word - 1, fields.(bits := fields.bits - 1);
      }
    }

    /** `owned`, `barrier` and `enq` are what the drainer got from its lock, and gives back. */
    method TryDrainUnlock(owned: nat, barrier: bool, enq: nat, done: bool) returns (ok: bool)
      requires Valid() && owned <= fields.width && enq <= fields.bits % 2 && (barrier ==> fields.inBarrier)
      modifies this
      ensures Valid() && ok == !UnlockRenews(old(fields))
      ensures fields == if ok then Unlock(old(fields), owned, barrier, enq, done) else old(fields).(dirty := false)
    {
      hide Encode, Upper, Low, WellFormed, Released, NoOverride, Unmasked;
      ghost var f := fields;
      WordHalves(f);
      UpperParts(f);
      WordFlags(f);
      WordClean(f);
      WordUnlock(f, owned, barrier, enq, done);
      var next := Unmasked(word - owned * INTERVAL - Bit(barrier) * IN_BARRIER - enq);
      if word / HIGH / 0x80_0000 != 0 {
      } else if word / DIRTY % 2 == 1 {
        word, fields := word - DIRTY, f.(dirty := false);
        return false;
      } else if done {
        next := next - next / HIGH % 8 * HIGH;
      } else {
        next := next + DIRTY;
      }
      word, fields := next, Unlock(f, owned, barrier, enq, done);
      ok := true;
    }

    method TryAcquireBarrierSync(tid: nat) returns (ok: bool)
      requires Valid() && 0 < tid < 0x4000_0000
      modifies this
      ensures Valid() && ok == CanBarrierSync(old(fields), dqWidth)
      ensures fields == if ok then BarrierSync(old(fields), tid) else old(fields)
    {
      hide Encode, Upper, Low;
      ghost var f := fields;
      WordHalves(f);
      UpperParts(f);
      var role := word / HIGH / 16 % 4 * 16;
      WordIdle(dqWidth, role);
      if word != (FULL - dqWidth) * INTERVAL + role * HIGH {
        return false;
      }
      WordIsFaithful(f, Idle(dqWidth).(mid := role));
      WordIdleBarrier(f, dqWidth, tid);
      word := FULL_BIT + IN_BARRIER + tid * 4 + 2 + role * HIGH;
      fields := BarrierSync(f, tid);
      ok := true;
    }

    /** _dispatch_queue_invoke_finish; `barrierNext` is a barrier at the head, whose reservation
        _dispatch_queue_adjust_owned has subtracted from `owned`. */
    method InvokeFinish(owned: nat, barrier: bool, enq: nat, barrierNext: bool)
      requires Valid() && owned <= fields.width && enq <= fields.bits % 2 && (barrier ==> fields.inBarrier)
      modifies this
      ensures Valid() && fields == Finish(old(fields), dqWidth, owned, barrier, enq, barrierNext)
      ensures word / DIRTY % 2 == 1 && word % HIGH / 4 == 0
      ensures word < FULL_BIT && word / MGR % 2 == 0 ==> word % 2 == 1
      ensures word % 2 == 1 && enq == old(word) % 2 ==> word < FULL_BIT && word / MGR % 2 == 0
    {
      hide Encode, Upper, Low, Wrap, Reserve, Released, Runnable, Requeued, Unmasked;
      ghost var f := fields;
      ghost var h := GivenBack(f, dqWidth, owned, barrier, enq, barrierNext);
      WordGivenBack(f, dqWidth, owned, barrier, enq, barrierNext);
      WordReleased(h);
      ghost var r := Released(h);
      WordFlags(r);
      WordSetDirty(r);
      WordEnqueue(r.(dirty := true));
      var given := word - owned * INTERVAL - Bit(barrier) * IN_BARRIER - enq;
      if barrierNext && dqWidth > 1 {
        given := Wrap(given + PENDING + (dqWidth - 1) * INTERVAL);
      }
      var next := Unmasked(given);
      if next / DIRTY % 2 == 0 {
        next := next + DIRTY;
      }
      if next < FULL_BIT && next % 2 == 0 && next / MGR % 2 == 0 {
        next := next + 1;
      }
      word, fields := next, Finish(f, dqWidth, owned, barrier, enq, barrierNext);
      FinishSays(f, dqWidth, owned, barrier, enq, barrierNext);
      FinishedWord(f, fields, enq);
    }

    /** _dispatch_lane_non_barrier_complete_try_lock, on the word `next` that stands for `g`. */
    method TryLockAfter(next: nat, wasDirty: bool, tid: nat, ghost g: DqState) returns (locked: nat)
      requires 0 < dqWidth <= WIDTH_MAX && WellFormed(g) && g.owner == 0 && next == Encode(g)
      requires 0 < tid < 0x4000_0000
      ensures locked == Encode(CompleteTryLock(g, wasDirty, dqWidth, tid))
      ensures WellFormed(CompleteTryLock(g, wasDirty, dqWidth, tid))
    {
      hide Encode, Upper, Low, Wrap, AddWidth, FullWidth;
      WordFlags(g);
      WordFields(g, tid);
      WordBit(g);
      WordFullWidth(g, dqWidth);
      WordTaken(FullWidth(g, dqWidth), tid);
      WordFlags(FullWidth(g, dqWidth));
      var full := if next / PENDING % 2 == 1 then Wrap(Wrap(next - PENDING + INTERVAL) + IN_BARRIER)
                  else Wrap(Wrap(next + dqWidth * INTERVAL) + IN_BARRIER);
      locked := next;
      if full / INTERVAL % FIELD == FULL {
        locked := full - full / DIRTY % 2 * DIRTY + tid * 4;
      } else if wasDirty {
        locked := next + 1 - next % 2;
      }
    }

    /** _dispatch_lane_non_barrier_complete */
    method NonBarrierComplete(tid: nat)
      requires Valid() && 0 < fields.width && 0 < tid < 0x4000_0000
      modifies this
      ensures Valid() && fields == Complete(old(fields), dqWidth, tid)
    {
      hide Encode, Upper, Low, Wrap, AddWidth, FullWidth, CompleteTryLock;
      ghost var f := fields;
      ghost var g := f.(width := f.width - 1);
      WordHalves(f);
      OwnerPart(f);
      WordFlags(f);
      WordGiveBack(f, 1);
      WordTests(g, dqWidth);
      WordFlags(g);
      WordFields(g, tid);
      var next := word - INTERVAL;
      if word % HIGH / 4 != 0 {
        if next / DIRTY % 2 == 0 {
          next := next + DIRTY;
        }
      } else if next < FULL_BIT {
        next := TryLockAfter(next, word / DIRTY % 2 == 1, tid, g);
      }
      word, fields := next, Complete(f, dqWidth, tid);
    }

    /** The lock that _dispatch_lane_resume and _dispatch_lane_push_waiter take for a barrier. */
    method TryTakeBarrier(tid: nat) returns (ok: bool)
      requires Valid() && 0 < tid < 0x4000_0000
      modifies this
      ensures Valid() && ok == CanTakeBarrier(old(fields), dqWidth)
      ensures fields == if ok then TakeBarrier(old(fields), dqWidth, tid) else old(fields)
    {
      hide Encode, Upper, Low, WellFormed, TakeBarrier;
      ghost var f := fields;
      WordHalves(f);
      OwnerPart(f);
      WordTests(f, dqWidth);
      WordFlags(f);
      var upper, lock := word / HIGH, word % HIGH;
      ok := word < FULL_BIT && lock / 4 == 0
            && (word / PENDING % 2 == 1 || word + (dqWidth - 1) * INTERVAL < FULL_BIT);
      if ok {
        WordTakeBarrier(f, dqWidth, tid);
        word := (upper / 64 % 2 * 64 + upper / 16 % 4 * 16 + upper % 8) * HIGH
                + lock % 2 + 2 + tid * 4 + FULL_BIT + IN_BARRIER;
        fields := TakeBarrier(f, dqWidth, tid);
      }
    }

    /** _dispatch_lane_drain_barrier_waiter */
    method HandOverTo(tid: nat, enq: nat)
      requires Valid() && enq <= fields.bits % 2 && 0 < tid < 0x4000_0000
      modifies this
      ensures Valid() && fields == HandOver(old(fields), tid, enq)
    {
      hide Encode, Upper, Low, NoOverride, Unmasked;
      ghost var f := fields;
      WordReleased(f);
      ghost var r := Released(f);
      WordFlags(r);
      WordTaken(r, tid);
      if enq == 1 { WordDequeue(r.(dirty := false, owner := tid)); }
      var next := Unmasked(word);
      next := next - next / DIRTY % 2 * DIRTY + tid * 4 - enq;
      word, fields := next, HandOver(f, tid, enq);
    }

    /** _dispatch_lane_class_barrier_complete; `enqueue`: the queue is woken up at its target. */
    method CompleteBarrier(enqueue: bool, qos: nat)
      requires Valid() && fields.inBarrier && dqWidth <= fields.width && qos < 8
      modifies this
      ensures Valid()
      ensures fields == BarrierComplete(old(fields), dqWidth, enqueue, MergeQos(old(fields).mid, qos))
    {
      hide Encode, Upper, Low, Released, MergeQos, WellFormed, Merged, Unmasked;
      ghost var f := fields;
      ghost var g := f.(width := f.width - dqWidth, inBarrier := false);
      WordHalves(f);
      UpperParts(f);
      WordFlags(f);
      WordClean(f);
      WordBit(f);
      WordManager(f);
      WordGiven(f, dqWidth, true, 0);
      var next := Unmasked(Merged(word - dqWidth * INTERVAL - IN_BARRIER, qos));
      WordMerge(g, qos);
      WordLeft(g.(mid := MergeQos(g.mid, qos)));
      if word / HIGH / 0x80_0000 != 0 {
      } else if enqueue {
        if word % 2 == 0 && word / MGR % 2 == 0 {
          next := next + 1;
        }
      } else if word / DIRTY % 2 == 1 {
        next := word - DIRTY;
      } else {
        next := next - next / HIGH % 8 * HIGH;
      }
      word, fields := next, BarrierComplete(f, dqWidth, enqueue, MergeQos(f.mid, qos));
    }

    /** The end of _dispatch_lane_drain_non_barriers. */
    method FinishNonBarriers(owned: nat, stop: Stop, tid: nat)
      requires Valid() && owned <= fields.width && 0 < tid < 0x4000_0000
      modifies this
      ensures Valid() && fields == NonBarriersDone(old(fields), dqWidth, owned, stop, tid)
    {
      hide Encode, Upper, Low, Wrap, Reserve, Released, CompleteTryLock, Unmasked;
      ghost var f := fields;
      ghost var h := GivenBack(f, dqWidth, owned, false, 0, stop.NextBarrier?);
      ghost var r := Released(h);
      WordGivenBack(f, dqWidth, owned, false, 0, stop.NextBarrier?);
      WordReleased(h);
      ReleasedFields(h);
      WordFlags(f);
      WordFlags(r);
      WordClean(f);
      WordSetDirty(r);
      var given := word - owned * INTERVAL;
      if stop.NextBarrier? && dqWidth > 1 {
        given := Wrap(given + PENDING + (dqWidth - 1) * INTERVAL);
      }
      var next := Unmasked(given);
      if !stop.NoItem? {
        if next / DIRTY % 2 == 0 {
          next := next + DIRTY;
        }
        next := TryLockAfter(next, word / DIRTY % 2 == 1, tid, r.(dirty := true));
      } else if word / DIRTY % 2 == 1 {
        next := word - DIRTY;
      }
      word, fields := next, NonBarriersDone(f, dqWidth, owned, stop, tid);
    }
  }

  lemma WordIdle(w: nat, role: nat)
    requires w <= FULL && role < 0x40
    ensures Encode(Idle(w).(mid := role)) == (FULL - w) * INTERVAL + role * HIGH
  {}

  lemma WordIdleBarrier(f: DqState, w: nat, tid: nat)
    requires w <= FULL && f == Idle(w).(mid := f.mid) && f.mid < 0x40 && tid < 0x4000_0000
    ensures WellFormed(BarrierSync(f, tid))
    ensures Encode(BarrierSync(f, tid)) == FULL_BIT + IN_BARRIER + tid * 4 + 2 + f.mid * HIGH
  {}

  lemma WordBit(g: DqState)
    requires WellFormed(g)
    ensures Encode(g) % 2 == g.bits % 2
  {
    hide Encode, Upper, WellFormed;
    WordHalves(g);
    OwnerPart(g);
    Even(Upper(g), g.owner * 4 + g.bits);
  }

  lemma Even(u: nat, l: nat)
    ensures (u * HIGH + l) % 2 == l % 2
  {
    assert u * HIGH + l == 2 * (u * 0x8000_0000) + l;
  }

  lemma WordTaken(h: DqState, tid: nat)
    requires WellFormed(h) && h.owner == 0 && tid < 0x4000_0000
    ensures Encode(h) >= Bit(h.dirty) * DIRTY
    ensures Encode(h.(dirty := false, owner := tid)) == Encode(h) - Bit(h.dirty) * DIRTY + tid * 4
  {
    hide Encode;
    WordClean(h);
    WordFields(h.(dirty := false), tid);
  }

  /** Single fields changed. */
  lemma WordFields(f: DqState, tid: nat)
    requires WellFormed(f) && tid < 0x4000_0000
    ensures !f.inBarrier ==> Encode(f.(inBarrier := true)) == Encode(f) + IN_BARRIER
    ensures f.owner == 0 ==> Encode(f.(owner := tid)) == Encode(f) + tid * 4
    ensures Encode(f.(bits := f.bits / 2 * 2 + 1)) == Encode(f) + 1 - f.bits % 2
    ensures !f.dirty ==> Encode(f.(dirty := true)) == Encode(f) + DIRTY
  {
    hide WellFormed;
  }

  lemma WordFullWidth(g: DqState, w: nat)
    requires WellFormed(g) && w <= FULL
    ensures WellFormed(FullWidth(g, w)) && FullWidth(g, w).owner == g.owner && FullWidth(g, w).dirty == g.dirty
    ensures g.pending ==> PENDING <= Encode(g)
    ensures g.pending ==> Encode(FullWidth(g, w)) == Wrap(Wrap(Encode(g) - PENDING + INTERVAL) + IN_BARRIER)
    ensures !g.pending ==> Encode(FullWidth(g, w)) == Wrap(Wrap(Encode(g) + w * INTERVAL) + IN_BARRIER)
  {
    hide Encode, Wrap, Low;
    if g.pending {
      var h := g.(pending := false);
      WordClearPending(g);
      WordAdd(h, 1);
      WordAddBarrier(AddWidth(h, 1));
    } else {
      WordAdd(g, w);
      WordAddBarrier(AddWidth(g, w));
    }
  }

  lemma WordAddBarrier(f: DqState)
    requires WellFormed(f)
    ensures WellFormed(AddBarrier(f)) && Encode(AddBarrier(f)) == Wrap(Encode(f) + IN_BARRIER)
  {
    hide Encode, Wrap, Low;
    BarrierCarry(f);
    WordTests(AddBarrier(f), 1);
    WrapOnce(Encode(f) + IN_BARRIER, Encode(AddBarrier(f)));
  }

  lemma BarrierCarry(f: DqState)
    requires WellFormed(f)
    ensures WellFormed(AddBarrier(f))
    ensures Encode(f) + IN_BARRIER == Encode(AddBarrier(f)) || Encode(f) + IN_BARRIER == Encode(AddBarrier(f)) + WORD
  {
    var g := AddBarrier(f);
    assert Low(g) == Low(f);
    hide Low;
    if f.inBarrier {
      assert g.susp == f.susp + 1 || (f.susp == 0x1ff && g.susp == 0);
    }
  }

  /** The word without DISPATCH_QUEUE_DRAIN_UNLOCK_MASK: owner, second lock bit, override. */
  function Unmasked(word: nat): nat {
    var upper, lock := word / HIGH, word % HIGH;
    (upper - upper / 8 % 2 * 8) * HIGH + lock % 2
  }

  lemma OwnerPart(f: DqState)
    requires WellFormed(f)
    ensures (f.owner * 4 + f.bits) / 4 == f.owner && (f.owner * 4 + f.bits) % 2 == f.bits % 2
  {
    Quarters(f.owner, f.bits);
  }

  lemma Quarters(q: nat, r: nat)
    requires r < 4
    ensures (q * 4 + r) / 4 == q && (q * 4 + r) % 2 == r % 2
  {
    Quads(q, r);
    Pair(q * 2, r);
    assert q * 4 + r == q * 2 * 2 + r;
  }

  lemma WordCanDrainLock(f: DqState)
    requires WellFormed(f)
    ensures Encode(f) < FULL_BIT && Encode(f) % HIGH / 4 == 0 && Encode(f) / HIGH / 64 % 2 == 0 <==> CanDrainLock(f)
  {
    hide Encode, Upper;
    WordTests(f, 1);
    WordHalves(f);
    UpperParts(f);
    OwnerPart(f);
  }

  lemma WordDrainLock(f: DqState, w: nat, tid: nat)
    requires WellFormed(f) && CanDrainLock(f) && 0 < w <= FULL && tid < 0x4000_0000
    ensures WellFormed(DrainLock(f, w, tid))
    ensures Encode(DrainLock(f, w, tid))
         == (Encode(f) / HIGH / 16 % 4 * 16 + Encode(f) / HIGH % 8) * HIGH + Encode(f) % HIGH % 2 + tid * 4 + FULL_BIT
            + Bit(f.pending || f.width + w - 1 < FULL) * IN_BARRIER
  {
    hide Encode, Upper, NoOverride, WellFormed;
    WordHalves(f);
    UpperParts(f);
    OwnerPart(f);
    DrainLockFields(f, w, tid);
  }

  lemma DrainLockFields(f: DqState, w: nat, tid: nat)
    requires WellFormed(f) && CanDrainLock(f) && 0 < w <= FULL && tid < 0x4000_0000
    ensures WellFormed(DrainLock(f, w, tid))
    ensures Encode(DrainLock(f, w, tid))
         == (f.mid / 16 * 16 + f.mid % 8) * HIGH + f.bits % 2 + tid * 4 + FULL_BIT
            + Bit(f.pending || f.width + w - 1 < FULL) * IN_BARRIER
  {}

  lemma WordDequeue(f: DqState)
    requires WellFormed(f) && f.bits % 2 == 1
    ensures WellFormed(f.(bits := f.bits - 1)) && Encode(f.(bits := f.bits - 1)) == Encode(f) - 1
  {}

  lemma WordGiven(f: DqState, owned: nat, barrier: bool, enq: nat)
    requires WellFormed(f) && owned <= f.width && enq <= f.bits % 2 && (barrier ==> f.inBarrier)
    ensures var g := f.(width := f.width - owned, inBarrier := f.inBarrier && !barrier, bits := f.bits - enq);
            WellFormed(g) && Encode(g) == Encode(f) - owned * INTERVAL - Bit(barrier) * IN_BARRIER - enq
  {}

  lemma WordReleased(g: DqState)
    requires WellFormed(g)
    ensures WellFormed(Released(g)) && Released(g).bits < 2 && Encode(Released(g)) == Unmasked(Encode(g))
  {
    hide Encode, Upper, NoOverride;
    MidReleased(g.mid);
    UpperReleased(g);
    WordHalves(g);
    WordHalves(Released(g));
    UpperParts(g);
    OwnerPart(g);
  }

  lemma MidReleased(mid: nat)
    requires mid < 0x40
    ensures NoOverride(mid) == mid - mid / 8 % 2 * 8 && NoOverride(mid) < 0x40
  {}

  lemma UpperReleased(g: DqState)
    ensures Upper(Released(g)) == Upper(g) - g.mid + NoOverride(g.mid)
  {
    hide NoOverride;
  }

  /** An unlock's word, before and after the QoS or DIRTY bits are set right. */
  lemma WordUnlock(f: DqState, owned: nat, barrier: bool, enq: nat, done: bool)
    requires WellFormed(f) && owned <= f.width && enq <= f.bits % 2 && (barrier ==> f.inBarrier)
    ensures owned * INTERVAL + Bit(barrier) * IN_BARRIER + enq <= Encode(f)
    ensures WellFormed(Unlock(f, owned, barrier, enq, done))
    ensures var x := Unmasked(Encode(f) - owned * INTERVAL - Bit(barrier) * IN_BARRIER - enq);
            && (f.susp != 0 ==> Encode(Unlock(f, owned, barrier, enq, done)) == x)
            && (f.susp == 0 && done ==>
                  x / HIGH % 8 * HIGH <= x && Encode(Unlock(f, owned, barrier, enq, done)) == x - x / HIGH % 8 * HIGH)
            && (f.susp == 0 && !done && !f.dirty ==> Encode(Unlock(f, owned, barrier, enq, done)) == x + DIRTY)
  {
    hide Encode, Upper, Low, Unmasked, NoQos;
    var g := f.(width := f.width - owned, inBarrier := f.inBarrier && !barrier, bits := f.bits - enq);
    WordGiven(f, owned, barrier, enq);
    WordReleased(g);
    var r := Released(g);
    WordHalves(r);
    UpperParts(r);
    WordDone(r);
  }

  lemma WordDone(r: DqState)
    requires WellFormed(r)
    ensures WellFormed(r.(mid := NoQos(r.mid))) && Encode(r.(mid := NoQos(r.mid))) == Encode(r) - r.mid % 8 * HIGH
    ensures !r.dirty ==> Encode(r.(dirty := true)) == Encode(r) + DIRTY
  {}

  /** Adding PENDING and all but one interval, whether PENDING is set or not. */
  lemma WordReserve(f: DqState, w: nat)
    requires WellFormed(f) && 0 < w <= FULL
    ensures WellFormed(Reserve(f, w))
    ensures Encode(Reserve(f, w)) == Wrap(Encode(f) + PENDING + (w - 1) * INTERVAL)
  {
    hide Encode, Wrap, Low;
    if f.pending {
      WordClearPending(f);
      WordAdd(f.(pending := false), w);
    } else {
      WordPending(f, w);
      WordTests(Reserve(f, w), 1);
      WrapStep(Encode(f) + (w - 1) * INTERVAL, Encode(Reserve(f, w)));
    }
  }

  lemma WordClearPending(f: DqState)
    requires WellFormed(f) && f.pending
    ensures Encode(f.(pending := false)) == Encode(f) - PENDING
  {}

  lemma WrapStep(x: nat, y: nat)
    requires Wrap(x) + PENDING == y < WORD
    ensures Wrap(x + PENDING) == y
  {}

  lemma WordGivenBack(f: DqState, w: nat, owned: nat, barrier: bool, enq: nat, barrierNext: bool)
    requires WellFormed(f) && owned <= f.width && enq <= f.bits % 2 && (barrier ==> f.inBarrier) && 0 < w <= FULL
    ensures WellFormed(GivenBack(f, w, owned, barrier, enq, barrierNext))
    ensures owned * INTERVAL + Bit(barrier) * IN_BARRIER + enq <= Encode(f)
    ensures Encode(GivenBack(f, w, owned, barrier, enq, barrierNext))
         == var x := Encode(f) - owned * INTERVAL - Bit(barrier) * IN_BARRIER - enq;
            if barrierNext && w > 1 then Wrap(x + PENDING + (w - 1) * INTERVAL) else x
  {
    hide Encode, Wrap, Low, Reserve;
    WordGiven(f, owned, barrier, enq);
    WordReserve(f.(width := f.width - owned, inBarrier := f.inBarrier && !barrier, bits := f.bits - enq), w);
  }

  lemma WordSetDirty(r: DqState)
    requires WellFormed(r)
    ensures WellFormed(r.(dirty := true))
    ensures Encode(r.(dirty := true)) == Encode(r) + Bit(!r.dirty) * DIRTY
  {
    WordFields(r, 0);
    hide Encode;
  }

  /** When a word is runnable and not enqueued, and what enqueuing makes of it. */
  lemma WordEnqueue(r: DqState)
    requires WellFormed(r) && r.bits < 2
    ensures Encode(r) < FULL_BIT && Encode(r) % 2 == 0 && Encode(r) / MGR % 2 == 0
       <==> Runnable(r) && r.bits == 0 && !r.mgr
    ensures r.bits == 0 ==> WellFormed(r.(bits := 1)) && Encode(r.(bits := 1)) == Encode(r) + 1
  {
    hide Encode, Upper;
    WordTests(r, 1);
    WordBit(r);
    WordFields(r, 0);
    WordManager(r);
  }

  lemma WordManager(r: DqState)
    requires WellFormed(r)
    ensures Encode(r) / MGR % 2 == Bit(r.mgr)
  {
    hide Encode, Upper;
    WordHalves(r);
    UpperParts(r);
    HighDigit(Encode(r));
  }

  lemma HighDigit(x: nat)
    ensures x / MGR == x / HIGH / 64
  {}

  lemma WordTakeBarrier(f: DqState, w: nat, tid: nat)
    requires WellFormed(f) && CanTakeBarrier(f, w) && 0 < w <= FULL && tid < 0x4000_0000
    ensures var upper := Encode(f) / HIGH;
            && WellFormed(TakeBarrier(f, w, tid))
            && Encode(TakeBarrier(f, w, tid))
            == (upper / 64 % 2 * 64 + upper / 16 % 4 * 16 + upper % 8) * HIGH + Encode(f) % HIGH % 2 + 2 + tid * 4
               + FULL_BIT + IN_BARRIER
  {
    hide Encode, Upper, NoOverride, WellFormed;
    WordHalves(f);
    UpperParts(f);
    OwnerPart(f);
    TakeBarrierFields(f, w, tid);
  }

  lemma TakeBarrierFields(f: DqState, w: nat, tid: nat)
    requires WellFormed(f) && CanTakeBarrier(f, w) && 0 < w <= FULL && tid < 0x4000_0000
    ensures WellFormed(TakeBarrier(f, w, tid))
    ensures Encode(TakeBarrier(f, w, tid))
         == (Bit(f.mgr) * 64 + f.mid / 16 * 16 + f.mid % 8) * HIGH + f.bits % 2 + 2 + tid * 4 + FULL_BIT + IN_BARRIER
  {}

  /** _dq_state_merge_qos on the word. */
  function Merged(word: nat, qos: nat): nat {
    var upper := word / HIGH;
    if upper % 8 < qos then
      var raised := word + (qos - upper % 8) * HIGH;
      if upper / 16 % 4 == 1 && upper / 8 % 2 == 0 then raised + 8 * HIGH else raised
    else word
  }

  lemma WordMerge(f: DqState, qos: nat)
    requires WellFormed(f) && qos < 8
    ensures MergeQos(f.mid, qos) < 0x40 && WellFormed(f.(mid := MergeQos(f.mid, qos)))
    ensures Encode(f.(mid := MergeQos(f.mid, qos))) == Merged(Encode(f), qos)
  {
    hide Encode, Upper;
    WordHalves(f);
    UpperParts(f);
    MidParts(f.mid);
    var mid := MergeQos(f.mid, qos);
    WordMid(f, mid);
  }

  lemma WordMid(f: DqState, mid: nat)
    ensures Encode(f.(mid := mid)) == Encode(f) + (mid - f.mid) * HIGH
  {}

  lemma WordLeft(h: DqState)
    requires WellFormed(h)
    ensures var r := Released(h); WellFormed(r) && Encode(r) == Unmasked(Encode(h))
    ensures var r := Released(h);
            h.bits % 2 == 0 ==> WellFormed(r.(bits := 1)) && Encode(r.(bits := 1)) == Encode(r) + 1
    ensures var r := Released(h); WellFormed(r.(mid := NoQos(r.mid)))
    ensures var r := Released(h); Encode(r.(mid := NoQos(r.mid))) == Encode(r) - Encode(r) / HIGH % 8 * HIGH
  {
    hide Encode, Upper, Low, Unmasked, NoQos;
    WordReleased(h);
    var r := Released(h);
    WordHalves(r);
    UpperParts(r);
    WordDone(r);
    WordFields(r, 0);
  }

  lemma ReleasedFields(h: DqState)
    ensures Released(h) == h.(owner := 0, mid := Released(h).mid, bits := h.bits % 2)
  {}

  /** What the word's bits and comparisons say, all together. */
  lemma WordSays(f: DqState)
    requires WellFormed(f)
    ensures Encode(f) / DIRTY % 2 == Bit(f.dirty) && Encode(f) / MGR % 2 == Bit(f.mgr)
    ensures Encode(f) % HIGH / 4 == f.owner && Encode(f) % 2 == LowBit(f.bits)
    ensures Encode(f) < FULL_BIT <==> Runnable(f)
  {
    hide Encode, Upper;
    WordFlags(f);
    WordManager(f);
    WordBit(f);
    WordTests(f, 1);
    WordHalves(f);
    OwnerPart(f);
  }

  /** A requeued queue has news for the next drainer and no owner.  It is enqueued if it can run, and if the
      drainer's own place on the list is given up, only then. */
  predicate Requeued(f: DqState, t: DqState, enq: nat) {
    && t.dirty && t.owner == 0 && (Runnable(t) && !t.mgr ==> LowBit(t.bits) == 1)
    && (LowBit(t.bits) == 1 && enq == LowBit(f.bits) ==> Runnable(t) && !t.mgr)
  }

  lemma FinishSays(f: DqState, w: nat, owned: nat, barrier: bool, enq: nat, next: bool)
    requires owned <= f.width < FIELD && 0 < w <= FULL && enq <= LowBit(f.bits)
    ensures Requeued(f, Finish(f, w, owned, barrier, enq, next), enq)
  {
    hide LowBit, GivenBack, NoOverride;
    SameBit(f.bits, enq);
    GivenBackBits(f, w, owned, barrier, enq, next);
  }

  lemma FinishedWord(f: DqState, t: DqState, enq: nat)
    requires WellFormed(f) && WellFormed(t) && Requeued(f, t, enq)
    ensures var x := Encode(t);
            && x / DIRTY % 2 == 1 && x % HIGH / 4 == 0
            && (x < FULL_BIT && x / MGR % 2 == 0 ==> x % 2 == 1)
            && (x % 2 == 1 && enq == Encode(f) % 2 ==> x < FULL_BIT && x / MGR % 2 == 0)
  {
    hide Encode, LowBit, Runnable, WellFormed;
    WordSays(f);
    WordSays(t);
  }

  lemma GivenBackBits(f: DqState, w: nat, owned: nat, barrier: bool, enq: nat, next: bool)
    requires owned <= f.width < FIELD && 0 < w <= FULL && enq <= f.bits
    ensures GivenBack(f, w, owned, barrier, enq, next).bits == f.bits - enq
  {}

  lemma SameBit(b: nat, enq: nat)
    requires enq <= LowBit(b)
    ensures enq <= b && (enq == LowBit(b) ==> LowBit(b - enq) == 0)
    ensures LowBit(0) == 0 && LowBit(1) == 1 && (LowBit(b - enq) == 0 || LowBit(b - enq) == 1)
  {}
}
