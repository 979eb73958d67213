/** Threads allocating and freeing continuations, and advising the system of free pages.  Every atomic
    operation on a bitmap or supermap word is one step.  Page 0 is the magazine's first page, whose bitmaps
    have no supermap and whose memory is never given back. */
module AllocProtocol {
  import opened Options

  /** A bitmap: the i-th of page p. */
  datatype Cell = Cell(p: nat, i: nat)

  datatype Slot = Slot(c: Cell, k: nat)

  /** Who accounts for a set bit: a client, a thread inside alloc or free, or one that locked the bitmap. */
  datatype Owner = Client | Worker(t: nat) | Locker(t: nat)

  datatype Phase =
    | Idle
    | Check(s: Slot)                  // bit set; about to see whether the bitmap is full
    | Mark(s: Slot)                   // it was; about to set the supermap bit
    | Freeing(s: Slot)                // about to clear the bit
    | Unmark(c: Cell, empty: bool)    // about to clear the supermap bit
    | Scan(p: nat, j: nat)            // bitmaps below j of the page were seen empty
    | Lock(p: nat, j: nat)            // bitmaps below j of the page are locked
    | Advise(p: nat)                  // all are
    | Unlock(p: nat, j: nat)          // bitmaps below j are still locked

  /** `w` bits to a bitmap, `per` bitmaps to each of `pages` pages but the first, which has `first`, the
      last of them with only `rest` continuations behind it. */
  datatype Shape = Shape(w: nat, per: nat, pages: nat, first: nat, rest: nat)

  /** How many bits of a bitmap are in use. */
  function Limit(z: Shape, c: Cell): nat { if c.p == 0 && c.i + 1 == z.first then z.rest else z.w }

  predicate In(z: Shape, c: Cell) { if c.p == 0 then c.i < z.first else c.p < z.pages && c.i < z.per }

  /** `owner` is bookkeeping that no thread reads. */
  datatype State = State(
    z: Shape, maps: map<Cell, set<nat>>, super: set<Cell>, threads: seq<Phase>, owner: map<Slot, Owner>,
    crashed: bool)

  /** All ones. */
  function Full(w: nat): (bits: set<nat>)
    ensures forall k: nat :: k in bits <==> k < w
  {
    if w == 0 then {} else Full(w - 1) + {w - 1}
  }

  datatype Label =
    | SetBit(t: nat, s: Slot)         // os_atomic_set_first_bit found this one
    | See(t: nat)                     // mark_bitmap_as_full_if_still_full looks at the bitmap
    | SetSuper(t: nat, done: bool)    // its compare-and-swap, which may fail and start over
    | BeginFree(t: nat, s: Slot)      // a client frees a slot: the exclusive check
    | ClearBit(t: nat)
    | ClearSuper(t: nat)
    | Look(t: nat)                    // at the next bitmap of the page
    | TryLock(t: nat)                 // compare-and-swap of the next bitmap from 0 to all ones
    | Madvise(t: nat)
    | UnlockOne(t: nat)

  predicate FirstUnset(bits: set<nat>, w: nat, k: nat) {
    k < w && k !in bits && forall j: nat :: j < k ==> j in bits
  }

  /** Who accounts for a slot, if anybody. */
  function Entry(s: State, x: Slot): Option<Owner> { if x in s.owner then Some(s.owner[x]) else None }

  function Bits(s: State, c: Cell): set<nat> { if c in s.maps then s.maps[c] else {} }

  ghost predicate Enabled(s: State, l: Label) {
    l.t < |s.threads| &&
    var ph := s.threads[l.t];
    match l
    case SetBit(t, x) => ph.Idle? && x.c in s.maps && FirstUnset(s.maps[x.c], Limit(s.z, x.c), x.k)
    case See(t) => ph.Check?
    case SetSuper(t, _) => ph.Mark?
    case BeginFree(t, x) => ph.Idle? && Entry(s, x) == Some(Client)
    case ClearBit(t) => ph.Freeing?
    case ClearSuper(t) => ph.Unmark?
    case Look(t) => ph.Scan?
    case TryLock(t) => ph.Lock?
    case Madvise(t) => ph.Advise?
    case UnlockOne(t) => ph.Unlock?
  }

  function Go(s: State, t: nat, ph: Phase): State
    requires t < |s.threads|
  {
    s.(threads := s.threads[t := ph])
  }

  function Owned(s: State, x: Slot, o: Owner): State { s.(owner := s.owner[x := o]) }

  function Store(s: State, c: Cell, bits: set<nat>): State { s.(maps := s.maps[c := bits]) }

  function DoSetBit(s: State, t: nat, x: Slot): State
    requires t < |s.threads|
  {
    var s := Store(s, x.c, Bits(s, x.c) + {x.k});
    if x.c.p == 0 then Owned(s, x, Client) else Go(Owned(s, x, Worker(t)), t, Check(x))
  }

  function DoSee(s: State, t: nat, x: Slot): State
    requires t < |s.threads|
  {
    if Bits(s, x.c) == Full(s.z.w) then Go(s, t, Mark(x)) else Go(Owned(s, x, Client), t, Idle)
  }

  function DoSetSuper(s: State, t: nat, x: Slot, done: bool): State
    requires t < |s.threads|
  {
    if done then Go(Owned(s, x, Client).(super := s.super + {x.c}), t, Idle) else Go(s, t, Check(x))
  }

  function DoBeginFree(s: State, t: nat, x: Slot): State
    requires t < |s.threads|
  {
    if x.k !in Bits(s, x.c) then s.(crashed := true) else Go(Owned(s, x, Worker(t)), t, Freeing(x))
  }

  function DoClearBit(s: State, t: nat, x: Slot): State
    requires t < |s.threads|
  {
    var left := Bits(s, x.c) - {x.k};
    Go(Store(s, x.c, left).(owner := s.owner - {x}), t, if x.c.p == 0 then Idle else Unmark(x.c, left == {}))
  }

  /** The slots of a bitmap. */
  function Slots(c: Cell, w: nat): (xs: set<Slot>)
    ensures forall x :: x in xs <==> x.c == c && x.k < w
  {
    if w == 0 then {} else Slots(c, w - 1) + {Slot(c, w - 1)}
  }

  function LockAll(s: State, t: nat, c: Cell): State {
    Store(s, c, Full(s.z.w)).(owner := map x | x in s.owner.Keys + Slots(c, s.z.w) ::
                                if x.c == c then Locker(t) else s.owner[x])
  }

  function DoTryLock(s: State, t: nat, p: nat, j: nat): State
    requires t < |s.threads|
  {
    var c := Cell(p, j);
    if Bits(s, c) != {} then Go(s, t, Unlock(p, j))
    else
      Go(LockAll(s, t, c), t,
         if j + 1 < s.z.per then Lock(p, j + 1) else Advise(p))
  }

  function DoUnlockOne(s: State, t: nat, p: nat, j: nat): State
    requires t < |s.threads|
  {
    if j == 0 then Go(s, t, Idle)
    else
      var c := Cell(p, j - 1);
      Go(Store(s, c, {}).(owner := map x | x in s.owner && x.c != c :: s.owner[x]), t, Unlock(p, j - 1))
  }

  function Step(s: State, l: Label): State
    requires Enabled(s, l)
  {
    var ph := s.threads[l.t];
    match l
    case SetBit(t, x) => DoSetBit(s, t, x)
    case See(t) => DoSee(s, t, ph.s)
    case SetSuper(t, done) => DoSetSuper(s, t, ph.s, done)
    case BeginFree(t, x) => DoBeginFree(s, t, x)
    case ClearBit(t) => DoClearBit(s, t, ph.s)
    case ClearSuper(t) => Go(s.(super := s.super - {ph.c}), t, if ph.empty then Scan(ph.c.p, 0) else Idle)
    case Look(t) =>
      Go(s, t, if Bits(s, Cell(ph.p, ph.j)) != {} then Idle
               else if ph.j + 1 < s.z.per then Scan(ph.p, ph.j + 1) else Lock(ph.p, 0))
    case TryLock(t) => DoTryLock(s, t, ph.p, ph.j)
    case Madvise(t) => Go(s, t, Unlock(ph.p, s.z.per))
    case UnlockOne(t) => DoUnlockOne(s, t, ph.p, ph.j)
  }

  // ---- the invariant ------------------------------------------------------------------------

  /** The slot a thread is busy with. */
  predicate Carries(ph: Phase, x: Slot) { (ph.Check? || ph.Mark? || ph.Freeing?) && ph.s == x }

  /** The thread has this bitmap locked. */
  predicate Locks(ph: Phase, c: Cell) {
    match ph
    case Lock(p, j) => c.p == p && c.i < j
    case Advise(p) => c.p == p
    case Unlock(p, j) => c.p == p && c.i < j
    case _ => false
  }

  predicate InPage(z: Shape, ph: Phase) {
    match ph
    case Check(x) => In(z, x.c) && x.c.p > 0
    case Mark(x) => In(z, x.c) && x.c.p > 0
    case Freeing(x) => In(z, x.c)
    case Unmark(c, _) => In(z, c) && c.p > 0
    case Scan(p, j) => 0 < p < z.pages && j < z.per
    case Lock(p, j) => 0 < p < z.pages && j < z.per
    case Advise(p) => 0 < p < z.pages
    case Unlock(p, j) => 0 < p < z.pages && j <= z.per
    case Idle => true
  }

  /** The bitmaps that exist, and only bits in use in them. */
  ghost predicate ShapeInv(s: State) {
    && s.z.w > 0 && s.z.per > 0 && s.z.rest <= s.z.w
    && (forall c :: c in s.maps <==> In(s.z, c))
    && (forall c, k :: c in s.maps && k in s.maps[c] ==> k < Limit(s.z, c))
  }

  ghost predicate PhaseInv(s: State) { forall t :: 0 <= t < |s.threads| ==> InPage(s.z, s.threads[t]) }

  /** Set bits are exactly the slots that somebody accounts for. */
  ghost predicate BitsInv(s: State) { forall x :: Entry(s, x).Some? <==> x.k in Bits(s, x.c) }

  predicate Locked(s: State, t: nat, x: Slot)
    requires t < |s.threads|
  {
    Locks(s.threads[t], x.c) && In(s.z, x.c) && x.k < s.z.w
  }

  /** Thread t accounts for what it carries and for all of what it has locked. */
  ghost predicate ThreadInv(s: State, t: nat)
    requires t < |s.threads|
  {
    forall x :: (Entry(s, x) == Some(Worker(t)) <==> Carries(s.threads[t], x))
             && (Entry(s, x) == Some(Locker(t)) <==> Locked(s, t, x))
  }

  predicate Exists(o: Owner, n: nat) { o.Client? || o.t < n }

  ghost predicate ThreadsInv(s: State) {
    && (forall t: nat :: t < |s.threads| ==> ThreadInv(s, t))
    && (forall x :: Entry(s, x).Some? ==> Exists(Entry(s, x).value, |s.threads|))
  }

  ghost predicate Inv(s: State) {
    ShapeInv(s) && PhaseInv(s) && BitsInv(s) && ThreadsInv(s) && !s.crashed
  }

  // ---- each step keeps it -------------------------------------------------------------------

  predicate Mine(e: Option<Owner>, t: nat) {
    e == None || e == Some(Client) || e == Some(Worker(t)) || e == Some(Locker(t))
  }

  /** Thread t changed only entries that were and are its own, the clients' or nobody's. */
  ghost predicate Touches(s: State, s': State, t: nat) {
    && s'.z == s.z && |s'.threads| == |s.threads|
    && (forall u :: 0 <= u < |s.threads| && u != t ==> s'.threads[u] == s.threads[u])
    && (forall x :: Entry(s', x) == Entry(s, x) || (Mine(Entry(s, x), t) && Mine(Entry(s', x), t)))
  }

  lemma OthersKept(s: State, s': State, t: nat, u: nat)
    requires ThreadsInv(s) && Touches(s, s', t) && u < |s.threads| && u != t
    ensures ThreadInv(s', u)
  {
    assert ThreadInv(s, u);
  }

  lemma ThreadsFrame(s: State, s': State, t: nat)
    requires ThreadsInv(s) && Touches(s, s', t) && t < |s.threads| && ThreadInv(s', t)
    ensures ThreadsInv(s')
  {
    hide ThreadInv;
    forall u: nat | u < |s'.threads| ensures ThreadInv(s', u) {
      if u != t { OthersKept(s, s', t, u); }
    }
  }

  lemma SetBitKeepsInv(s: State, t: nat, x: Slot)
    requires Inv(s) && Enabled(s, SetBit(t, x))
    ensures Inv(DoSetBit(s, t, x))
  {
    var s' := DoSetBit(s, t, x);
    assert ThreadInv(s, t);
    assert Touches(s, s', t);
    ThreadsFrame(s, s', t);
  }

  lemma BeginFreeKeepsInv(s: State, t: nat, x: Slot)
    requires Inv(s) && Enabled(s, BeginFree(t, x))
    ensures Inv(DoBeginFree(s, t, x)) && x.k in Bits(s, x.c)
  {
    var s' := DoBeginFree(s, t, x);
    assert ThreadInv(s, t) && x.k in Bits(s, x.c);
    assert Touches(s, s', t);
    ThreadsFrame(s, s', t);
  }

  lemma MarkKeepsInv(s: State, t: nat, x: Slot, done: bool)
    requires Inv(s) && t < |s.threads|
    ensures s.threads[t] == Check(x) ==> Inv(DoSee(s, t, x))
    ensures s.threads[t] == Mark(x) ==> Inv(DoSetSuper(s, t, x, done))
  {
    assert ThreadInv(s, t);
    if s.threads[t] == Check(x) {
      var s' := DoSee(s, t, x);
      assert Touches(s, s', t);
      ThreadsFrame(s, s', t);
    }
    if s.threads[t] == Mark(x) {
      var s' := DoSetSuper(s, t, x, done);
      assert Touches(s, s', t);
      ThreadsFrame(s, s', t);
    }
  }

  lemma ClearBitKeepsInv(s: State, t: nat, x: Slot)
    requires Inv(s) && t < |s.threads| && s.threads[t] == Freeing(x)
    ensures Inv(DoClearBit(s, t, x))
  {
    var s' := DoClearBit(s, t, x);
    assert ThreadInv(s, t);
    assert Touches(s, s', t);
    ThreadsFrame(s, s', t);
  }

  /** Steps that change only where the thread is, and perhaps supermap bits. */
  lemma GoKeepsInv(s: State, s': State, t: nat)
    requires Inv(s) && t < |s.threads| == |s'.threads| && InPage(s.z, s'.threads[t])
    requires forall x :: Locks(s'.threads[t], x) && In(s.z, x) <==> Locks(s.threads[t], x) && In(s.z, x)
    requires forall x :: Carries(s'.threads[t], x) <==> Carries(s.threads[t], x)
    requires s' == Go(s, t, s'.threads[t]).(super := s'.super)
    ensures Inv(s')
  {
    assert ThreadInv(s, t);
    assert Touches(s, s', t);
    ThreadsFrame(s, s', t);
  }

  lemma LockAllEntries(s: State, t: nat, c: Cell)
    requires BitsInv(s) && Bits(s, c) == {}
    ensures var s' := LockAll(s, t, c);
      forall x :: Entry(s', x) == if x.c == c && x.k < s.z.w then Some(Locker(t)) else Entry(s, x)
  {
    assert forall x: Slot :: x.c == c ==> Entry(s, x) == None;
  }

  lemma TryLockThreads(s: State, t: nat, p: nat, j: nat)
    requires Inv(s) && t < |s.threads| && s.threads[t] == Lock(p, j)
    ensures ThreadsInv(DoTryLock(s, t, p, j))
  {
    hide ShapeInv;
    var c, s' := Cell(p, j), DoTryLock(s, t, p, j);
    assert ThreadInv(s, t);
    if Bits(s, c) == {} {
      LockAllEntries(s, t, c);
      assert forall x :: Entry(s', x) == Entry(LockAll(s, t, c), x);
    }
    assert Touches(s, s', t);
    ThreadsFrame(s, s', t);
  }

  lemma TryLockKeepsInv(s: State, t: nat, p: nat, j: nat)
    requires Inv(s) && t < |s.threads| && s.threads[t] == Lock(p, j)
    ensures Inv(DoTryLock(s, t, p, j))
  {
    hide ThreadsInv;
    TryLockThreads(s, t, p, j);
    if Bits(s, Cell(p, j)) == {} { LockAllEntries(s, t, Cell(p, j)); }
  }

  lemma UnlockOneThreads(s: State, t: nat, p: nat, j: nat)
    requires Inv(s) && t < |s.threads| && s.threads[t] == Unlock(p, j)
    ensures ThreadsInv(DoUnlockOne(s, t, p, j))
  {
    var s' := DoUnlockOne(s, t, p, j);
    assert ThreadInv(s, t);
    assert Touches(s, s', t);
    ThreadsFrame(s, s', t);
  }

  lemma UnlockOneKeepsInv(s: State, t: nat, p: nat, j: nat)
    requires Inv(s) && t < |s.threads| && s.threads[t] == Unlock(p, j)
    ensures Inv(DoUnlockOne(s, t, p, j))
  {
    hide ThreadsInv;
    UnlockOneThreads(s, t, p, j);
  }

  lemma StepKeepsInv(s: State, l: Label)
    requires Inv(s) && Enabled(s, l)
    ensures Inv(Step(s, l)) && |Step(s, l).threads| == |s.threads|
  {
    hide ShapeInv, BitsInv, ThreadsInv;
    var ph := s.threads[l.t];
    match l
    case SetBit(t, x) => SetBitKeepsInv(s, t, x);
    case See(t) => MarkKeepsInv(s, t, ph.s, true);
    case SetSuper(t, done) => MarkKeepsInv(s, t, ph.s, done);
    case BeginFree(t, x) => BeginFreeKeepsInv(s, t, x);
    case ClearBit(t) => ClearBitKeepsInv(s, t, ph.s);
    case ClearSuper(t) => GoKeepsInv(s, Step(s, l), t);
    case Look(t) => GoKeepsInv(s, Step(s, l), t);
    case TryLock(t) => TryLockKeepsInv(s, t, ph.p, ph.j);
    case Madvise(t) => GoKeepsInv(s, Step(s, l), t);
    case UnlockOne(t) => UnlockOneKeepsInv(s, t, ph.p, ph.j);
  }

  // ---- set supermap bits are cleared again --------------------------------------------------

  predicate Handed(s: State, x: Slot) { Entry(s, x).Some? && !Entry(s, x).value.Locker? }

  predicate Clearing(ph: Phase, c: Cell) { ph.Unmark? && ph.c == c }

  /** A slot of the bitmap is handed out, or a thread that freed one has yet to clear the supermap bit. */
  ghost predicate Backed(s: State, c: Cell) {
    || (exists x :: Handed(s, x) && x.c == c)
    || (exists t :: 0 <= t < |s.threads| && Clearing(s.threads[t], c))
  }

  ghost predicate SuperInv(s: State) { forall c :: c in s.super ==> c.p > 0 && Backed(s, c) }

  /** A step leaves a bitmap's backing in place: its handed-out slots and the threads clearing its bit. */
  lemma BackingKept(s: State, s': State, t: nat, c: Cell)
    requires Backed(s, c) && t < |s.threads| == |s'.threads|
    requires forall u :: 0 <= u < |s.threads| && u != t ==> s'.threads[u] == s.threads[u]
    requires Clearing(s.threads[t], c) ==> Backed(s', c)
    requires forall x :: Handed(s, x) && x.c == c ==> Handed(s', x) || Clearing(s'.threads[t], c)
    ensures Backed(s', c)
  {
    if u :| 0 <= u < |s.threads| && Clearing(s.threads[u], c) {
      if u != t { assert Clearing(s'.threads[u], c); }
    } else {
      var x :| Handed(s, x) && x.c == c;
      assert Handed(s', x) || Clearing(s'.threads[t], c);
    }
  }

  /** Bitmaps that are being locked or unlocked have no slot handed out. */
  lemma LockedIsNotHanded(s: State, t: nat, x: Slot)
    requires Inv(s) && t < |s.threads| && Handed(s, x)
    ensures !Locks(s.threads[t], x.c)
    ensures x.k in Bits(s, x.c)
  {
    assert ThreadInv(s, t);
  }

  lemma StepKeepsSuper(s: State, l: Label)
    requires Inv(s) && SuperInv(s) && Enabled(s, l)
    ensures SuperInv(Step(s, l))
  {
    hide Inv, Backed;
    var s', t := Step(s, l), l.t;
    forall c | c in s'.super ensures c.p > 0 && Backed(s', c) {
      if c in s.super {
        StepKeepsBacking(s, l, c);
      } else {
        NewlyMarked(s, t);
        MarkedIsBacked(s', s.threads[t].s);
      }
    }
  }

  lemma NewlyMarked(s: State, t: nat)
    requires Inv(s) && t < |s.threads| && s.threads[t].Mark?
    ensures s.threads[t].s.c.p > 0
  {}

  lemma MarkedIsBacked(s: State, x: Slot)
    requires Handed(s, x)
    ensures Backed(s, x.c)
  {}

  lemma HandedKept(s: State, l: Label, x: Slot)
    requires Inv(s) && Enabled(s, l) && Handed(s, x) && x.c.p > 0
    ensures Handed(Step(s, l), x) || Clearing(Step(s, l).threads[l.t], x.c)
  {
    hide Inv, FirstUnset;
    LockedIsNotHanded(s, l.t, x);
  }

  lemma StepKeepsBacking(s: State, l: Label, c: Cell)
    requires Inv(s) && Enabled(s, l) && c in s.super && c in Step(s, l).super && c.p > 0 && Backed(s, c)
    ensures Backed(Step(s, l), c)
  {
    hide Backed, Inv, Handed, FirstUnset, Bits, Entry;
    var s', t := Step(s, l), l.t;
    forall x | Handed(s, x) && x.c == c ensures Handed(s', x) || Clearing(s'.threads[t], c) {
      HandedKept(s, l, x);
    }
    BackingKept(s, s', t, c);
  }
}
