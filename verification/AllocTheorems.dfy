/** What the allocator's threads can rely on, in every interleaving of allocs, frees and page advice. */
module AllocTheorems {
  import opened AllocProtocol
  import opened Options

  /** A magazine just mapped, and any number of threads. */
  ghost predicate Start(s: State) {
    && s.z.w > 0 && s.z.per > 0 && s.z.rest <= s.z.w && !s.crashed
    && (forall c :: c in s.maps <==> In(s.z, c))
    && (forall c :: c in s.maps ==> s.maps[c] == {})
    && |s.super| == 0 && |s.owner| == 0
    && (forall t :: 0 <= t < |s.threads| ==> s.threads[t].Idle?)
  }

  ghost predicate Run(s: State, ls: seq<Label>, t: State)
    decreases |ls|
  {
    if |ls| == 0 then t == s
    else
      var k := |ls| - 1;
      exists m :: Run(s, ls[..k], m) && Enabled(m, ls[k]) && t == Step(m, ls[k])
  }

  lemma {:induction false} RunKeepsInv(s: State, ls: seq<Label>, t: State)
    requires Inv(s) && SuperInv(s) && Run(s, ls, t)
    ensures Inv(t) && SuperInv(t)
    decreases |ls|
  {
    hide Inv, SuperInv, Enabled, Step;
    if |ls| > 0 {
      var k := |ls| - 1;
      var m :| Run(s, ls[..k], m) && Enabled(m, ls[k]) && t == Step(m, ls[k]);
      RunKeepsInv(s, ls[..k], m);
      StepKeepsInv(m, ls[k]);
      StepKeepsSuper(m, ls[k]);
    }
  }

  lemma StartInv(s: State)
    requires Start(s)
    ensures Inv(s) && SuperInv(s)
  {
    assert s.owner.Keys == {} by { assert |s.owner.Keys| == 0; }
    assert forall x :: Entry(s, x) == None;
  }

  ghost predicate Reachable(s: State) { exists s0, ls :: Start(s0) && Run(s0, ls, s) }

  lemma ReachableInv(s: State)
    requires Reachable(s)
    ensures Inv(s) && SuperInv(s)
  {
    hide Inv, SuperInv, Start, Run;
    var s0, ls :| Start(s0) && Run(s0, ls, s);
    StartInv(s0);
    RunKeepsInv(s0, ls, s);
  }

  /** A slot an allocation takes is nobody's: not a client's, not another thread's, not locked away. */
  lemma NoSlotTwice(s: State, t: nat, x: Slot)
    requires Reachable(s) && Enabled(s, SetBit(t, x))
    ensures Entry(s, x) == None && Entry(Step(s, SetBit(t, x)), x).Some?
  {
    hide Reachable;
    ReachableInv(s);
  }

  /** Each set bit is one slot handed out (to a client, or carried by exactly the thread that says so), or
      belongs to a bitmap that exactly one thread has locked. */
  lemma SetBitsAreAccountedFor(s: State, x: Slot, t: nat)
    requires Reachable(s)
    ensures x.k in Bits(s, x.c) <==> Entry(s, x).Some?
    ensures t < |s.threads| ==> (Carries(s.threads[t], x) <==> Entry(s, x) == Some(Worker(t)))
    ensures t < |s.threads| ==> (Locked(s, t, x) <==> Entry(s, x) == Some(Locker(t)))
  {
    hide Reachable;
    ReachableInv(s);
    if t < |s.threads| { assert ThreadInv(s, t); }
  }

  /** When a page is advised, all its bitmaps are held by the advising thread, so that no slot of it is
      handed out, and none can be. */
  lemma AdvisedPagesAreIdle(s: State, t: nat, i: nat, k: nat)
    requires Reachable(s) && Enabled(s, Madvise(t)) && i < s.z.per && k < s.z.w
    ensures var x := Slot(Cell(s.threads[t].p, i), k);
            s.threads[t].p > 0 && k in Bits(s, x.c) && Entry(s, x) == Some(Locker(t))
  {
    hide Reachable;
    ReachableInv(s);
    assert ThreadInv(s, t);
    assert Locked(s, t, Slot(Cell(s.threads[t].p, i), k));
  }

  /** Unlocking, after advice or after giving up half way, clears only bitmaps this thread had locked. */
  lemma OnlyOwnLocksAreCleared(s: State, t: nat, k: nat)
    requires Reachable(s) && Enabled(s, UnlockOne(t)) && s.threads[t].j > 0 && k < s.z.w
    ensures var x := Slot(Cell(s.threads[t].p, s.threads[t].j - 1), k);
            k in Bits(s, x.c) && Entry(s, x) == Some(Locker(t))
  {
    hide Reachable;
    ReachableInv(s);
    assert ThreadInv(s, t);
    assert Locked(s, t, Slot(Cell(s.threads[t].p, s.threads[t].j - 1), k));
  }

  /** Freeing what a client holds never finds the bit cleared. */
  lemma ExclusiveClearNeverCrashes(s: State, t: nat, x: Slot)
    requires Reachable(s)
    ensures !s.crashed
    ensures Enabled(s, BeginFree(t, x)) ==> !Step(s, BeginFree(t, x)).crashed
    ensures Enabled(s, ClearBit(t)) ==> s.threads[t].s.k in Bits(s, s.threads[t].s.c)
  {
    hide Reachable;
    ReachableInv(s);
    if Enabled(s, ClearBit(t)) { assert ThreadInv(s, t) && Carries(s.threads[t], s.threads[t].s); }
  }

  /** The number of a continuation of the first page, and how many there are. */
  function FirstPageIndex(z: Shape, x: Slot): int { x.c.i * z.w + x.k }

  function FirstPageCount(z: Shape): int { (z.first - 1) * z.w + z.rest }

  /** A thread can take exactly the first free slot of any bitmap, if there is a continuation behind it. */
  lemma WhatCanBeTaken(s: State, t: nat, x: Slot)
    requires Reachable(s)
    ensures Enabled(s, SetBit(t, x)) <==>
            && t < |s.threads| && s.threads[t].Idle? && FirstUnset(Bits(s, x.c), s.z.w, x.k)
            && if x.c.p == 0 then x.c.i < s.z.first && FirstPageIndex(s.z, x) < FirstPageCount(s.z)
               else x.c.p < s.z.pages && x.c.i < s.z.per
  {
    hide Reachable, FirstPageIndex, FirstPageCount;
    ReachableInv(s);
    if x.c.p == 0 && x.c.i < s.z.first && x.k < s.z.w { IndexFits(s.z, x); }
  }

  lemma IndexFits(z: Shape, x: Slot)
    requires x.c.p == 0 && x.c.i < z.first && x.k < z.w && z.rest <= z.w
    ensures FirstPageIndex(z, x) < FirstPageCount(z) <==> x.k < Limit(z, x.c)
  {
    var n := z.first - 1 - x.c.i;
    assert (z.first - 1) * z.w == x.c.i * z.w + n * z.w;
    if n > 0 { assert n * z.w >= z.w; }
  }

  /** Freeing crashes exactly if the bit is clear. */
  lemma CrashesExactlyOnAClearBit(s: State, t: nat, x: Slot)
    requires Enabled(s, BeginFree(t, x)) && !s.crashed
    ensures Step(s, BeginFree(t, x)).crashed <==> x.k !in Bits(s, x.c)
  {}

  // ---- when supermap bits are set and cleared -----------------------------------------------

  ghost predicate BeingCleared(s: State, c: Cell) { exists t :: 0 <= t < |s.threads| && Clearing(s.threads[t], c) }

  /** The supermap bit is clear, or a free is about to clear it. */
  ghost predicate Cleared(s: State, c: Cell) { c !in s.super || BeingCleared(s, c) }

  /** The step clears a bit of this bitmap, or sets its supermap bit. */
  predicate Frees(s: State, l: Label, c: Cell) {
    l.ClearBit? && l.t < |s.threads| && s.threads[l.t].Freeing? && s.threads[l.t].s.c == c && c.p > 0
  }

  predicate Marks(s: State, l: Label, c: Cell) {
    l.SetSuper? && l.done && l.t < |s.threads| && s.threads[l.t].Mark? && s.threads[l.t].s.c == c
  }

  /** Clearing a bit is what gets the supermap bit cleared, at once or by a step that the freeing thread owes
      until it takes it; only setting the supermap bit again undoes that. */
  lemma FreesClearTheirBit(s: State, l: Label, c: Cell)
    requires Enabled(s, l)
    ensures Cleared(Step(s, l), c) <==>
            Frees(s, l, c) || (Cleared(s, c) && !(Marks(s, l, c) && !BeingCleared(s, c)))
  {
    hide Step, Enabled, Frees, Marks, Clearing;
    StepClears(s, l, c);
    StepSupers(s, l, c);
    var s', t := Step(s, l), l.t;
    if u :| 0 <= u < |s.threads| && Clearing(s.threads[u], c) && u != t {
      assert Clearing(s'.threads[u], c);
    }
    if u :| 0 <= u < |s.threads| && Clearing(s'.threads[u], c) && u != t {
      assert Clearing(s.threads[u], c);
    }
  }

  lemma StepClears(s: State, l: Label, c: Cell)
    requires Enabled(s, l)
    ensures l.t < |s.threads| == |Step(s, l).threads|
    ensures forall u :: 0 <= u < |s.threads| && u != l.t ==> Step(s, l).threads[u] == s.threads[u]
    ensures Clearing(Step(s, l).threads[l.t], c) <==> Frees(s, l, c)
    ensures Clearing(s.threads[l.t], c) ==> l.ClearSuper? && !Marks(s, l, c)
    ensures Marks(s, l, c) ==> !Frees(s, l, c)
  {
    hide FirstUnset, Entry, Slots, Bits;
  }

  lemma StepSupers(s: State, l: Label, c: Cell)
    requires Enabled(s, l)
    ensures c in Step(s, l).super <==> Marks(s, l, c) || (c in s.super && !Clearing(s.threads[l.t], c))
  {
    hide FirstUnset, Entry, Slots, Bits;
  }

  /** A set supermap bit hides no empty bitmap for good: some slot of the bitmap is handed out, and the
      free of any slot of it gets the bit cleared, or a free is about to clear it. */
  lemma SetSupermapBitsGoAway(s: State, l: Label, c: Cell)
    requires Reachable(s) && !Cleared(s, c)
    ensures exists x :: Handed(s, x) && x.c == c && x.k in Bits(s, c)
    ensures Enabled(s, l) && Frees(s, l, c) ==> Cleared(Step(s, l), c)
  {
    hide Reachable, Inv, SuperInv, Cleared, Enabled, Step, Locks;
    ReachableInv(s);
    var x := HandedSlot(s, c);
    HandedIsSet(s, x);
    if Enabled(s, l) { FreesClearTheirBit(s, l, c); }
  }

  lemma HandedIsSet(s: State, x: Slot)
    requires Inv(s) && Handed(s, x)
    ensures x.k in Bits(s, x.c)
  {}

  /** The supermap bit is set, with no free under way to clear it, although the bitmap has room. */
  ghost predicate Stale(s: State, c: Cell) { !Cleared(s, c) && Bits(s, c) != Full(s.z.w) }

  /** That arises exactly when a thread that saw the bitmap full sets the bit after it has lost one, and
      no free is left to clear it. */
  lemma StaleArisesExactly(s: State, l: Label, c: Cell)
    requires Inv(s) && SuperInv(s) && Enabled(s, l) && !Stale(s, c)
    ensures Stale(Step(s, l), c) <==> Marks(s, l, c) && Bits(s, c) != Full(s.z.w) && !BeingCleared(s, c)
  {
    hide Inv, Enabled, Step, BeingCleared;
    FreesClearTheirBit(s, l, c);
    if !Cleared(s, c) && !Frees(s, l, c) { FullStays(s, l, c); }
    if Marks(s, l, c) { MarkingKeepsBits(s, l, c); }
  }

  lemma MarkingKeepsBits(s: State, l: Label, c: Cell)
    requires Enabled(s, l) && Marks(s, l, c)
    ensures Bits(Step(s, l), c) == Bits(s, c) && Step(s, l).z == s.z
  {}

  /** A full bitmap with its supermap bit set stays full until a slot of it is freed. */
  lemma FullStays(s: State, l: Label, c: Cell)
    requires Inv(s) && SuperInv(s) && Enabled(s, l) && !Cleared(s, c) && Bits(s, c) == Full(s.z.w)
    requires !Frees(s, l, c)
    ensures Bits(Step(s, l), c) == Full(s.z.w) && Step(s, l).z == s.z
  {
    hide Inv, SuperInv, Cleared, BeingCleared, Entry, Slots;
    var x := HandedSlot(s, c);
    LockedIsNotHanded(s, l.t, x);
  }

  lemma HandedSlot(s: State, c: Cell) returns (x: Slot)
    requires Inv(s) && SuperInv(s) && !Cleared(s, c)
    ensures Handed(s, x) && x.c == c && c.p > 0
  {
    assert Backed(s, c);
    x :| Handed(s, x) && x.c == c;
  }

  lemma RunStep(s: State, ls: seq<Label>, m: State, l: Label)
    requires Run(s, ls, m) && Enabled(m, l)
    ensures Run(s, ls + [l], Step(m, l))
  {
    hide Step, Enabled;
    assert (ls + [l])[..|ls|] == ls && (ls + [l])[|ls|] == l;
  }

  /** A new magazine in which clients have the first `k` slots of one bitmap. */
  function Filled(s: State, c: Cell, k: nat): State {
    s.(maps := s.maps[c := Full(k)], owner := map x | x in Slots(c, k) :: Client)
  }

  predicate Roomy(s: State, c: Cell) { c in s.maps && c.p > 0 && |s.threads| > 0 }

  /** Thread 0 is about to mark the full bitmap; the others are idle. */
  ghost predicate AboutToMark(m: State, c: Cell) {
    && |m.threads| > 1 && c.p > 0 && m.threads[0].Mark? && m.threads[0].s.c == c && m.threads[0].s.k != 0
    && (forall u :: 0 < u < |m.threads| ==> m.threads[u].Idle?)
    && Entry(m, Slot(c, 0)) == Some(Client) && 0 in Bits(m, c) && 0 < m.z.w
  }

  /** Thread 0 has set the next bit. */
  function Taken(s: State, c: Cell, k: nat): State
    requires |s.threads| > 0
  {
    s.(maps := s.maps[c := Full(k + 1)], threads := s.threads[0 := Check(Slot(c, k))],
       owner := Filled(s, c, k).owner[Slot(c, k) := Worker(0)])
  }

  lemma TakeOne(s: State, c: Cell, k: nat)
    requires Start(s) && Roomy(s, c) && k < s.z.w
    ensures Enabled(Filled(s, c, k), SetBit(0, Slot(c, k)))
    ensures Step(Filled(s, c, k), SetBit(0, Slot(c, k))) == Taken(s, c, k)
  {
    assert s.maps[c := Full(k)][c := Full(k + 1)] == s.maps[c := Full(k + 1)];
  }

  lemma SeeOne(s: State, c: Cell, k: nat)
    requires Start(s) && Roomy(s, c) && k + 1 < s.z.w
    ensures Enabled(Taken(s, c, k), See(0)) && Step(Taken(s, c, k), See(0)) == Filled(s, c, k + 1)
  {
    assert k + 1 in Full(s.z.w) && k + 1 !in Full(k + 1);
    assert s.threads[0 := Check(Slot(c, k))][0 := Idle] == s.threads;
    assert Filled(s, c, k).owner[Slot(c, k) := Worker(0)][Slot(c, k) := Client] == Filled(s, c, k + 1).owner;
  }

  lemma SeeFull(s: State, c: Cell)
    requires Start(s) && Roomy(s, c) && s.z.w > 1 && |s.threads| > 1
    ensures Enabled(Taken(s, c, s.z.w - 1), See(0)) && AboutToMark(Step(Taken(s, c, s.z.w - 1), See(0)), c)
  {
    assert Slot(c, 0) in Slots(c, s.z.w - 1);
  }

  lemma {:induction false} Fill(s: State, c: Cell, k: nat) returns (ls: seq<Label>)
    requires Start(s) && Roomy(s, c) && k < s.z.w
    ensures Run(s, ls, Filled(s, c, k))
  {
    hide Run, Step, Enabled, Filled, Taken, Start;
    if k == 0 {
      ls := [];
      NothingFilled(s, c);
    } else {
      ls := Fill(s, c, k - 1);
      var l := SetBit(0, Slot(c, k - 1));
      TakeOne(s, c, k - 1);
      SeeOne(s, c, k - 1);
      RunStep(s, ls, Filled(s, c, k - 1), l);
      RunStep(s, ls + [l], Taken(s, c, k - 1), See(0));
      ls := ls + [l] + [See(0)];
    }
  }

  lemma NothingFilled(s: State, c: Cell)
    requires Start(s) && Roomy(s, c)
    ensures Run(s, [], Filled(s, c, 0))
  {
    assert s.maps[c := {}] == s.maps;
    assert s.owner.Keys == {} by { assert |s.owner.Keys| == 0; }
    assert s.owner == Filled(s, c, 0).owner;
  }

  lemma LostBit(m: State, c: Cell)
    requires AboutToMark(m, c)
    ensures Enabled(m, BeginFree(1, Slot(c, 0)))
    ensures var m1 := Step(m, BeginFree(1, Slot(c, 0)));
            && Enabled(m1, ClearBit(1)) && Enabled(Step(m1, ClearBit(1)), ClearSuper(1))
            && var m3 := Step(Step(m1, ClearBit(1)), ClearSuper(1));
               Enabled(m3, SetSuper(0, true)) && Stale(Step(m3, SetSuper(0, true)), c)
  {
    hide Full;
  }

  /** In a new magazine of any size, with bitmaps of two bits or more, a run leaves a supermap bit set on
      a bitmap with room: a thread fills the bitmap and sees it full, another frees a slot and clears
      the supermap bit, and then the first sets it. */
  lemma StaleHappens(s: State, c: Cell) returns (ls: seq<Label>, t: State)
    requires Start(s) && Roomy(s, c) && s.z.w > 1 && |s.threads| > 1
    ensures Run(s, ls, t) && Stale(t, c)
  {
    hide Run, Step, Enabled, Filled, Taken, Start, Stale, AboutToMark;
    var k, l := s.z.w - 1, SetBit(0, Slot(c, s.z.w - 1));
    ls := Fill(s, c, k);
    TakeOne(s, c, k);
    SeeFull(s, c);
    RunStep(s, ls, Filled(s, c, k), l);
    RunStep(s, ls + [l], Taken(s, c, k), See(0));
    ls := ls + [l] + [See(0)];
    var m := Step(Taken(s, c, k), See(0));
    LostBit(m, c);
    var frees := BeginFree(1, Slot(c, 0));
    var m1 := Step(m, frees);
    var m2 := Step(m1, ClearBit(1));
    RunStep(s, ls, m, frees);
    RunStep(s, ls + [frees], m1, ClearBit(1));
    RunStep(s, ls + [frees] + [ClearBit(1)], m2, ClearSuper(1));
    ls := ls + [frees] + [ClearBit(1)] + [ClearSuper(1)];
    RunStep(s, ls, Step(m2, ClearSuper(1)), SetSuper(0, true));
    t := Step(Step(m2, ClearSuper(1)), SetSuper(0, true));
    ls := ls + [SetSuper(0, true)];
  }

  // ---- a page that empties is given back ----------------------------------------------------

  /** All bitmaps of page `p` from the `j`-th on are empty, and thread 0 is in phase `ph`. */
  ghost predicate AtPage(s: State, p: nat, j: nat, ph: Phase) {
    |s.threads| > 0 && s.threads[0] == ph && forall i: nat :: j <= i < s.z.per ==> Bits(s, Cell(p, i)) == {}
  }

  lemma {:induction false} LooksAtAll(s: State, ls: seq<Label>, m: State, p: nat, j: nat)
    returns (ls': seq<Label>, t: State)
    requires Run(s, ls, m) && j < m.z.per && AtPage(m, p, 0, Scan(p, j))
    ensures Run(s, ls', t) && t.z == m.z && AtPage(t, p, 0, Lock(p, 0))
    decreases m.z.per - j
  {
    hide Run;
    RunStep(s, ls, m, Look(0));
    t, ls' := Step(m, Look(0)), ls + [Look(0)];
    if j + 1 < m.z.per { ls', t := LooksAtAll(s, ls', t, p, j + 1); }
  }

  lemma LocksOne(m: State, p: nat, j: nat)
    requires j < m.z.per && AtPage(m, p, j, Lock(p, j))
    ensures var t := Step(m, TryLock(0));
            t.z == m.z && AtPage(t, p, j + 1, if j + 1 < m.z.per then Lock(p, j + 1) else Advise(p))
  {
    hide Slots;
  }

  lemma {:induction false} LocksThemAll(s: State, ls: seq<Label>, m: State, p: nat, j: nat)
    returns (ls': seq<Label>, t: State)
    requires Run(s, ls, m) && j < m.z.per && AtPage(m, p, j, Lock(p, j))
    ensures Run(s, ls', t) && Enabled(t, Madvise(0)) && t.threads[0] == Advise(p)
    decreases m.z.per - j
  {
    hide Run, Step, AtPage;
    assert Enabled(m, TryLock(0)) by { LocksOne(m, p, j); InPhase(m, p, j, Lock(p, j)); }
    LocksOne(m, p, j);
    RunStep(s, ls, m, TryLock(0));
    t, ls' := Step(m, TryLock(0)), ls + [TryLock(0)];
    if j + 1 < m.z.per {
      ls', t := LocksThemAll(s, ls', t, p, j + 1);
    } else {
      InPhase(t, p, j + 1, Advise(p));
    }
  }

  lemma InPhase(m: State, p: nat, j: nat, ph: Phase)
    requires AtPage(m, p, j, ph)
    ensures |m.threads| > 0 && m.threads[0] == ph
  {}

  /** Freeing the only slot of a page takes the thread to the page's bitmaps. */
  lemma FreeGoesToThePage(s: State, c: Cell)
    requires Start(s) && Roomy(s, c) && s.z.w > 1
    ensures var m := Filled(s, c, 1);
            && Enabled(m, BeginFree(0, Slot(c, 0)))
            && Enabled(Step(m, BeginFree(0, Slot(c, 0))), ClearBit(0))
            && var m2 := Step(Step(m, BeginFree(0, Slot(c, 0))), ClearBit(0));
               Enabled(m2, ClearSuper(0)) && Step(m2, ClearSuper(0)).z == s.z
               && AtPage(Step(m2, ClearSuper(0)), c.p, 0, Scan(c.p, 0))
  {
    assert Slot(c, 0) in Slots(c, 1) && 0 in Full(1);
    assert Full(1) - {0} == {};
  }

  /** In a new magazine of any shape with two bits or more to a bitmap, allocating and freeing one slot ends in
      giving its page back: the bitmaps of the page are found empty, and locked, one by one. */
  lemma AdviseHappens(s: State, c: Cell) returns (ls: seq<Label>, t: State)
    requires Start(s) && Roomy(s, c) && s.z.w > 1
    ensures Run(s, ls, t) && Enabled(t, Madvise(0)) && t.threads[0] == Advise(c.p)
  {
    hide Run, Step, Enabled, Filled, Taken, Start, AtPage;
    ls := Fill(s, c, 1);
    FreeGoesToThePage(s, c);
    var frees := BeginFree(0, Slot(c, 0));
    var m := Filled(s, c, 1);
    var m1 := Step(m, frees);
    var m2 := Step(m1, ClearBit(0));
    t := Step(m2, ClearSuper(0));
    RunStep(s, ls, m, frees);
    RunStep(s, ls + [frees], m1, ClearBit(0));
    RunStep(s, ls + [frees] + [ClearBit(0)], m2, ClearSuper(0));
    ls := ls + [frees] + [ClearBit(0)] + [ClearSuper(0)];
    PageHasBitmaps(s);
    ls, t := LooksAtAll(s, ls, t, c.p, 0);
    ls, t := LocksThemAll(s, ls, t, c.p, 0);
  }

  lemma PageHasBitmaps(s: State)
    requires Start(s)
    ensures s.z.per > 0
  {}
}
