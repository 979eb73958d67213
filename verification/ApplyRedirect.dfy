/** dispatch_apply on a queue that targets other queues: width is reserved on every queue down to the
    root, and given back.  Other threads reserve and give back width on the same queues between any two
    of our atomic operations. */
module ApplyRedirect {
  import opened Digits
  import WidthLock

  const WIDTH_FULL: int := WidthLock.FULL

  /** `width` is the width field of dq_state.  Ghost fields split it into what this apply holds and the rest;
      `free` is what was available when this apply last asked for width. */
  class Queue {
    const dqWidth: nat
    const target: Queue?
    var width: int
    ghost var mine: int
    ghost var others: int
    ghost var free: int

    constructor (dqWidth: nat, target: Queue?)
      ensures this.dqWidth == dqWidth && this.target == target
      ensures width == WIDTH_FULL - dqWidth && mine == 0 && others == width
    {
      this.dqWidth, this.target := dqWidth, target;
      width := WIDTH_FULL - dqWidth;
      mine, others, free := 0, WIDTH_FULL - dqWidth, 0;
    }
  }

  /** _dq_state_available_width: nothing once the width field has carried into the full bit. */
  function Available(width: int): (a: int)
    ensures 0 <= a
  {
    if width < WIDTH_FULL then WIDTH_FULL - width else 0
  }

  /** The queues from `chain[0]` down to, and without, the root queue. */
  ghost predicate Chain(chain: seq<Queue>, root: Queue) {
    && chain != [] && root.target == null && root !in chain
    && (forall i, j :: 0 <= i < j < |chain| ==> chain[i] != chain[j])
    && (forall i {:trigger chain[i].target} :: 0 <= i < |chain| ==>
          chain[i].target == if i + 1 < |chain| then chain[i + 1] else root)
  }

  ghost predicate Accounted(chain: seq<Queue>)
    reads set i | 0 <= i < |chain| :: chain[i]
  {
    forall i :: 0 <= i < |chain| ==> chain[i].width == chain[i].mine + chain[i].others
  }

  /** This apply holds `w` on each of the first `k` queues and nothing on the others. */
  ghost predicate Holds(chain: seq<Queue>, k: nat, w: int)
    reads set i | 0 <= i < |chain| :: chain[i]
  {
    forall i :: 0 <= i < |chain| ==> chain[i].mine == if i < k then w else 0
  }

  /** Other threads run: they may change what they hold, and nothing else. */
  method Others(ghost chain: seq<Queue>)
    requires Accounted(chain)
    modifies (set i | 0 <= i < |chain| :: chain[i])`width, (set i | 0 <= i < |chain| :: chain[i])`others
    ensures Accounted(chain)
  {
  }

  /** _dispatch_queue_try_reserve_apply_width: the read-modify-write loop ends in one atomic step. */
  method TryReserve(dq: Queue, daWidth: int) returns (width: int)
    requires daWidth > 0
    modifies dq`width, dq`mine, dq`free
    ensures dq.free == Available(old(dq.width))
    ensures width == if dq.dqWidth == 1 then 0
                     else if Available(old(dq.width)) < daWidth then Available(old(dq.width)) else daWidth
    ensures dq.width == old(dq.width) + width && dq.mine == old(dq.mine) + width
    ensures width > 0 ==> dq.width <= WIDTH_FULL
  {
    dq.free := Available(dq.width);
    if dq.dqWidth == 1 {
      return 0;
    }
    width := Available(dq.width);
    if width == 0 {
      return;
    }
    if width > daWidth {
      width := daWidth;
    }
    dq.width := dq.width + width;
    dq.mine := dq.mine + width;
  }

  /** _dispatch_queue_relinquish_width: gives back `daWidth` on every queue from the top to before `stop`. */
  method Relinquish(top: Queue, stop: Queue, daWidth: int, ghost chain: seq<Queue>, ghost root: Queue, ghost k: nat)
    requires Chain(chain, root) && Accounted(chain) && top == chain[0]
    requires k <= |chain| && stop == if k < |chain| then chain[k] else root
    modifies (set i | 0 <= i < |chain| :: chain[i])
    ensures forall i :: 0 <= i < |chain| ==> chain[i].free == old(chain[i].free)
    ensures Accounted(chain)
    ensures forall i :: 0 <= i < |chain| ==>
              chain[i].mine == old(chain[i].mine) - if i < k then daWidth else 0
  {
    var dq := top;
    ghost var n := 0;
    while dq != stop
      invariant n <= k && dq == if n < |chain| then chain[n] else root
      invariant Accounted(chain)
      invariant forall i :: 0 <= i < |chain| ==> chain[i].free == old(chain[i].free)
      invariant forall i :: 0 <= i < |chain| ==>
                  chain[i].mine == old(chain[i].mine) - if i < n then daWidth else 0
      decreases k - n
    {
      Others(chain);
      dq.width := dq.width - daWidth;
      dq.mine := dq.mine - daWidth;
      dq := dq.target;
      n := n + 1;
    }
  }

  datatype Outcome = Serial | Parallel(participants: int)

  class Job {
    var thrCnt: int

    constructor (thrCnt: int)
      ensures this.thrCnt == thrCnt
    {
      this.thrCnt := thrCnt;
    }
  }

  /** _dispatch_apply_f: every queue of the chain holds exactly the width of the continuations that are
      pushed, one fewer than the participants, and there is at least one. */
  method RunParallel(da: Job, ghost chain: seq<Queue>) returns (o: Outcome)
    requires Accounted(chain)
    requires da.thrCnt - 1 != 0
    requires Holds(chain, |chain|, da.thrCnt - 1)
    modifies (set i | 0 <= i < |chain| :: chain[i])`width, (set i | 0 <= i < |chain| :: chain[i])`others
    ensures Accounted(chain)
    ensures o == Parallel(da.thrCnt)
  {
    o := Parallel(da.thrCnt);
    Others(chain);
  }

  /** The widths granted down a chain never grow. */
  predicate Narrowing(granted: seq<int>, initial: int) {
    && (forall i :: 0 <= i < |granted| ==> 0 <= granted[i] <= initial)
    && (forall i, j :: 0 <= i < j < |granted| ==> granted[j] <= granted[i])
  }

  /** What a queue grants that had `free` left when asked for `want`. */
  function Grant(dqWidth: nat, free: int, want: int): int {
    if dqWidth == 1 then 0 else if free < want then free else want
  }

  /** The width held after the last of these grants. */
  function Held(granted: seq<int>, initial: int): int {
    if |granted| == 0 then initial else granted[|granted| - 1]
  }

  /** Each queue reached granted what it had free, up to what the one before it granted. */
  predicate Granted(chain: seq<Queue>, frees: seq<int>, granted: seq<int>, initial: int) {
    |granted| == |frees| <= |chain| &&
    (|granted| == 0 ||
     var k := |granted| - 1;
     granted[k] == Grant(chain[k].dqWidth, frees[k], Held(granted[..k], initial))
     && Granted(chain, frees[..k], granted[..k], initial))
  }

  /** `frees` lists what the first queues had free when they were asked. */
  ghost predicate Asked(chain: seq<Queue>, frees: seq<int>)
    reads set i | 0 <= i < |chain| :: chain[i]
  {
    |frees| <= |chain| && forall i :: 0 <= i < |frees| ==> chain[i].free == frees[i]
  }

  /** Every queue but the last granted something. */
  predicate NonePassedEmpty(frees: seq<int>, granted: seq<int>) {
    && |frees| == |granted| && (forall i :: 0 <= i < |frees| ==> frees[i] >= 0)
    && (forall i :: 0 <= i < |granted| - 1 ==> granted[i] > 0)
  }

  lemma PassedOne(frees: seq<int>, granted: seq<int>, free: int, w: int)
    requires NonePassedEmpty(frees, granted) && Held(granted, 1) > 0 && free >= 0
    ensures NonePassedEmpty(frees + [free], granted + [w])
  {}

  lemma GrantedAppend(chain: seq<Queue>, frees: seq<int>, granted: seq<int>, initial: int, free: int, w: int)
    requires Granted(chain, frees, granted, initial) && |granted| < |chain|
    requires w == Grant(chain[|granted|].dqWidth, free, Held(granted, initial))
    ensures Granted(chain, frees + [free], granted + [w], initial)
  {
    assert (granted + [w])[..|granted|] == granted && (frees + [free])[..|frees|] == frees;
  }

  /** The last queue reached grants nothing exactly if it is serial or had nothing free, and all that was asked
      for at first exactly if every queue had that much. */
  lemma {:induction false} GrantsAreWhatIsFree(chain: seq<Queue>, frees: seq<int>, granted: seq<int>, initial: int)
    requires initial > 0 && |granted| > 0 && Granted(chain, frees, granted, initial)
    requires NonePassedEmpty(frees, granted)
    ensures var k := |granted| - 1; granted[k] == 0 <==> chain[k].dqWidth == 1 || frees[k] == 0
    ensures granted[|granted| - 1] <= initial
    ensures granted[|granted| - 1] == initial <==>
              forall i :: 0 <= i < |granted| ==> chain[i].dqWidth != 1 && frees[i] >= initial
  {
    var k := |granted| - 1;
    if k > 0 {
      assert granted[..k][k - 1] > 0;
      GrantsAreWhatIsFree(chain, frees[..k], granted[..k], initial);
    }
  }

  lemma NothingGranted(chain: seq<Queue>, initial: int)
    ensures Granted(chain, [], [], initial) && NonePassedEmpty([], [])
  {}

  lemma NarrowingStart(initial: int)
    ensures Narrowing([], initial)
  {}

  lemma NarrowingAppend(granted: seq<int>, initial: int, w: int)
    requires Narrowing(granted, initial)
    requires 0 <= w <= if granted == [] then initial else granted[|granted| - 1]
    ensures Narrowing(granted + [w], initial)
  {}

  /** One round of the loop in _dispatch_apply_redirect: reserve on the next queue, and give back on the
      queues above it what they hold in excess. */
  method ReserveNext(top: Queue, dq: Queue, daWidth: int, ghost chain: seq<Queue>, ghost root: Queue, ghost k: nat)
    returns (width: int)
    requires Chain(chain, root) && Accounted(chain) && top == chain[0]
    requires k < |chain| && dq == chain[k]
    requires daWidth > 0 && Holds(chain, k, daWidth)
    modifies set i | 0 <= i < |chain| :: chain[i]
    ensures Accounted(chain) && Holds(chain, k + 1, width)
    ensures 0 <= width <= daWidth && width == Grant(dq.dqWidth, dq.free, daWidth) && dq.free >= 0
    ensures forall i :: 0 <= i < |chain| && i != k ==> chain[i].free == old(chain[i].free)
  {
    Others(chain);
    width := TryReserve(dq, daWidth);
    if daWidth > width {
      var excess := daWidth - width;
      Relinquish(top, dq, excess, chain, root, k);
    }
  }

  lemma ChainStart(chain: seq<Queue>, root: Queue)
    requires Chain(chain, root)
    ensures |chain| > 0
  {}

  lemma ChainTarget(chain: seq<Queue>, root: Queue, k: nat)
    requires Chain(chain, root) && k < |chain|
    ensures chain[k].target == (if k + 1 < |chain| then chain[k + 1] else root)
    ensures chain[k].target.target == null <==> k + 1 == |chain|
  {
    if k + 1 < |chain| {
      assert chain[k + 1].target == if k + 2 < |chain| then chain[k + 2] else root;
    }
  }

  /** One round of the loop: reserve on the next queue, and if that granted less, lower da_thr_cnt too. */
  method ReserveOne(da: Job, top: Queue, dq: Queue, daWidth: int, ghost chain: seq<Queue>, ghost root: Queue,
                    ghost k: nat)
    returns (width: int)
    requires Chain(chain, root) && Accounted(chain) && top == chain[0]
    requires k < |chain| && dq == chain[k]
    requires daWidth > 0 && Holds(chain, k, daWidth) && da.thrCnt == daWidth + 1
    modifies da, set i | 0 <= i < |chain| :: chain[i]
    ensures Accounted(chain) && Holds(chain, k + 1, width)
    ensures 0 <= width <= daWidth && (width != 0 ==> da.thrCnt == width + 1)
    ensures width == Grant(dq.dqWidth, dq.free, daWidth) && dq.free >= 0
    ensures forall i :: 0 <= i < |chain| && i != k ==> chain[i].free == old(chain[i].free)
  {
    hide Chain, Accounted, Holds, Grant;
    width := ReserveNext(top, dq, daWidth, chain, root, k);
    if daWidth > width {
      var excess := daWidth - width;
      if width == 0 {
        return;
      }
      da.thrCnt := da.thrCnt - excess;
    }
  }

  /** The loop of _dispatch_apply_redirect: down the chain to the root, or until a queue grants nothing.
      `granted` lists the width held after each queue in turn. */
  method ReserveDown(da: Job, top: Queue, ghost chain: seq<Queue>, ghost root: Queue)
    returns (daWidth: int, dq: Queue, granted: seq<int>, ghost frees: seq<int>)
    requires Chain(chain, root) && Accounted(chain) && top == chain[0]
    requires da.thrCnt > 1 && Holds(chain, 0, 0)
    modifies da, set i | 0 <= i < |chain| :: chain[i]
    ensures Accounted(chain)
    ensures granted != [] && Narrowing(granted, old(da.thrCnt) - 1) && daWidth == granted[|granted| - 1]
    ensures Granted(chain, frees, granted, old(da.thrCnt) - 1) && NonePassedEmpty(frees, granted)
    ensures Asked(chain, frees)
    ensures daWidth == 0 ==> Holds(chain, 0, 0)
    ensures daWidth != 0 ==>
              dq == root && |granted| == |chain| && Holds(chain, |chain|, daWidth) && da.thrCnt == daWidth + 1 > 1
  {
    hide Chain, Accounted, Narrowing, Grant, Granted, NonePassedEmpty;
    ghost var initial := da.thrCnt - 1;
    daWidth := da.thrCnt - 1;
    dq := top;
    granted, frees := [], [];
    NothingGranted(chain, initial);
    NarrowingStart(initial);
    ChainStart(chain, root);
    while true
      invariant |granted| < |chain| && dq == chain[|granted|]
      invariant Accounted(chain) && Holds(chain, |granted|, daWidth)
      invariant daWidth > 0 && da.thrCnt == daWidth + 1
      invariant Narrowing(granted, initial) && daWidth == Held(granted, initial)
      invariant Granted(chain, frees, granted, initial) && NonePassedEmpty(frees, granted) && |frees| == |granted|
      invariant forall i :: 0 <= i < |frees| ==> chain[i].free == frees[i]
      decreases |chain| - |granted|
    {
      var width := ReserveOne(da, top, dq, daWidth, chain, root, |granted|);
      NarrowingAppend(granted, initial, width);
      PassedOne(frees, granted, dq.free, width);
      GrantedAppend(chain, frees, granted, initial, dq.free, width);
      ChainTarget(chain, root, |granted|);
      granted, frees := granted + [width], frees + [dq.free];
      daWidth := width;
      if daWidth == 0 {
        return;
      }
      dq := dq.target;
      if dq.target == null {
        break;
      }
    }
  }

  /** _dispatch_apply_redirect: on both ways out every queue has back exactly what was reserved on it. */
  method Redirect(da: Job, top: Queue, ghost chain: seq<Queue>, ghost root: Queue)
    returns (o: Outcome, granted: seq<int>, ghost frees: seq<int>)
    requires Chain(chain, root) && Accounted(chain) && top == chain[0]
    requires da.thrCnt > 1 && Holds(chain, 0, 0)
    modifies da, set i | 0 <= i < |chain| :: chain[i]
    ensures Accounted(chain) && Holds(chain, 0, 0)
    ensures granted != [] && Narrowing(granted, old(da.thrCnt) - 1)
    ensures Granted(chain, frees, granted, old(da.thrCnt) - 1) && Asked(chain, frees)
    ensures o.Serial? <==> granted[|granted| - 1] == 0
    ensures var k := |granted| - 1; o.Serial? <==> chain[k].dqWidth == 1 || frees[k] == 0
    ensures o == Parallel(old(da.thrCnt)) <==>
              forall i :: 0 <= i < |granted| ==> chain[i].dqWidth != 1 && frees[i] >= old(da.thrCnt) - 1
    ensures o.Parallel? ==> |granted| == |chain| && o.participants == da.thrCnt == granted[|granted| - 1] + 1
  {
    hide Narrowing, Granted, Chain, Accounted;
    var daWidth, dq;
    ghost var initial := da.thrCnt - 1;
    daWidth, dq, granted, frees := ReserveDown(da, top, chain, root);
    GrantsAreWhatIsFree(chain, frees, granted, initial);
    if daWidth == 0 {
      return Serial, granted, frees;
    }
    o := RunParallel(da, chain);
    Relinquish(top, dq, daWidth, chain, root, |chain|);
  }

  // ---- how many participants ----------------------------------------------------------------

  const APPLY_MAX: nat := 0xffff

  datatype Plan = Nothing | RunSerially | RunRedirected(thrCnt: nat) | RunParallelly(thrCnt: nat)

  /** The participant count of dispatch_apply_f; `nested` is 0 outside any apply. */
  function ThreadCount(iterations: nat, maxParallelism: nat, nested: nat): nat {
    var t := if nested == 0 then maxParallelism
             else if nested < maxParallelism then maxParallelism / nested else 1;
    if iterations < t then iterations else t
  }

  /** The nesting level an apply hands to the applies inside it. */
  function InnerNesting(iterations: nat, nested: nat): nat {
    if nested == 0 then iterations
    else if nested < APPLY_MAX && iterations < APPLY_MAX then nested * iterations else APPLY_MAX
  }

  function PlanApply(iterations: nat, maxParallelism: nat, nested: nat, dqWidth: nat, isRoot: bool,
                     isCurrent: bool): Plan
  {
    if iterations == 0 then Nothing
    else
      var thrCnt := ThreadCount(iterations, maxParallelism, nested);
      if dqWidth == 1 || thrCnt <= 1 then RunSerially
      else if !isRoot then (if isCurrent then RunSerially else RunRedirected(thrCnt))
      else RunParallelly(thrCnt)
  }

  /** Whenever apply goes parallel there are at least two participants, so the assertion on the number of
      continuations holds; no participant is without a possible iteration; and all participants of all
      nesting levels together stay within the parallelism limit. */
  lemma ParallelPlansAreSound(iterations: nat, maxParallelism: nat, nested: nat, dqWidth: nat, isRoot: bool,
                              isCurrent: bool)
    ensures var p := PlanApply(iterations, maxParallelism, nested, dqWidth, isRoot, isCurrent);
            p.RunRedirected? || p.RunParallelly? ==>
              && 2 <= p.thrCnt <= iterations && p.thrCnt <= maxParallelism
              && (nested > 0 ==> p.thrCnt * nested <= maxParallelism)
  {
    ThreadCountFits(iterations, maxParallelism, nested);
    hide ThreadCount;
  }

  lemma ThreadCountFits(iterations: nat, maxParallelism: nat, nested: nat)
    ensures var t := ThreadCount(iterations, maxParallelism, nested);
            && t <= iterations
            && (t > 1 ==> t <= maxParallelism && (nested > 0 ==> t * nested <= maxParallelism))
  {
    if 0 < nested < maxParallelism {
      var t, q := ThreadCount(iterations, maxParallelism, nested), maxParallelism / nested;
      assert t <= q;
      DivTimes(maxParallelism, nested);
      TimesMonotone(t, q, nested);
      TimesMonotone(1, nested, t);
    }
  }

  /** Room for that many participants at each place of the nesting that runs an apply. */
  predicate Fits(t: nat, iterations: nat, maxParallelism: nat, nested: nat) {
    t <= iterations && (if nested == 0 then t else t * nested) <= maxParallelism
  }

  /** The participants are as many as there is room for; at least the caller takes part when there is none. */
  lemma ThreadCountIsLargest(iterations: nat, maxParallelism: nat, nested: nat, t: nat)
    ensures nested <= maxParallelism ==>
              (t <= ThreadCount(iterations, maxParallelism, nested) <==> Fits(t, iterations, maxParallelism, nested))
    ensures nested > maxParallelism && iterations > 0 ==> ThreadCount(iterations, maxParallelism, nested) == 1
  {
    if 0 < nested <= maxParallelism { DivIsLargest(maxParallelism, nested, t); }
  }

  lemma DivIsLargest(x: nat, y: nat, t: nat)
    requires y > 0
    ensures t <= x / y <==> t * y <= x
    ensures x == y ==> x / y == 1
  {
    DivTimes(x, y);
    if t <= x / y { TimesMonotone(t, x / y, y); } else { TimesMonotone(x / y + 1, t, y); }
  }

  /** Which way apply goes: in parallel on a root queue, down the target queues from any other one that it is
      not called on, and serially on a serial queue, on the current one, or without room for two. */
  lemma WhichPlan(iterations: nat, maxParallelism: nat, nested: nat, dqWidth: nat, isRoot: bool, isCurrent: bool)
    ensures var p := PlanApply(iterations, maxParallelism, nested, dqWidth, isRoot, isCurrent);
            var two := Fits(2, iterations, maxParallelism, nested) && dqWidth != 1;
            && (p.Nothing? <==> iterations == 0)
            && (p.RunParallelly? <==> two && isRoot)
            && (p.RunRedirected? <==> two && !isRoot && !isCurrent)
            && (p.RunSerially? <==> iterations > 0 && (!two || (!isRoot && isCurrent)))
  {
    ThreadCountIsLargest(iterations, maxParallelism, nested, 2);
    hide ThreadCount;
  }

  /** And with as many participants as there is room for. */
  lemma PlansUseTheRoom(iterations: nat, maxParallelism: nat, nested: nat, dqWidth: nat, isRoot: bool,
                        isCurrent: bool, t: nat)
    ensures var p := PlanApply(iterations, maxParallelism, nested, dqWidth, isRoot, isCurrent);
            p.RunParallelly? || p.RunRedirected? ==>
              (t <= p.thrCnt <==> Fits(t, iterations, maxParallelism, nested))
  {
    ThreadCountIsLargest(iterations, maxParallelism, nested, t);
    hide ThreadCount;
  }

  lemma DivTimes(x: nat, y: nat)
    requires y > 0
    ensures x / y * y <= x
  {}

  /** The nesting product never reaches the square of the limit, so it cannot wrap even a 32-bit size_t. */
  lemma NestingFits(iterations: nat, nested: nat)
    requires nested > 0
    ensures InnerNesting(iterations, nested) < 0x1_0000_0000
    ensures iterations > 0 ==> InnerNesting(iterations, nested) > 0
  {
    if nested < APPLY_MAX && iterations < APPLY_MAX {
      TimesMonotone(nested, 0xfffe, iterations);
    }
  }

  // ---- applies inside applies ---------------------------------------------------------------

  /** The nesting level inside applies of these iteration counts, outermost first. */
  function NestingOf(its: seq<nat>): nat {
    if |its| == 0 then 0 else InnerNesting(its[|its| - 1], NestingOf(its[..|its| - 1]))
  }

  function Product(its: seq<nat>): nat {
    if |its| == 0 then 1 else Product(its[..|its| - 1]) * its[|its| - 1]
  }

  /** The nesting level is how many places there are to run an inner apply, as far as it is below the limit. */
  lemma {:induction false} NestingIsProduct(its: seq<nat>)
    requires |its| > 0 && forall i :: 0 <= i < |its| ==> its[i] > 0
    ensures Product(its) > 0
    ensures Product(its) < APPLY_MAX ==> NestingOf(its) == Product(its)
    ensures Product(its) >= APPLY_MAX ==> NestingOf(its) >= APPLY_MAX
  {
    var outer, i := its[..|its| - 1], its[|its| - 1];
    if |its| > 1 {
      NestingIsProduct(outer);
      TimesMonotone(1, i, Product(outer));
      TimesMonotone(1, Product(outer), i);
    } else {
      assert Product(outer) == 1 && NestingOf(outer) == 0;
    }
  }

  /** So all participants of an apply inside applies, at all its places together, stay within the limit. */
  lemma NestedAppliesShareTheLimit(its: seq<nat>, iterations: nat, maxParallelism: nat)
    requires |its| > 0 && (forall i :: 0 <= i < |its| ==> its[i] > 0) && maxParallelism <= APPLY_MAX
    ensures var t := ThreadCount(iterations, maxParallelism, NestingOf(its));
            t > 1 ==> t * Product(its) <= maxParallelism
  {
    NestingIsProduct(its);
    ThreadCountFits(iterations, maxParallelism, NestingOf(its));
    hide NestingOf, Product;
  }
}
