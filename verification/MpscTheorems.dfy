/** What the os_mpsc_* queue promises, for every schedule of producers and consumer. */
module MpscTheorems {
  import opened FifoSpec
  import opened MpscProtocol
  import opened MpscProofs
  import opened Options

  lemma StepKeepsInv(s: State, l: Label)
    requires Inv(s) && Enabled(s, l)
    ensures Inv(Step(s, l))
  {
    hide Inv;
    match l
    case LPrepare(t, c) => PrepareKeepsInv(s, t, c);
    case LExchange(t) => ExchangeKeepsInv(s, t);
    case LLink(t) => LinkKeepsInv(s, t);
    case LPop => BeginPopKeepsInv(s);
    case LUndo(c, nx) => BeginUndoKeepsInv(s, c, nx);
    case LSnap => BeginSnapKeepsInv(s);
    case LConsume => ConsumeKeepsInv(s);
    case LWalk(k) => WalkKeepsInv(s, k);
  }

  lemma ConsumeKeepsInv(s: State)
    requires Inv(s) && CanConsume(s)
    ensures Inv(Consume(s))
  {
    hide Inv, Consume;
    match s.cons
    case PopStore(_, _) => PopStoreKeepsInv(s);
    case PopSwap(_) => PopSwapKeepsInv(s);
    case PopAwait(_) => PopAwaitKeepsInv(s);
    case PopRestore(_, _) => PopRestoreKeepsInv(s);
    case UndoSwap(_) => UndoSwapKeepsInv(s);
    case UndoAwait(_) => UndoAwaitKeepsInv(s);
    case UndoRelink(_, _) => UndoRelinkKeepsInv(s);
    case UndoStore(_, _) => UndoStoreKeepsInv(s);
    case UndoPublish(_) => UndoAwaitKeepsInv(s);
    case SnapClear(_) => SnapClearKeepsInv(s);
    case SnapSwap(_) => SnapSwapKeepsInv(s);
  }

  ghost predicate SameView(s: State, s': State) {
    s'.snaps == s.snaps && s'.captures == s.captures
  }

  /** An event that leaves the snapshots alone. */
  lemma QueueEventRefines(s: State, s': State, e: Event)
    requires Refines(s) && SameView(s, s') && s'.hist == s.hist + [e]
    requires match e
             case Enqueued(c) => s'.queue == s.queue + c
             case Prepended(c) => s'.queue == c + s.queue
             case Dequeued(x) => s.queue != [] && s.queue[0] == x && s'.queue == s.queue[1..]
             case _ => false
    ensures Refines(s')
  {
    ReplayAppend(s.hist, e);
  }

  lemma NoEventRefines(s: State, s': State)
    requires Refines(s) && SameView(s, s') && s'.hist == s.hist && s'.queue == s.queue
    ensures Refines(s')
  {}

  lemma SnapSwapRefines(s: State)
    requires HeadInv(s) && Refines(s) && s.cons.SnapSwap?
    ensures Refines(Consume(s))
  {
    hide Put;
    ReplayAppend(s.hist, Captured(s.captures, s.queue));
  }

  lemma UndoSwapRefines(s: State)
    requires Inv(s) && Refines(s) && s.cons.UndoSwap? && CanConsume(s)
    ensures Refines(Consume(s))
  {
    var s' := Consume(s);
    if s.tail == NULL {
      hide NodesInv, SuccInv, QueueInv, TailInv, LinksInv, OwedInv, OwedHeadInv, PendingInv, ReadyInv, SnapsInv,
           HeadInv, HeldInv, Put, LinkChain, Refines;
      UndoSwapHead(s);
      QueueEventRefines(s, s', Prepended(s.cons.chain));
    } else {
      hide Inv, Refines;
      NoEventRefines(s, s');
    }
  }

  lemma PopRefines(s: State)
    requires HeadInv(s) && Refines(s) && (s.cons.PopStore? || s.cons.PopSwap? || s.cons.PopRestore?)
    ensures Refines(Consume(s))
  {
    hide Refines, LinkChain, Put, Distinct;
    var s', h := Consume(s), s.cons.h;
    assert s.queue != [] && s.queue[0] == h;
    hide HeadInv;
    if s'.cons.Idle? {
      assert s'.hist == s.hist + [Dequeued(h)];
      QueueEventRefines(s, s', Dequeued(h));
    } else {
      NoEventRefines(s, s');
    }
  }

  lemma ConsumeRefines(s: State)
    requires Inv(s) && Refines(s) && CanConsume(s)
    ensures Refines(Consume(s))
  {
    hide NodesInv, SuccInv, QueueInv, TailInv, LinksInv, OwedInv, OwedHeadInv, PendingInv, ReadyInv, SnapsInv,
         HeadInv, HeldInv, Put, LinkChain, Refines;
    match s.cons
    case PopStore(_, _) => PopRefines(s);
    case PopSwap(_) => PopRefines(s);
    case PopRestore(_, _) => PopRefines(s);
    case UndoSwap(_) => UndoSwapRefines(s);
    case UndoStore(c, n) => QueueEventRefines(s, Consume(s), Prepended(c));
    case SnapSwap(_) => SnapSwapRefines(s);
    case Idle =>
    case _ => NoEventRefines(s, Consume(s));
  }

  lemma WalkEventRefines(s: State, s': State, k: nat)
    requires Refines(s) && k in s.snaps && s.snaps[k].rest != []
    requires s'.queue == s.queue && s'.captures == s.captures && s'.hist == s.hist + [Delivered(k, s.snaps[k].rest[0])]
    requires s'.snaps - {k} == s.snaps - {k}
    requires var r := s.snaps[k].rest[1..]; if r == [] then k !in s'.snaps else k in s'.snaps && s'.snaps[k].rest == r
    ensures Refines(s')
  {
    ReplayAppend(s.hist, Delivered(k, s.snaps[k].rest[0]));
    assert forall j :: j in s.snaps && j != k ==> j in s.snaps - {k};
    assert forall j :: j in s'.snaps && j != k ==> j in s'.snaps - {k};
  }

  lemma WalkRefines(s: State, k: nat)
    requires Inv(s) && Refines(s) && CanWalk(s, k)
    ensures Refines(Walk(s, k))
  {
    hide NodesInv, SuccInv, QueueInv, TailInv, LinksInv, OwedInv, OwedHeadInv, PendingInv, ReadyInv, SnapsInv,
         HeadInv, HeldInv, Refines;
    WalkLink(s, k);
    WalkEventRefines(s, Walk(s, k), k);
  }

  /** Each step is a step of the sequential queue, or changes nothing the queue can see. */
  lemma StepRefines(s: State, l: Label)
    requires Inv(s) && Refines(s) && Enabled(s, l)
    ensures Refines(Step(s, l))
  {
    hide NodesInv, SuccInv, QueueInv, TailInv, LinksInv, OwedInv, OwedHeadInv, PendingInv, ReadyInv, SnapsInv,
         HeadInv, HeldInv, Put, LinkChain, Refines, FreshChain, Distinct;
    match l
    case LConsume => ConsumeRefines(s);
    case LWalk(k) => WalkRefines(s, k);
    case LExchange(t) => QueueEventRefines(s, Exchange(s, t), Enqueued(s.prods[t].chain));
    case LPrepare(t, c) => NoEventRefines(s, Prepare(s, t, c));
    case LLink(t) => NoEventRefines(s, Link(s, t));
    case LPop => NoEventRefines(s, BeginPop(s));
    case LUndo(c, nx) => NoEventRefines(s, BeginUndo(s, c, nx));
    case LSnap => NoEventRefines(s, BeginSnap(s));
  }

  lemma {:induction false} RunKeepsInv(ls: seq<Label>)
    requires Run(ls).Some?
    ensures Inv(Run(ls).value) && Refines(Run(ls).value)
  {
    if ls != [] {
      RunKeepsInv(ls[..|ls| - 1]);
      var s, l := Run(ls[..|ls| - 1]).value, ls[|ls| - 1];
      StepKeepsInv(s, l);
      StepRefines(s, l);
      hide *;
    }
  }

  // ---- main results -------------------------------------------------------------------------

  /** Whatever the schedule, the memory always represents a queue that has behaved sequentially:
      without put-backs, what left the queue followed by what is in it is what was added, in the order
      of the tail exchanges; with put-backs, nothing is lost or duplicated. */
  lemma ItemsComeOutOnceInOrder(ls: seq<Label>)
    requires Run(ls).Some?
    ensures var s := Run(ls).value;
            && (PutBack(s.hist) == [] ==> Removed(s.hist) + s.queue == Added(s.hist))
            && multiset(Removed(s.hist)) + multiset(s.queue) == multiset(Added(s.hist)) + multiset(PutBack(s.hist))
  {
    RunKeepsInv(ls);
    hide Inv;
    var h := Run(ls).value.hist;
    if PutBack(h) == [] { FirstInFirstOut(h); }
    Conservation(h);
  }

  /** A snapshot holds exactly what was in the queue at its exchange, and its walk delivers that in order;
      an item whose tail was exchanged later is not in it. */
  lemma SnapshotsAreExact(ls: seq<Label>, k: nat)
    requires Run(ls).Some?
    ensures var s := Run(ls).value;
            && (k in s.snaps ==> DeliveredBy(s.hist, k) + s.snaps[k].rest == CapturedBy(s.hist, k))
            && (k !in s.snaps ==> DeliveredBy(s.hist, k) == CapturedBy(s.hist, k))
  {
    RunKeepsInv(ls);
    hide Inv;
    SnapshotDelivery(Run(ls).value.hist, k);
  }

  /** The two emptiness tests, and the head the consumer reads, say what they should about the queue. */
  lemma HeadAndTailAreRight(ls: seq<Label>)
    requires Run(ls).Some?
    ensures var s := Run(ls).value;
            && (s.tail == NULL <==> s.queue == [])
            && (s.cons.Idle? && s.head != NULL ==> s.queue != [] && s.head == s.queue[0])
  {
    RunKeepsInv(ls);
    TailNull(Run(ls).value);
  }

  /** Someone is between its tail exchange and its link, and the link it owes out of `prev` is `first`. */
  ghost predicate SomeoneOwes(s: State, prev: Ptr, first: Ptr) {
    exists t :: t in s.prods && s.prods[t] == Linking(prev, first)
  }

  /** The consumer only ever waits for a link that some producer is about to write. */
  lemma WaitsOnlyForOwedLinks(ls: seq<Label>)
    requires Run(ls).Some?
    ensures var s := Run(ls).value;
            && (s.cons.PopAwait? && !CanConsume(s) ==>
                  |s.queue| > 1 && s.queue[0] == s.cons.h && SomeoneOwes(s, s.cons.h, s.queue[1]))
            && (s.queue != [] && s.head == NULL && (s.cons.Idle? || s.cons.UndoAwait?) ==>
                  SomeoneOwes(s, NULL, s.queue[0]))
            && (forall k :: k in s.snaps && !CanWalk(s, k) ==>
                  |s.snaps[k].rest| > 1 && SomeoneOwes(s, s.snaps[k].head, s.snaps[k].rest[1]))
  {
    RunKeepsInv(ls);
    var s := Run(ls).value;
    hide Refines, ReadyInv, PendingInv;
    if s.cons.PopAwait? && !CanConsume(s) {
      OwedOut(s, s.queue, Queued);
    }
    if s.queue != [] && s.head == NULL && (s.cons.Idle? || s.cons.UndoAwait?) {
      assert NULL in s.owed;
    }
    forall k | k in s.snaps && !CanWalk(s, k)
      ensures |s.snaps[k].rest| > 1 && SomeoneOwes(s, s.snaps[k].head, s.snaps[k].rest[1])
    {
      OwedOut(s, s.snaps[k].rest, Snapped(k));
    }
  }

  lemma OwedOut(s: State, c: seq<Ptr>, p: Place)
    requires NodesInv(s) && SuccInv(s) && LinksInv(s) && OwedInv(s) && Region(s, c, p)
    requires |c| > 1 && s.next[c[0]] == NULL
    ensures SomeoneOwes(s, c[0], c[1])
  {
    assert Maps(s.succ, c[0], c[1]);
    var t := s.owed[c[0]];
    assert s.prods[t] == Linking(c[0], c[1]);
  }

  /** When that producer takes its next step, the wait is over. */
  lemma LinkEndsTheWait(s: State, t: Tid)
    requires Inv(s) && CanLink(s, t)
    ensures s.cons.PopAwait? && s.prods[t].prev == s.cons.h ==> CanConsume(Link(s, t))
    ensures s.cons.UndoAwait? && s.prods[t].prev == NULL ==> CanConsume(Link(s, t))
    ensures forall k :: k in s.snaps && s.prods[t].prev == s.snaps[k].head ==> CanWalk(Link(s, t), k)
  {
    var Linking(prev, first) := s.prods[t];
    assert s.owed[prev] == t;
    assert prev != NULL ==> first == s.succ[prev];
    hide ReadyInv, Distinct, Linked;
  }

  /** What os_mpsc_pop_head returns when its last step is the one about to be taken. */
  function PopResult(c: Consumer): Ptr
    requires c.PopStore? || c.PopSwap? || c.PopRestore?
  {
    if c.PopSwap? then NULL else c.n
  }

  /** A pop returns the new head, which is NULL exactly when the queue is left empty. */
  lemma PopReturnsTheNewHead(s: State)
    requires Inv(s) && (s.cons.PopStore? || s.cons.PopSwap? || s.cons.PopRestore?) && Consume(s).cons.Idle?
    ensures Consume(s).head == PopResult(s.cons)
    ensures Consume(s).queue == s.queue[1..]
    ensures PopResult(s.cons) == NULL <==> Consume(s).queue == []
  {
    hide SuccInv, TailInv, LinksInv, OwedInv, OwedHeadInv, PendingInv, ReadyInv, SnapsInv, HeldInv, Put, LinkChain;
    var q := s.queue;
    assert q != [] && q[0] in s.place;
    assert |q| > 1 ==> q[1] in s.place && q[1] != NULL;
    if s.cons.PopSwap? { PopSwapKeepsInv(s); }
    hide NodesInv, QueueInv;
  }

  /** No producer ever changes a head the consumer has seen, so what a pop returned, or what
      os_mpsc_prepend loaded, is still NULL or the head when the chain is put back. */
  lemma ProducersKeepTheHead(s: State, l: Label)
    requires Inv(s) && Enabled(s, l) && (l.LPrepare? || l.LExchange? || l.LLink?)
    ensures s.head != NULL ==> Step(s, l).head == s.head
  {
    hide NodesInv, SuccInv, QueueInv, TailInv, LinksInv, ReadyInv, SnapsInv, HeldInv, Put, LinkChain, Distinct;
    if l.LLink? { assert s.owed[s.prods[l.t].prev] == l.t; }
  }

  // ---- when steps can be taken --------------------------------------------------------------

  /** An idle consumer with a non-empty queue can pop it or take a snapshot, unless the head is still owed;
      and it can put back any chain, with what a pop returned even if pushes came in between. */
  lemma ConsumerCanStart(s: State, c: seq<Ptr>)
    requires Inv(s) && s.cons.Idle?
    ensures Enabled(s, LPop) <==> s.queue != [] && NULL !in s.owed
    ensures Enabled(s, LSnap) <==> s.queue != [] && NULL !in s.owed
    ensures FreshChain(s, c) ==> Enabled(s, LUndo(c, NULL)) && Enabled(s, LUndo(c, s.head))
  {
    hide SuccInv, TailInv, LinksInv, OwedInv, PendingInv, ReadyInv, SnapsInv, HeldInv, FreshChain, Distinct, Linked;
    if s.queue != [] { assert s.queue[0] in s.place; }
  }

  /** In the middle of an operation the consumer waits exactly for a link that is owed, and a walk too. */
  lemma ConsumerWaitsExactlyForOwed(s: State, k: nat)
    requires Inv(s)
    ensures !s.cons.Idle? ==>
              (CanConsume(s) <==> !(s.cons.PopAwait? && s.cons.h in s.owed) && !(s.cons.UndoAwait? && NULL in s.owed))
    ensures k in s.snaps ==>
              (CanWalk(s, k) <==> s.snaps[k].head == s.snaps[k].tail || s.snaps[k].head !in s.owed)
  {
    hide PendingInv, ReadyInv, OwedInv, FreshChain;
    if s.cons.PopAwait? {
      assert Maps(s.succ, s.queue[0], s.queue[1]);
    }
    if s.queue != [] { assert s.queue[0] in s.place; }
    if k in s.snaps { SnapshotLink(s, k); }
  }

  lemma SnapshotLink(s: State, k: nat)
    requires NodesInv(s) && SuccInv(s) && LinksInv(s) && SnapsInv(s) && k in s.snaps
    ensures s.snaps[k].head != s.snaps[k].tail ==>
              var h := s.snaps[k].head; h in s.succ && h in s.next && (s.next[h] == NULL <==> h in s.owed)
  {
    var c := s.snaps[k].rest;
    if |c| > 1 { assert Maps(s.succ, c[0], c[1]); }
  }

  /** Producers never wait: whoever is in the middle of a push can go on. */
  lemma ProducersNeverWait(s: State, t: Tid)
    requires Inv(s) && t in s.prods
    ensures Enabled(s, LExchange(t)) <==> s.prods[t].Ready?
    ensures Enabled(s, LLink(t)) <==> s.prods[t].Linking?
  {
    hide NodesInv, SuccInv, QueueInv, TailInv, LinksInv, OwedInv, OwedHeadInv, PendingInv, SnapsInv, HeadInv, HeldInv;
  }

  /** So once nobody is in the middle of a push, nothing ever waits. */
  lemma NothingWaitsWithoutProducers(s: State, k: nat)
    requires Inv(s) && |s.prods| == 0
    ensures !s.cons.Idle? ==> Enabled(s, LConsume)
    ensures k in s.snaps ==> Enabled(s, LWalk(k))
    ensures s.cons.Idle? && s.queue != [] ==> Enabled(s, LPop) && Enabled(s, LSnap)
  {
    hide NodesInv, SuccInv, QueueInv, TailInv, LinksInv, PendingInv, ReadyInv, SnapsInv, HeadInv, HeldInv;
    hide CanConsume, CanWalk, CanBeginPop, CanBeginSnap, CanBeginUndo;
    ConsumerWaitsExactlyForOwed(s, k);
    if s.cons.Idle? { ConsumerCanStart(s, []); }
    NothingOwed(s);
  }

  lemma NothingOwed(s: State)
    requires OwedInv(s) && OwedHeadInv(s) && |s.prods| == 0
    ensures forall x :: x !in s.owed
  {
    assert s.prods.Keys == {};
    assert forall t :: t !in s.prods;
  }

  /** Any chain of free nodes, no node twice, can be pushed by whoever is not pushing already. */
  lemma AnyFreeChainCanBePushed(s: State, t: Tid, c: seq<Ptr>)
    requires t !in s.prods && |c| > 0
    requires forall i, j :: 0 <= i < |c| && 0 <= j < |c| && i != j ==> c[i] != c[j]
    requires forall i :: 0 <= i < |c| ==> c[i] != NULL && c[i] !in s.place
    ensures Enabled(s, LPrepare(t, c))
  {}

  /** How many steps of its own a consumer or a producer has still to make at most. */
  function ConsumerSteps(c: Consumer): nat {
    match c
    case Idle => 0
    case PopStore(_, _) => 4
    case PopSwap(_) => 3
    case PopAwait(_) => 2
    case PopRestore(_, _) => 1
    case UndoSwap(_) => 4
    case UndoAwait(_) => 3
    case UndoRelink(_, _) => 2
    case UndoStore(_, _) => 1
    case UndoPublish(_) => 1
    case SnapClear(_) => 2
    case SnapSwap(_) => 1
  }

  function ProducerSteps(s: State, t: Tid): nat {
    if t !in s.prods then 0 else if s.prods[t].Ready? then 2 else 1
  }

  /** Every operation gets on with each of its steps and comes to an end: a pop or an undo after four at most, a
      snapshot after two. */
  lemma ConsumerGetsOn(s: State)
    requires CanConsume(s)
    ensures ConsumerSteps(Consume(s).cons) < ConsumerSteps(s.cons) <= 4
  {
    hide Consume, CanConsume, ConsumerSteps;
    if s.cons.UndoSwap? || s.cons.UndoStore? || s.cons.UndoPublish? { PutBackGetsOn(s); }
    if s.cons.PopStore? || s.cons.PopSwap? || s.cons.PopAwait? || s.cons.PopRestore? { PopGetsOn(s); }
    if s.cons.UndoAwait? || s.cons.UndoRelink? || s.cons.SnapClear? || s.cons.SnapSwap? { RestGetsOn(s); }
    assert !s.cons.Idle? by { IdleWaits(s); }
  }

  lemma IdleWaits(s: State)
    ensures s.cons.Idle? ==> !CanConsume(s)
  {}

  lemma PutBackGetsOn(s: State)
    requires CanConsume(s) && (s.cons.UndoSwap? || s.cons.UndoStore? || s.cons.UndoPublish?)
    ensures ConsumerSteps(Consume(s).cons) < ConsumerSteps(s.cons) <= 4
  {
    hide LinkChain, Put, Distinct, Last;
  }

  lemma PopGetsOn(s: State)
    requires CanConsume(s) && (s.cons.PopStore? || s.cons.PopSwap? || s.cons.PopAwait? || s.cons.PopRestore?)
    ensures ConsumerSteps(Consume(s).cons) < ConsumerSteps(s.cons) <= 4
  {
    hide LinkChain, Put, Distinct, Last;
  }

  lemma RestGetsOn(s: State)
    requires CanConsume(s) && (s.cons.UndoAwait? || s.cons.UndoRelink? || s.cons.SnapClear? || s.cons.SnapSwap?)
    ensures ConsumerSteps(Consume(s).cons) < ConsumerSteps(s.cons) <= 4
  {
    hide LinkChain, Put, Distinct, Last;
  }

  lemma OperationsStart(s: State, l: Label)
    requires Enabled(s, l) && (l.LPop? || l.LUndo? || l.LSnap?)
    ensures s.cons.Idle? && !Step(s, l).cons.Idle?
    ensures ConsumerSteps(Step(s, l).cons) <= if l.LSnap? then 2 else 4
  {
    hide LinkChain, Put, FreshChain;
  }

  /** A push ends after two more steps. */
  lemma ProducersGetOn(s: State, l: Label)
    requires Enabled(s, l)
    ensures l.LPrepare? ==> ProducerSteps(s, l.t) == 0 && ProducerSteps(Step(s, l), l.t) == 2
    ensures l.LExchange? || l.LLink? ==> ProducerSteps(Step(s, l), l.t) == ProducerSteps(s, l.t) - 1
  {
    hide LinkChain, Put, FreshChain, Distinct;
  }

  /** A walk ends after as many steps as the snapshot has nodes. */
  lemma WalksGetOn(s: State, k: nat)
    requires SnapsInv(s) && CanWalk(s, k)
    ensures if |s.snaps[k].rest| == 1 then k !in Walk(s, k).snaps
            else k in Walk(s, k).snaps && |Walk(s, k).snaps[k].rest| == |s.snaps[k].rest| - 1
  {
    hide Linked;
  }

  /** Once a node has left, it is free, and may be pushed again. */
  lemma PoppedNodesAreFree(s: State)
    requires HeadInv(s) && CanConsume(s) && (s.cons.PopStore? || s.cons.PopSwap? || s.cons.PopRestore?)
    ensures Consume(s).cons.Idle? ==>
              s.queue != [] && s.cons.h == s.queue[0] && s.cons.h !in Consume(s).place
  {}

  lemma WalkedNodesAreFree(s: State, k: nat)
    requires CanWalk(s, k)
    ensures s.snaps[k].head !in Walk(s, k).place
  {}
}
