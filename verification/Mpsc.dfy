/** The sequential queue that the os_mpsc_* macros implement.
    A history is a list of events; `Replay` says whether a sequential queue allows it. */
module FifoSpec {
  import opened Options

  type Ptr = nat

  datatype Event =
    | Enqueued(chain: seq<Ptr>)              // a producer exchanged the tail
    | Dequeued(node: Ptr)                    // os_mpsc_pop_head took the first item
    | Prepended(chain: seq<Ptr>)             // os_mpsc_undo_pop_list / os_mpsc_prepend
    | Captured(id: nat, chain: seq<Ptr>)     // os_mpsc_capture_snapshot
    | Delivered(id: nat, node: Ptr)          // os_mpsc_pop_snapshot_head moved past a node

  /** `taken` holds what is still to be walked of each captured snapshot. */
  datatype Fifo = Fifo(queue: seq<Ptr>, taken: map<nat, seq<Ptr>>, captures: nat)

  function Accept(f: Fifo, e: Event): Option<Fifo> {
    match e
    case Enqueued(chain) => Some(f.(queue := f.queue + chain))
    case Dequeued(x) =>
      if f.queue != [] && f.queue[0] == x then Some(f.(queue := f.queue[1..])) else None
    case Prepended(chain) => Some(f.(queue := chain + f.queue))
    case Captured(k, chain) =>
      if k == f.captures && chain == f.queue != [] then
        Some(Fifo([], f.taken[k := chain], k + 1))
      else None
    case Delivered(k, x) =>
      if k in f.taken && f.taken[k] != [] && f.taken[k][0] == x then
        Some(f.(taken := f.taken[k := f.taken[k][1..]]))
      else None
  }

  function Replay(h: seq<Event>): Option<Fifo> {
    if h == [] then Some(Fifo([], map[], 0))
    else
      match Replay(h[..|h| - 1])
      case None => None
      case Some(f) => Accept(f, h[|h| - 1])
  }

  lemma ReplayAppend(h: seq<Event>, e: Event)
    ensures Replay(h + [e]) == match Replay(h) case None => None case Some(f) => Accept(f, e)
  {
    assert (h + [e])[..|h|] == h;
  }

  function Chain(e: Event): seq<Ptr> {
    match e
    case Enqueued(c) => c
    case Prepended(c) => c
    case Dequeued(x) => [x]
    case Captured(_, c) => c
    case Delivered(_, x) => [x]
  }

  /** Everything added at the back, in order. */
  function Added(h: seq<Event>): seq<Ptr> {
    if h == [] then []
    else Added(h[..|h| - 1]) + if h[|h| - 1].Enqueued? then Chain(h[|h| - 1]) else []
  }

  /** Everything put back at the front, in order. */
  function PutBack(h: seq<Event>): seq<Ptr> {
    if h == [] then []
    else PutBack(h[..|h| - 1]) + if h[|h| - 1].Prepended? then Chain(h[|h| - 1]) else []
  }

  /** Everything that left the queue, in order. */
  function Removed(h: seq<Event>): seq<Ptr> {
    if h == [] then []
    else Removed(h[..|h| - 1]) +
         if h[|h| - 1].Dequeued? || h[|h| - 1].Captured? then Chain(h[|h| - 1]) else []
  }

  function CapturedBy(h: seq<Event>, k: nat): seq<Ptr> {
    if h == [] then []
    else CapturedBy(h[..|h| - 1], k) +
         match h[|h| - 1] case Captured(j, c) => (if j == k then c else []) case _ => []
  }

  function DeliveredBy(h: seq<Event>, k: nat): seq<Ptr> {
    if h == [] then []
    else DeliveredBy(h[..|h| - 1], k) +
         match h[|h| - 1] case Delivered(j, x) => (if j == k then [x] else []) case _ => []
  }

  /** Without put-backs, items leave in exactly the order in which they were added, each once. */
  lemma {:induction false} FirstInFirstOut(h: seq<Event>)
    requires Replay(h).Some? && PutBack(h) == []
    ensures Removed(h) + Replay(h).value.queue == Added(h)
  {
    if h != [] {
      var g, e := h[..|h| - 1], h[|h| - 1];
      assert PutBack(h) == PutBack(g) + if e.Prepended? then Chain(e) else [];
      FirstInFirstOut(g);
      var q := Replay(g).value.queue;
      match e
      case Dequeued(x) => assert q == [x] + q[1..];
      case Prepended(c) => assert c == [] && c + q == q;
      case _ =>
    }
  }

  /** One accepted event moves exactly its own chain into or out of the queue. */
  lemma AcceptConserves(f: Fifo, e: Event)
    requires Accept(f, e).Some?
    ensures var q, q' := multiset(f.queue), multiset(Accept(f, e).value.queue);
            match e
            case Enqueued(c) => q' == q + multiset(c)
            case Prepended(c) => q' == q + multiset(c)
            case Dequeued(x) => q == q' + multiset{x}
            case Captured(_, c) => q == q' + multiset(c)
            case Delivered(_, _) => q == q'
  {
    if e.Dequeued? { assert f.queue == [e.node] + f.queue[1..]; }
  }

  /** With put-backs, no item is lost or duplicated. */
  lemma {:induction false} Conservation(h: seq<Event>)
    requires Replay(h).Some?
    ensures multiset(Removed(h)) + multiset(Replay(h).value.queue)
         == multiset(Added(h)) + multiset(PutBack(h))
  {
    if h != [] {
      var g, e := h[..|h| - 1], h[|h| - 1];
      Conservation(g);
      AcceptConserves(Replay(g).value, e);
      var a, p, r := multiset(Added(g)), multiset(PutBack(g)), multiset(Removed(g));
      var q, q', c := multiset(Replay(g).value.queue), multiset(Replay(h).value.queue), multiset(Chain(e));
      assert multiset(Added(h)) == if e.Enqueued? then a + c else a;
      assert multiset(PutBack(h)) == if e.Prepended? then p + c else p;
      assert multiset(Removed(h)) == if e.Dequeued? || e.Captured? then r + c else r;
      Balance(a, p, r, q, q', c);
    }
  }

  lemma Balance(a: multiset<Ptr>, p: multiset<Ptr>, r: multiset<Ptr>, q: multiset<Ptr>, q': multiset<Ptr>,
                c: multiset<Ptr>)
    requires r + q == a + p
    ensures q' == q + c ==> r + q' == (a + c) + p && r + q' == a + (p + c)
    ensures q == q' + c ==> (r + c) + q' == a + p
    ensures q == q' ==> r + q' == a + p
  {
    if q' == q + c { assert r + q' == (r + q) + c; }
    if q == q' + c { assert (r + c) + q' == r + q; }
  }

  predicate OnlyEnqueues(h: seq<Event>) {
    forall i :: 0 <= i < |h| ==> h[i].Enqueued?
  }

  lemma {:induction false} ReplayEnqueues(h: seq<Event>, more: seq<Event>)
    requires Replay(h).Some? && OnlyEnqueues(more)
    ensures Replay(h + more) == Some(Replay(h).value.(queue := Replay(h).value.queue + Added(more)))
  {
    hide Replay;
    if more == [] {
      assert h + more == h && Replay(h).value.queue + Added(more) == Replay(h).value.queue;
    } else {
      var init := more[..|more| - 1];
      ReplayEnqueues(h, init);
      assert h + more == (h + init) + [more[|more| - 1]];
      ReplayAppend(h + init, more[|more| - 1]);
      var q := Replay(h).value.queue;
      assert q + Added(more) == (q + Added(init)) + more[|more| - 1].chain;
    }
  }

  /** Putting back what was popped, after any pushes in between, is the same as never having popped it. */
  lemma UndoCancelsPop(h: seq<Event>, x: Ptr, more: seq<Event>)
    requires Replay(h + [Dequeued(x)]).Some? && OnlyEnqueues(more)
    ensures Replay(h + [Dequeued(x)] + more + [Prepended([x])]) == Replay(h + more)
  {
    ReplayAppend(h, Dequeued(x));
    ReplayEnqueues(h + [Dequeued(x)], more);
    ReplayAppend(h + [Dequeued(x)] + more, Prepended([x]));
    ReplayEnqueues(h, more);
    var q := Replay(h).value.queue;
    assert [x] + (q[1..] + Added(more)) == q + Added(more);
  }

  /** A snapshot's walk delivers the captured items in order, and what is left is what is missing. */
  lemma {:induction false} SnapshotDelivery(h: seq<Event>, k: nat)
    requires Replay(h).Some?
    ensures var f := Replay(h).value;
            && (k in f.taken <==> k < f.captures)
            && DeliveredBy(h, k) + (if k in f.taken then f.taken[k] else []) == CapturedBy(h, k)
  {
    if h != [] {
      var g, e := h[..|h| - 1], h[|h| - 1];
      SnapshotDelivery(g, k);
      var f := Replay(g).value;
      match e
      case Delivered(j, x) =>
        if j == k { assert f.taken[k] == [x] + f.taken[k][1..]; }
      case _ =>
    }
  }
}
