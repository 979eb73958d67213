/** Every step of the os_mpsc_* macros keeps the invariant. */
module MpscProofs {
  import opened FifoSpec
  import opened MpscProtocol

  // ---- chains and frames --------------------------------------------------------------------

  lemma DistinctAppend(a: seq<Ptr>, b: seq<Ptr>)
    requires Distinct(a) && Distinct(b)
    requires forall i, j :: 0 <= i < |a| && 0 <= j < |b| ==> a[i] != b[j]
    ensures Distinct(a + b)
  {}

  lemma LinkedAppend(m: map<Ptr, Ptr>, a: seq<Ptr>, b: seq<Ptr>)
    requires Linked(m, a) && Linked(m, b)
    requires a != [] && b != [] ==> Last(a) in m && m[Last(a)] == b[0]
    ensures Linked(m, a + b)
  {
    var c := a + b;
    forall i, j | 0 <= i < |c| && 0 <= j < |c| && j == i + 1
      ensures Maps(m, c[i], c[j])
    {
      if j < |a| { assert c[i] == a[i] && c[j] == a[j]; }
      else if i < |a| { assert c[i] == Last(a) && c[j] == b[0]; }
      else { assert c[i] == b[i - |a|] && c[j] == b[j - |a|]; }
    }
  }

  /** The node's place and successor are the same in both states. */
  ghost predicate Keeps(s: State, s': State, x: Ptr) {
    && x in s.place && x in s'.place && s'.place[x] == s.place[x]
    && (x in s.succ <==> x in s'.succ)
    && (x in s.succ ==> s'.succ[x] == s.succ[x])
  }

  ghost predicate KeepsPrivate(s: State, s': State, x: Ptr) {
    && x in s.place && x in s'.place && s'.place[x] == s.place[x]
    && x in s.next && x in s'.next && s'.next[x] == s.next[x]
  }

  lemma RegionFrame(s: State, s': State, c: seq<Ptr>, p: Place)
    requires Region(s, c, p)
    requires forall i :: 0 <= i < |c| ==> Keeps(s, s', c[i])
    ensures Region(s', c, p)
  {}

  lemma PrivateFrame(s: State, s': State, c: seq<Ptr>, p: Place, l: Ptr)
    requires PrivateChain(s, c, p, l)
    requires forall i :: 0 <= i < |c| ==> KeepsPrivate(s, s', c[i])
    ensures PrivateChain(s', c, p, l)
  {}

  lemma SnapsFrame(s: State, s': State)
    requires SnapsInv(s) && s'.snaps == s.snaps && s.captures <= s'.captures
    requires forall x :: x in s.place && s.place[x].Snapped? ==> Keeps(s, s', x)
    ensures SnapsInv(s')
  {
    forall k | k in s.snaps
      ensures Region(s', s.snaps[k].rest, Snapped(k))
    {
      RegionFrame(s, s', s.snaps[k].rest, Snapped(k));
    }
  }

  lemma ReadyFrame(s: State, s': State)
    requires ReadyInv(s)
    requires forall t :: t in s'.prods && s'.prods[t].Ready? ==> t in s.prods && s.prods[t] == s'.prods[t]
    requires forall t, x :: t in s'.prods && s'.prods[t].Ready? && x in s.place && s.place[x] == Private(t) ==>
               KeepsPrivate(s, s', x)
    ensures ReadyInv(s')
  {
    forall t | t in s'.prods && s'.prods[t].Ready?
      ensures PrivateChain(s', s'.prods[t].chain, Private(t), NULL)
    {
      PrivateFrame(s, s', s'.prods[t].chain, Private(t), NULL);
    }
  }

  /** The consumer's own half-done chain is out of the producers' reach. */
  lemma HeldFrame(s: State, s': State)
    requires HeldInv(s) && s'.cons == s.cons
    requires forall x :: x in s.place && s.place[x] == Held ==> KeepsPrivate(s, s', x)
    ensures HeldInv(s')
  {
    match s.cons
    case UndoSwap(c) => PrivateFrame(s, s', c, Held, NULL);
    case UndoAwait(c) => PrivateFrame(s, s', c, Held, NULL);
    case UndoRelink(c, n) => PrivateFrame(s, s', c, Held, NULL);
    case UndoStore(c, n) => PrivateFrame(s, s', c, Held, n);
    case _ =>
  }

  /** Giving fresh nodes a place and a next disturbs nothing that is already there. */
  lemma FreshFrame(s: State, s': State, c: seq<Ptr>, p: Place)
    requires NodesInv(s) && SuccInv(s) && QueueInv(s) && TailInv(s) && LinksInv(s) && SnapsInv(s) && FreshChain(s, c)
    requires s'.place == Put(s.place, c, p)
    requires s.next.Keys <= s'.next.Keys && forall x :: x in c ==> x in s'.next
    requires forall x :: x in s.next && x !in c ==> s'.next[x] == s.next[x]
    requires s'.tail == s.tail && s'.queue == s.queue && s'.succ == s.succ
    requires s'.owed == s.owed && s'.snaps == s.snaps && s'.captures == s.captures
    ensures NodesInv(s') && SuccInv(s') && QueueInv(s') && TailInv(s') && LinksInv(s') && SnapsInv(s')
  {
    assert forall x :: x in s.place ==> x !in c && s'.place[x] == s.place[x];
    hide Put;
    assert SnapsInv(s') by { SnapsFrame(s, s'); }
    assert QueueInv(s') by { RegionFrame(s, s', s.queue, Queued); }
    hide Distinct, Linked;
    if s.queue != [] { assert s.tail == s.queue[|s.queue| - 1]; }
  }

  /** Linking a chain and then its last node makes it a chain that ends there. */
  lemma ChainEnd(m: map<Ptr, Ptr>, c: seq<Ptr>, y: Ptr)
    requires c != [] && Distinct(c)
    ensures Linked(LinkChain(m, c)[Last(c) := y], c)
  {
    LinkChainLinks(m, c);
    hide LinkChain;
  }

  /** os_mpsc_looks_empty: the tail is NULL exactly when the queue is empty. */
  lemma TailNull(s: State)
    requires NodesInv(s) && QueueInv(s) && TailInv(s)
    ensures s.tail == NULL <==> s.queue == []
  {
    hide Linked, Distinct;
    if s.queue != [] { assert s.tail == s.queue[|s.queue| - 1]; }
  }

  // ---- producers ----------------------------------------------------------------------------

  lemma PrepareKeepsInv(s: State, t: Tid, c: seq<Ptr>)
    requires Inv(s) && CanPrepare(s, t, c)
    ensures Inv(Prepare(s, t, c))
  {
    hide NodesInv, SuccInv, QueueInv, TailInv, LinksInv, OwedInv, OwedHeadInv, PendingInv, ReadyInv, SnapsInv,
         HeadInv, HeldInv, Put, LinkChain;
    FreshFrame(s, Prepare(s, t, c), c, Private(t));
    PreparePending(s, t, c);
    PrepareReady(s, t, c);
    PrepareHeld(s, t, c);
  }

  lemma PreparePending(s: State, t: Tid, c: seq<Ptr>)
    requires OwedInv(s) && OwedHeadInv(s) && PendingInv(s) && HeadInv(s) && CanPrepare(s, t, c)
    ensures var s' := Prepare(s, t, c); OwedInv(s') && OwedHeadInv(s') && PendingInv(s') && HeadInv(s')
  {
    hide Put, LinkChain, Distinct;
  }

  lemma PrepareReady(s: State, t: Tid, c: seq<Ptr>)
    requires NodesInv(s) && ReadyInv(s) && CanPrepare(s, t, c)
    ensures ReadyInv(Prepare(s, t, c))
  {
    var s' := Prepare(s, t, c);
    ChainEnd(s.next, c, NULL);
    hide Put, Linked, Distinct, LinkChain;
    assert PrivateChain(s', c, Private(t), NULL);
    assert forall x :: x in s.place ==> x !in c;
    forall u | u in s.prods && s.prods[u].Ready?
      ensures PrivateChain(s', s.prods[u].chain, Private(u), NULL)
    {
      PrivateFrame(s, s', s.prods[u].chain, Private(u), NULL);
    }
  }

  lemma PrepareHeld(s: State, t: Tid, c: seq<Ptr>)
    requires NodesInv(s) && HeldInv(s) && CanPrepare(s, t, c)
    ensures HeldInv(Prepare(s, t, c))
  {
    assert forall x :: x in s.place ==> x !in c;
    hide Put, LinkChain;
    HeldFrame(s, Prepare(s, t, c));
  }

  /** What the exchange makes of the successors. */
  lemma ExchangeSucc(s: State, t: Tid)
    requires NodesInv(s) && SuccInv(s) && QueueInv(s) && TailInv(s) && ReadyInv(s) && CanExchange(s, t)
    ensures var c, r := s.prods[t].chain, Exchange(s, t).succ;
            && PrivateChain(s, c, Private(t), NULL)
            && (forall x :: x in r <==> x in s.succ || (x == s.tail && x != NULL) || (x in c && x != Last(c)))
            && (forall x :: x in s.succ ==> x !in c && x != s.tail && r[x] == s.succ[x])
            && (s.tail != NULL ==> s.tail !in c && s.tail in s.place && s.place[s.tail] == Queued && r[s.tail] == c[0])
            && Linked(r, c)
            && (forall x :: x in c && x != Last(c) ==> r[x] != NULL)
  {
    var c := s.prods[t].chain;
    var base := if s.tail == NULL then s.succ else s.succ[s.tail := c[0]];
    LinkChainLinks(base, c);
    LinkChainNotNull(base, c);
    assert PrivateChain(s, c, Private(t), NULL);
    hide Linked, Distinct, ReadyInv;
    assert forall x :: x in c ==> x in s.place && s.place[x] == Private(t);
    if s.tail != NULL { assert s.tail == s.queue[|s.queue| - 1]; }
  }

  lemma ExchangeNodes(s: State, t: Tid)
    requires NodesInv(s) && SuccInv(s) && QueueInv(s) && TailInv(s) && ReadyInv(s) && CanExchange(s, t)
    ensures NodesInv(Exchange(s, t)) && TailInv(Exchange(s, t))
  {
    ExchangeSucc(s, t);
    hide Put, LinkChain, Linked, Distinct, ReadyInv, QueueInv, SuccInv;
  }

  lemma ExchangeSuccInv(s: State, t: Tid)
    requires NodesInv(s) && SuccInv(s) && QueueInv(s) && TailInv(s) && ReadyInv(s) && CanExchange(s, t)
    ensures SuccInv(Exchange(s, t))
  {
    ExchangeSucc(s, t);
    hide Put, LinkChain, Linked, Distinct, ReadyInv, QueueInv;
  }

  /** Joining two chained runs whose meeting point is linked gives one chained run. */
  lemma RegionJoin(s: State, a: seq<Ptr>, b: seq<Ptr>, p: Place)
    requires Distinct(a) && Distinct(b) && Linked(s.succ, a) && Linked(s.succ, b) && b != [] && Last(b) !in s.succ
    requires forall i :: 0 <= i < |a| ==> a[i] in s.place && s.place[a[i]] == p
    requires forall i :: 0 <= i < |b| ==> b[i] in s.place && s.place[b[i]] == p
    requires forall i, j :: 0 <= i < |a| && 0 <= j < |b| ==> a[i] != b[j]
    requires a != [] ==> Maps(s.succ, Last(a), b[0])
    ensures Region(s, a + b, p)
  {
    DistinctAppend(a, b);
    LinkedAppend(s.succ, a, b);
    hide Linked, Distinct;
    assert Last(a + b) == Last(b);
  }

  lemma LinkedFrame(m: map<Ptr, Ptr>, m': map<Ptr, Ptr>, c: seq<Ptr>)
    requires Linked(m, c) && forall x :: x in m ==> x in m' && m'[x] == m[x]
    ensures Linked(m', c)
  {}

  /** Two maps that both chain `c` agree on every node of it but the last. */
  lemma LinkedAgree(m: map<Ptr, Ptr>, m': map<Ptr, Ptr>, c: seq<Ptr>)
    requires c != [] && Linked(m, c) && Linked(m', c)
    ensures forall x :: x in c && x != Last(c) ==> x in m && x in m' && m[x] == m'[x]
  {
    forall x | x in c && x != Last(c)
      ensures x in m && x in m' && m[x] == m'[x]
    {
      var i :| 0 <= i < |c| && c[i] == x;
      var y := c[i + 1];
      assert Maps(m, x, y) && Maps(m', x, y);
    }
  }

  lemma ExchangeQueue(s: State, t: Tid)
    requires NodesInv(s) && SuccInv(s) && QueueInv(s) && TailInv(s) && ReadyInv(s) && CanExchange(s, t)
    ensures QueueInv(Exchange(s, t))
  {
    var c, s' := s.prods[t].chain, Exchange(s, t);
    ExchangeSucc(s, t);
    hide Put, LinkChain, ReadyInv, NodesInv, SuccInv;
    LinkedFrame(s.succ, s'.succ, s.queue);
    hide Linked, Distinct;
    RegionJoin(s', s.queue, c, Queued);
  }

  lemma ExchangeLinks(s: State, t: Tid)
    requires NodesInv(s) && SuccInv(s) && QueueInv(s) && TailInv(s) && LinksInv(s) && OwedInv(s) && ReadyInv(s)
    requires CanExchange(s, t)
    ensures LinksInv(Exchange(s, t))
  {
    var c, s' := s.prods[t].chain, Exchange(s, t);
    ExchangeSucc(s, t);
    LinkedAgree(s.next, s'.succ, c);
    hide Put, LinkChain, ReadyInv, QueueInv, Distinct, Linked;
  }

  lemma ExchangeOwed(s: State, t: Tid)
    requires NodesInv(s) && SuccInv(s) && QueueInv(s) && TailInv(s) && OwedInv(s) && ReadyInv(s) && CanExchange(s, t)
    ensures OwedInv(Exchange(s, t))
  {
    ExchangeSucc(s, t);
    hide Put, LinkChain, ReadyInv, Distinct, Linked, QueueInv, NodesInv, SuccInv;
  }

  lemma ExchangePending(s: State, t: Tid)
    requires NodesInv(s) && QueueInv(s) && TailInv(s) && OwedInv(s) && OwedHeadInv(s) && PendingInv(s)
    requires CanExchange(s, t)
    ensures OwedHeadInv(Exchange(s, t)) && PendingInv(Exchange(s, t))
  {
    hide Put, LinkChain, Distinct, Linked;
  }

  lemma ExchangeReady(s: State, t: Tid)
    requires ReadyInv(s) && NodesInv(s) && CanExchange(s, t)
    ensures ReadyInv(Exchange(s, t))
  {
    var c := s.prods[t].chain;
    assert forall x :: x in c ==> x in s.place && s.place[x] == Private(t);
    hide Put, LinkChain, Distinct, Linked;
    ReadyFrame(s, Exchange(s, t));
  }

  lemma ExchangeSnaps(s: State, t: Tid)
    requires NodesInv(s) && SuccInv(s) && QueueInv(s) && TailInv(s) && ReadyInv(s) && SnapsInv(s) && CanExchange(s, t)
    ensures SnapsInv(Exchange(s, t))
  {
    var c := s.prods[t].chain;
    ExchangeSucc(s, t);
    assert forall x :: x in c ==> x in s.place && s.place[x] == Private(t);
    hide Put, LinkChain, Distinct, Linked, ReadyInv, QueueInv;
    SnapsFrame(s, Exchange(s, t));
  }

  lemma ExchangeHead(s: State, t: Tid)
    requires NodesInv(s) && QueueInv(s) && TailInv(s) && OwedHeadInv(s) && HeadInv(s) && CanExchange(s, t)
    ensures HeadInv(Exchange(s, t))
  {
    hide Put, LinkChain, Linked;
  }

  lemma ExchangeHeld(s: State, t: Tid)
    requires NodesInv(s) && ReadyInv(s) && HeldInv(s) && CanExchange(s, t)
    ensures HeldInv(Exchange(s, t))
  {
    var c := s.prods[t].chain;
    assert forall x :: x in c ==> x in s.place && s.place[x] == Private(t);
    hide Put, LinkChain, Linked, ReadyInv, Distinct;
    HeldFrame(s, Exchange(s, t));
  }

  lemma ExchangeKeepsInv(s: State, t: Tid)
    requires Inv(s) && CanExchange(s, t)
    ensures Inv(Exchange(s, t))
  {
    hide NodesInv, SuccInv, QueueInv, TailInv, LinksInv, OwedInv, OwedHeadInv, PendingInv, ReadyInv, SnapsInv,
         HeadInv, HeldInv, Put, LinkChain;
    ExchangeNodes(s, t);
    ExchangeSuccInv(s, t);
    ExchangeQueue(s, t);
    ExchangeLinks(s, t);
    ExchangeOwed(s, t);
    ExchangePending(s, t);
    ExchangeReady(s, t);
    ExchangeSnaps(s, t);
    ExchangeHead(s, t);
    ExchangeHeld(s, t);
  }

  // The node a producer is about to link from is queued or captured, never private.
  lemma LinkFrame(s: State, t: Tid)
    requires NodesInv(s) && SuccInv(s) && OwedInv(s) && PendingInv(s) && CanLink(s, t)
    ensures forall x :: x in s.place && !s.place[x].Queued? && !s.place[x].Snapped? ==> KeepsPrivate(s, Link(s, t), x)
  {
    var Linking(prev, first) := s.prods[t];
    if prev != NULL { assert s.owed[prev] == t; }
  }

  lemma LinkMemory(s: State, t: Tid)
    requires NodesInv(s) && SuccInv(s) && QueueInv(s) && TailInv(s) && LinksInv(s) && OwedInv(s) && PendingInv(s)
    requires CanLink(s, t)
    ensures var s' := Link(s, t); NodesInv(s') && SuccInv(s') && QueueInv(s') && TailInv(s') && LinksInv(s')
  {
    var Linking(prev, first) := s.prods[t];
    assert s.owed[prev] == t;
    RegionFrame(s, Link(s, t), s.queue, Queued);
    hide Distinct, Linked;
  }

  lemma LinkPending(s: State, t: Tid)
    requires OwedInv(s) && OwedHeadInv(s) && PendingInv(s) && CanLink(s, t)
    ensures var s' := Link(s, t); OwedInv(s') && OwedHeadInv(s') && PendingInv(s')
  {
    assert s.owed[s.prods[t].prev] == t;
  }

  lemma LinkHead(s: State, t: Tid)
    requires OwedHeadInv(s) && PendingInv(s) && HeadInv(s) && CanLink(s, t)
    ensures HeadInv(Link(s, t))
  {
    assert s.owed[s.prods[t].prev] == t;
  }

  lemma LinkKeepsInv(s: State, t: Tid)
    requires Inv(s) && CanLink(s, t)
    ensures Inv(Link(s, t))
  {
    LinkFrame(s, t);
    hide NodesInv, SuccInv, QueueInv, TailInv, LinksInv, OwedInv, OwedHeadInv, PendingInv, ReadyInv, SnapsInv,
         HeadInv, HeldInv;
    LinkMemory(s, t);
    LinkPending(s, t);
    LinkHead(s, t);
    ReadyFrame(s, Link(s, t));
    HeldFrame(s, Link(s, t));
    assert SnapsInv(Link(s, t)) by { LinkSnaps(s, t); }
  }

  lemma LinkSnaps(s: State, t: Tid)
    requires SnapsInv(s) && CanLink(s, t)
    ensures SnapsInv(Link(s, t))
  {
    SnapsFrame(s, Link(s, t));
  }

  lemma RegionTail(s: State, s': State, c: seq<Ptr>, p: Place)
    requires Region(s, c, p) && |c| > 1
    requires forall i :: 1 <= i < |c| ==> Keeps(s, s', c[i])
    ensures Region(s', c[1..], p)
  {
    var d := c[1..];
    assert forall i :: 0 <= i < |d| ==> d[i] == c[i + 1];
    forall i, j | 0 <= i < |d| && 0 <= j < |d| && j == i + 1
      ensures Maps(s'.succ, d[i], d[j])
    {
      assert Maps(s.succ, c[i + 1], c[j + 1]);
    }
  }

  // ---- pop ----------------------------------------------------------------------------------

  lemma BeginPopKeepsInv(s: State)
    requires Inv(s) && CanBeginPop(s)
    ensures Inv(BeginPop(s))
  {
    var s' := BeginPop(s);
    assert HeadInv(s') by {
      if s.next[s.head] != NULL { HeadLink(s); }
    }
    hide HeadInv;
    SameMemory(s, s');
  }

  /** A head whose next is written has a second item behind it, and the next points to it. */
  lemma HeadLink(s: State)
    requires QueueInv(s) && TailInv(s) && LinksInv(s) && s.queue != []
    requires s.queue[0] in s.next && s.next[s.queue[0]] != NULL
    ensures |s.queue| > 1 && s.queue[0] !in s.owed && s.next[s.queue[0]] == s.queue[1]
  {
    if |s.queue| > 1 { assert Maps(s.succ, s.queue[0], s.queue[1]); }
  }

  /** Only the consumer's program counter moved, and not into or out of a put-back. */
  lemma SameMemory(s: State, s': State)
    requires Inv(s) && s' == s.(cons := s'.cons, head := s'.head) && HeldInv(s') && HeadInv(s')
    ensures Inv(s')
  {
    hide HeadInv, HeldInv;
    assert QueueInv(s') by { RegionFrame(s, s', s.queue, Queued); }
    assert SnapsInv(s') by { SnapsFrame(s, s'); }
    assert ReadyInv(s') by { ReadyFrame(s, s'); }
    hide Distinct, Linked, QueueInv, SnapsInv, ReadyInv;
  }

  /** What the three places that finish a pop have in common. */
  ghost predicate Poppable(s: State, h: Ptr, n: Ptr, tl: Ptr) {
    && s.queue != [] && s.queue[0] == h && h !in s.owed && NULL !in s.owed
    && (if |s.queue| == 1 then n == NULL == tl else n == s.queue[1] && tl == s.tail)
  }

  function Taken(s: State, h: Ptr, n: Ptr, tl: Ptr): State { Take(s.(head := n, tail := tl), h) }

  lemma TakeQueue(s: State, h: Ptr, n: Ptr, tl: Ptr)
    requires NodesInv(s) && QueueInv(s) && TailInv(s) && Poppable(s, h, n, tl)
    ensures var s' := Taken(s, h, n, tl); QueueInv(s') && TailInv(s')
  {
    var s', q := Taken(s, h, n, tl), s.queue[1..];
    assert forall i :: 1 <= i < |s.queue| ==> s.queue[i] != h;
    if q != [] {
      assert QueueInv(s') by { hide Linked, Distinct; RegionTail(s, s', s.queue, Queued); }
      hide Linked, Distinct, QueueInv;
      assert Last(q) == Last(s.queue);
    }
  }

  lemma TakeMaps(s: State, h: Ptr, n: Ptr, tl: Ptr)
    requires NodesInv(s) && SuccInv(s) && LinksInv(s) && OwedInv(s) && PendingInv(s) && Poppable(s, h, n, tl)
    ensures var s' := Taken(s, h, n, tl);
            NodesInv(s') && SuccInv(s') && LinksInv(s') && OwedInv(s') && OwedHeadInv(s') && PendingInv(s')
  {}

  lemma TakePrivate(s: State, h: Ptr, n: Ptr, tl: Ptr)
    requires QueueInv(s) && ReadyInv(s) && NodesInv(s) && Poppable(s, h, n, tl)
    ensures ReadyInv(Taken(s, h, n, tl))
  {
    assert s.place[h] == Queued;
    hide Distinct, Linked;
    ReadyFrame(s, Taken(s, h, n, tl));
  }

  lemma TakeSnaps(s: State, h: Ptr, n: Ptr, tl: Ptr)
    requires QueueInv(s) && SnapsInv(s) && Poppable(s, h, n, tl)
    ensures SnapsInv(Taken(s, h, n, tl))
  {
    assert s.place[h] == Queued;
    hide Distinct, Linked;
    SnapsFrame(s, Taken(s, h, n, tl));
  }

  lemma TakeKeepsInv(s: State, h: Ptr, n: Ptr, tl: Ptr)
    requires Inv(s) && Poppable(s, h, n, tl)
    ensures Inv(Taken(s, h, n, tl))
  {
    assert HeadInv(Taken(s, h, n, tl));
    assert HeldInv(Taken(s, h, n, tl));
    hide NodesInv, SuccInv, QueueInv, TailInv, LinksInv, OwedInv, OwedHeadInv, PendingInv, ReadyInv, SnapsInv,
         HeadInv, HeldInv;
    TakeQueue(s, h, n, tl);
    TakeMaps(s, h, n, tl);
    TakePrivate(s, h, n, tl);
    TakeSnaps(s, h, n, tl);
  }

  lemma PopStoreKeepsInv(s: State)
    requires Inv(s) && s.cons.PopStore?
    ensures Inv(Consume(s))
  {
    var PopStore(h, n) := s.cons;
    if n != NULL {
      TakeKeepsInv(s, h, n, s.tail);
    } else {
      SameMemory(s, Consume(s));
    }
  }

  /** The compare-and-swap succeeds exactly when the popped node is the only one. */
  lemma PopSwapKeepsInv(s: State)
    requires Inv(s) && s.cons.PopSwap?
    ensures Inv(Consume(s))
    ensures s.tail == s.cons.h <==> s.queue == [s.cons.h]
  {
    var h := s.cons.h;
    hide Linked;
    assert s.tail == h ==> |s.queue| == 1;
    if s.tail == h {
      assert s.queue == [h] && h !in s.owed;
      TakeKeepsInv(s, h, NULL, NULL);
      assert Consume(s) == Taken(s, h, NULL, NULL);
    } else {
      SameMemory(s, Consume(s));
    }
  }

  lemma PopAwaitKeepsInv(s: State)
    requires Inv(s) && s.cons.PopAwait? && CanConsume(s)
    ensures Inv(Consume(s))
  {
    HeadLink(s);
    SameMemory(s, Consume(s));
  }

  lemma PopRestoreKeepsInv(s: State)
    requires Inv(s) && s.cons.PopRestore?
    ensures Inv(Consume(s))
  {
    TakeKeepsInv(s, s.cons.h, s.cons.n, s.tail);
  }

  // ---- snapshot -----------------------------------------------------------------------------

  lemma BeginSnapKeepsInv(s: State)
    requires Inv(s) && CanBeginSnap(s)
    ensures Inv(BeginSnap(s))
  {
    SameMemory(s, BeginSnap(s));
  }

  lemma SnapClearKeepsInv(s: State)
    requires Inv(s) && s.cons.SnapClear?
    ensures Inv(Consume(s))
  {
    SameMemory(s, Consume(s));
  }

  lemma SnapSwapMaps(s: State)
    requires Inv(s) && s.cons.SnapSwap?
    ensures var s' := Consume(s);
            && NodesInv(s') && SuccInv(s') && QueueInv(s') && TailInv(s') && LinksInv(s')
            && OwedInv(s') && OwedHeadInv(s') && PendingInv(s') && HeadInv(s') && HeldInv(s')
  {
    assert QueueInv(Consume(s));
    hide ReadyInv, SnapsInv, Put, Linked, Distinct;
  }

  lemma SnapSwapReady(s: State)
    requires NodesInv(s) && QueueInv(s) && ReadyInv(s) && s.cons.SnapSwap?
    ensures ReadyInv(Consume(s))
  {
    assert forall x :: x in s.queue ==> s.place[x] == Queued;
    hide Put, Linked, Distinct;
    ReadyFrame(s, Consume(s));
  }

  lemma SnapSwapOld(s: State, k: nat)
    requires QueueInv(s) && SnapsInv(s) && s.cons.SnapSwap? && k in s.snaps
    ensures Region(Consume(s), s.snaps[k].rest, Snapped(k))
  {
    assert forall x :: x in s.queue ==> s.place[x] == Queued;
    assert Region(s, s.snaps[k].rest, Snapped(k));
    hide Put, Linked, Distinct, SnapsInv;
    RegionFrame(s, Consume(s), s.snaps[k].rest, Snapped(k));
  }

  lemma SnapSwapSnaps(s: State)
    requires QueueInv(s) && TailInv(s) && HeadInv(s) && SnapsInv(s) && s.cons.SnapSwap?
    ensures SnapsInv(Consume(s))
  {
    var s' := Consume(s);
    hide Put, Linked, Distinct;
    assert Region(s', s.queue, Snapped(s.captures)) by { hide SnapsInv, HeadInv, TailInv; }
    hide QueueInv;
    forall k | k in s.snaps
      ensures Region(s', s.snaps[k].rest, Snapped(k))
    {
      SnapSwapOld(s, k);
    }
    hide Region;
  }

  lemma SnapSwapKeepsInv(s: State)
    requires Inv(s) && s.cons.SnapSwap?
    ensures Inv(Consume(s))
  {
    SnapSwapMaps(s);
    SnapSwapReady(s);
    SnapSwapSnaps(s);
    hide *;
  }

  // ---- walking a snapshot -------------------------------------------------------------------

  /** Before the last node a written next is the next captured node; at the last node the pointers meet. */
  lemma WalkLink(s: State, k: nat)
    requires NodesInv(s) && LinksInv(s) && OwedInv(s) && SnapsInv(s) && CanWalk(s, k)
    ensures var Snapshot(h, t, rest) := s.snaps[k];
            && rest != [] && rest[0] == h && h in s.place && s.place[h] == Snapped(k) && h !in s.owed
            && (h == t <==> |rest| == 1)
            && (h != t ==> s.next[h] == rest[1])
            && (h == t ==> h !in s.succ)
  {
    var rest := s.snaps[k].rest;
    if |rest| > 1 { assert Maps(s.succ, rest[0], rest[1]); }
  }

  ghost predicate Walkable(s: State, k: nat) {
    CanWalk(s, k) && var h := s.snaps[k].head; h !in s.owed && h in s.place && s.place[h] == Snapped(k)
  }

  lemma WalkMaps(s: State, k: nat)
    requires NodesInv(s) && SuccInv(s) && LinksInv(s) && OwedInv(s) && Walkable(s, k)
    ensures var s' := Walk(s, k); NodesInv(s') && SuccInv(s') && LinksInv(s') && OwedInv(s')
  {}

  lemma WalkHead(s: State, k: nat)
    requires OwedHeadInv(s) && PendingInv(s) && TailInv(s) && HeadInv(s) && CanWalk(s, k)
    ensures var s' := Walk(s, k); OwedHeadInv(s') && PendingInv(s') && TailInv(s') && HeadInv(s')
  {}

  lemma WalkOthers(s: State, k: nat)
    requires NodesInv(s) && QueueInv(s) && ReadyInv(s) && HeldInv(s) && Walkable(s, k)
    ensures var s' := Walk(s, k); QueueInv(s') && ReadyInv(s') && HeldInv(s')
  {
    var s' := Walk(s, k);
    hide Linked, Distinct, ReadyInv, HeldInv;
    assert QueueInv(s') by { RegionFrame(s, s', s.queue, Queued); }
    hide QueueInv;
    assert ReadyInv(s') by { ReadyFrame(s, s'); }
    assert HeldInv(s') by { HeldFrame(s, s'); }
  }

  lemma WalkOtherSnap(s: State, k: nat, j: nat)
    requires SnapsInv(s) && Walkable(s, k) && j in s.snaps && j != k
    ensures Region(Walk(s, k), s.snaps[j].rest, Snapped(j))
  {
    assert Region(s, s.snaps[j].rest, Snapped(j));
    hide SnapsInv, Linked, Distinct;
    RegionFrame(s, Walk(s, k), s.snaps[j].rest, Snapped(j));
  }

  lemma WalkOwnSnap(s: State, k: nat)
    requires SnapsInv(s) && Walkable(s, k) && |s.snaps[k].rest| > 1
    ensures Region(Walk(s, k), s.snaps[k].rest[1..], Snapped(k))
  {
    var rest := s.snaps[k].rest;
    assert Region(s, rest, Snapped(k)) && rest[0] == s.snaps[k].head;
    hide SnapsInv, Linked;
    assert forall i :: 1 <= i < |rest| ==> rest[i] != rest[0];
    hide Distinct;
    RegionTail(s, Walk(s, k), rest, Snapped(k));
  }

  lemma WalkSnaps(s: State, k: nat)
    requires SnapsInv(s) && Walkable(s, k)
    requires var Snapshot(h, t, rest) := s.snaps[k]; (h == t <==> |rest| == 1) && (h != t ==> s.next[h] == rest[1])
    ensures SnapsInv(Walk(s, k))
  {
    var s' := Walk(s, k);
    assert s.snaps[k].rest != [];
    forall j | j in s'.snaps
      ensures Region(s', s'.snaps[j].rest, Snapped(j))
    {
      if j == k { WalkOwnSnap(s, k); } else { WalkOtherSnap(s, k, j); }
    }
    hide Region;
  }

  lemma WalkKeepsInv(s: State, k: nat)
    requires Inv(s) && CanWalk(s, k)
    ensures Inv(Walk(s, k))
  {
    hide NodesInv, SuccInv, QueueInv, TailInv, LinksInv, OwedInv, OwedHeadInv, PendingInv, ReadyInv, SnapsInv,
         HeadInv, HeldInv;
    WalkLink(s, k);
    WalkMaps(s, k);
    WalkHead(s, k);
    WalkOthers(s, k);
    WalkSnaps(s, k);
  }

  // ---- putting back -------------------------------------------------------------------------

  lemma BeginUndoKeepsInv(s: State, c: seq<Ptr>, nx: Ptr)
    requires Inv(s) && CanBeginUndo(s, c, nx)
    ensures Inv(BeginUndo(s, c, nx))
  {
    hide NodesInv, SuccInv, QueueInv, TailInv, LinksInv, OwedInv, OwedHeadInv, PendingInv, ReadyInv, SnapsInv,
         HeadInv, HeldInv, Put, LinkChain;
    FreshFrame(s, BeginUndo(s, c, nx), c, Held);
    BeginUndoPending(s, c, nx);
    BeginUndoReady(s, c, nx);
    BeginUndoHeld(s, c, nx);
  }

  lemma BeginUndoPending(s: State, c: seq<Ptr>, nx: Ptr)
    requires OwedInv(s) && OwedHeadInv(s) && PendingInv(s) && HeadInv(s) && CanBeginUndo(s, c, nx)
    ensures var s' := BeginUndo(s, c, nx); OwedInv(s') && OwedHeadInv(s') && PendingInv(s') && HeadInv(s')
  {
    hide Put, LinkChain, Distinct;
  }

  lemma BeginUndoReady(s: State, c: seq<Ptr>, nx: Ptr)
    requires NodesInv(s) && ReadyInv(s) && CanBeginUndo(s, c, nx)
    ensures ReadyInv(BeginUndo(s, c, nx))
  {
    assert forall x :: x in s.place ==> x !in c;
    hide Put, LinkChain, Distinct, Linked;
    ReadyFrame(s, BeginUndo(s, c, nx));
  }

  lemma BeginUndoHeld(s: State, c: seq<Ptr>, nx: Ptr)
    requires CanBeginUndo(s, c, nx)
    ensures HeldInv(BeginUndo(s, c, nx))
  {
    ChainEnd(s.next, c, nx);
    hide Put, Linked, Distinct, LinkChain;
  }

  /** The consumer's own chain has become part of the queue, ending in `y` (NULL: at the end). */
  ghost predicate Adopted(s: State, s': State, c: seq<Ptr>, y: Ptr) {
    && PrivateChain(s, c, Held, y)
    && s'.next == s.next && s'.owed == s.owed && s'.prods == s.prods
    && s'.snaps == s.snaps && s'.captures == s.captures
    && s'.place == Put(s.place, c, Queued)
    && (forall x :: x in s'.succ <==> x in s.succ || (x in c && (x != Last(c) || y != NULL)))
    && (forall x :: x in s.succ ==> x !in c && s'.succ[x] == s.succ[x])
    && (forall x :: x in c && x != Last(c) ==> s'.succ[x] != NULL)
    && Linked(s'.succ, c)
    && (y != NULL ==> s'.succ[Last(c)] == y)
  }

  lemma HeldApart(s: State, c: seq<Ptr>, y: Ptr)
    requires NodesInv(s) && SuccInv(s) && PrivateChain(s, c, Held, y)
    ensures NULL !in c && forall x :: x in s.succ ==> x !in c
  {
    hide Linked, Distinct;
    assert forall x :: x in c ==> s.place[x] == Held;
  }

  lemma ChainInto(m: map<Ptr, Ptr>, r: map<Ptr, Ptr>, c: seq<Ptr>, y: Ptr)
    requires c != [] && Distinct(c) && NULL !in c && forall x :: x in m ==> x !in c
    requires r == if y == NULL then LinkChain(m, c) else LinkChain(m, c)[Last(c) := y]
    ensures forall x :: x in r <==> x in m || (x in c && (x != Last(c) || y != NULL))
    ensures forall x :: x in m ==> x !in c && r[x] == m[x]
    ensures forall x :: x in c && x != Last(c) ==> r[x] != NULL
    ensures Linked(r, c) && (y != NULL ==> r[Last(c)] == y)
  {
    assert Linked(r, c) by {
      if y == NULL { LinkChainLinks(m, c); } else { ChainEnd(m, c, y); }
    }
    LinkChainNotNull(m, c);
    hide Linked, Distinct, LinkChain;
  }

  lemma AdoptSucc(s: State, s': State, c: seq<Ptr>, y: Ptr)
    requires NodesInv(s) && SuccInv(s) && PrivateChain(s, c, Held, y)
    requires s'.next == s.next && s'.owed == s.owed && s'.prods == s.prods && s'.snaps == s.snaps
    requires s'.captures == s.captures && s'.place == Put(s.place, c, Queued)
    requires s'.succ == if y == NULL then LinkChain(s.succ, c) else LinkChain(s.succ, c)[Last(c) := y]
    ensures Adopted(s, s', c, y)
  {
    hide LinkChain, Put;
    HeldApart(s, c, y);
    hide NodesInv, SuccInv;
    ChainInto(s.succ, s'.succ, c, y);
  }

  lemma AdoptLinks(s: State, s': State, c: seq<Ptr>, y: Ptr)
    requires NodesInv(s) && LinksInv(s) && SuccInv(s) && OwedInv(s) && Adopted(s, s', c, y)
    ensures LinksInv(s')
  {
    LinkedAgree(s.next, s'.succ, c);
    hide Distinct, Put, Linked;
  }

  lemma AdoptMaps(s: State, s': State, c: seq<Ptr>, y: Ptr)
    requires NodesInv(s) && SuccInv(s) && Adopted(s, s', c, y)
    ensures NodesInv(s') && SuccInv(s')
  {
    hide Distinct, Put, Linked;
  }

  lemma AdoptPending(s: State, s': State, c: seq<Ptr>, y: Ptr)
    requires OwedInv(s) && PendingInv(s) && Adopted(s, s', c, y)
    ensures OwedInv(s') && PendingInv(s')
  {
    hide Distinct, Put, Linked;
  }

  lemma AdoptRegions(s: State, s': State, c: seq<Ptr>, y: Ptr)
    requires NodesInv(s) && ReadyInv(s) && SnapsInv(s) && Adopted(s, s', c, y)
    ensures ReadyInv(s') && SnapsInv(s')
  {
    assert forall x :: x in c ==> s.place[x] == Held;
    hide Distinct, Put, Linked;
    assert ReadyInv(s') by { hide SnapsInv; ReadyFrame(s, s'); }
    assert SnapsInv(s') by { hide ReadyInv; SnapsFrame(s, s'); }
  }

  /** The chain goes exactly in front of what is in the queue. */
  lemma AdoptQueue(s: State, s': State, c: seq<Ptr>, y: Ptr)
    requires NodesInv(s) && QueueInv(s) && Adopted(s, s', c, y) && s'.queue == c + s.queue
    requires y == (if s.queue == [] then NULL else s.queue[0])
    ensures QueueInv(s')
  {
    hide Put;
    LinkedFrame(s.succ, s'.succ, s.queue);
    hide Linked, Distinct;
    if s.queue == [] {
      assert s'.queue == c;
    } else {
      RegionJoin(s', c, s.queue, Queued);
    }
  }

  lemma UndoSwapKeepsInv(s: State)
    requires Inv(s) && s.cons.UndoSwap?
    ensures CanConsume(s) && Inv(Consume(s))
  {
    if s.tail == NULL {
      UndoSwapAdopts(s);
    } else {
      SameMemory(s, Consume(s));
    }
  }

  lemma UndoSwapHead(s: State)
    requires NodesInv(s) && QueueInv(s) && TailInv(s) && OwedHeadInv(s) && HeadInv(s) && HeldInv(s)
    requires s.cons.UndoSwap? && CanConsume(s) && s.tail == NULL
    ensures var c, s' := s.cons.chain, Consume(s);
            && s.queue == [] && s'.queue == c + s.queue && PrivateChain(s, c, Held, NULL)
            && HeadInv(s') && HeldInv(s') && TailInv(s') && OwedHeadInv(s')
  {
    TailNull(s);
    hide Linked, Distinct, Put, LinkChain;
  }

  lemma UndoSwapAdopts(s: State)
    requires Inv(s) && s.cons.UndoSwap? && CanConsume(s) && s.tail == NULL
    ensures Inv(Consume(s))
  {
    var c, s' := s.cons.chain, Consume(s);
    UndoSwapHead(s);
    hide NodesInv, SuccInv, QueueInv, TailInv, LinksInv, OwedInv, OwedHeadInv, PendingInv, ReadyInv, SnapsInv,
         HeadInv, HeldInv;
    AdoptSucc(s, s', c, NULL);
    AdoptMaps(s, s', c, NULL);
    AdoptLinks(s, s', c, NULL);
    AdoptPending(s, s', c, NULL);
    AdoptRegions(s, s', c, NULL);
    AdoptQueue(s, s', c, NULL);
  }

  lemma UndoStoreHead(s: State)
    requires TailInv(s) && OwedHeadInv(s) && HeadInv(s) && HeldInv(s) && s.cons.UndoStore? && CanConsume(s)
    ensures var UndoStore(c, n) := s.cons; var s' := Consume(s);
            && s.queue != [] && n == s.queue[0] && PrivateChain(s, c, Held, n)
            && HeadInv(s') && HeldInv(s') && TailInv(s') && OwedHeadInv(s')
  {
    hide Linked, Distinct, Put, LinkChain;
  }

  lemma UndoStoreKeepsInv(s: State)
    requires Inv(s) && s.cons.UndoStore?
    ensures CanConsume(s) && Inv(Consume(s))
  {
    var UndoStore(c, n) := s.cons;
    var s' := Consume(s);
    UndoStoreHead(s);
    hide NodesInv, SuccInv, QueueInv, TailInv, LinksInv, OwedInv, OwedHeadInv, PendingInv, ReadyInv, SnapsInv,
         HeadInv, HeldInv;
    AdoptSucc(s, s', c, n);
    AdoptMaps(s, s', c, n);
    AdoptLinks(s, s', c, n);
    AdoptPending(s, s', c, n);
    AdoptRegions(s, s', c, n);
    AdoptQueue(s, s', c, n);
  }

  lemma UndoAwaitKeepsInv(s: State)
    requires Inv(s) && (s.cons.UndoAwait? || s.cons.UndoPublish?) && CanConsume(s)
    ensures Inv(Consume(s))
  {
    SameMemory(s, Consume(s));
  }

  lemma UndoRelinkMemory(s: State)
    requires NodesInv(s) && SuccInv(s) && QueueInv(s) && TailInv(s) && LinksInv(s) && ReadyInv(s) && SnapsInv(s)
    requires s.cons.UndoRelink? && PrivateChain(s, s.cons.chain, Held, NULL)
    ensures var s' := Consume(s);
            && NodesInv(s') && SuccInv(s') && QueueInv(s') && TailInv(s') && LinksInv(s')
            && ReadyInv(s') && SnapsInv(s')
  {
    var c, s' := s.cons.chain, Consume(s);
    var l := Last(c);
    assert l == c[|c| - 1] && s.place[l] == Held;
    if s.queue != [] { assert s.tail == s.queue[|s.queue| - 1]; }
    hide Linked, Distinct;
    assert QueueInv(s') by { hide SnapsInv, ReadyInv; RegionFrame(s, s', s.queue, Queued); }
    assert SnapsInv(s') by { hide QueueInv, ReadyInv; SnapsFrame(s, s'); }
    assert ReadyInv(s') by { hide SnapsInv, QueueInv; ReadyFrame(s, s'); }
    hide QueueInv, SnapsInv, ReadyInv;
  }

  lemma UndoRelinkHead(s: State)
    requires OwedInv(s) && OwedHeadInv(s) && PendingInv(s) && HeadInv(s) && HeldInv(s) && s.cons.UndoRelink?
    ensures CanConsume(s)
    ensures var s' := Consume(s); OwedInv(s') && OwedHeadInv(s') && PendingInv(s') && HeadInv(s') && HeldInv(s')
  {}

  lemma UndoRelinkKeepsInv(s: State)
    requires Inv(s) && s.cons.UndoRelink?
    ensures CanConsume(s) && Inv(Consume(s))
  {
    assert PrivateChain(s, s.cons.chain, Held, NULL);
    UndoRelinkHead(s);
    hide NodesInv, SuccInv, QueueInv, TailInv, LinksInv, OwedInv, OwedHeadInv, PendingInv, ReadyInv, SnapsInv,
         HeadInv, HeldInv, PrivateChain;
    UndoRelinkMemory(s);
  }
}
