/** The os_mpsc_* macros as a step system: any number of producers, one consumer, and every
    os_atomic_* operation one step.  `head`, `tail` and `next` are the shared memory; `prods` and
    `cons` are program counters; the other fields are the history the proof keeps beside them. */
module MpscProtocol {
  import opened FifoSpec
  import opened Options

  const NULL: Ptr := 0

  type Tid = nat

  /** A producer that is not in the map is not inside a push. */
  datatype Producer =
    | Ready(chain: seq<Ptr>)              // chain built, tail's next stored NULL, exchange still to do
    | Linking(prev: Ptr, first: Ptr)      // tail exchanged, link still to be written

  datatype Consumer =
    | Idle
    | PopStore(h: Ptr, n: Ptr)            // next loaded, store of head still to do
    | PopSwap(h: Ptr)                     // NULL stored to head, compare-and-swap of tail still to do
    | PopAwait(h: Ptr)                    // swap failed, waiting for next
    | PopRestore(h: Ptr, n: Ptr)          // next seen, second store of head still to do
    | UndoSwap(chain: seq<Ptr>)
    | UndoAwait(chain: seq<Ptr>)
    | UndoRelink(chain: seq<Ptr>, n: Ptr)
    | UndoStore(chain: seq<Ptr>, n: Ptr)  // chain linked in front of n, store of head still to do
    | UndoPublish(first: Ptr)             // chain became the queue by the swap, store of head still to do
    | SnapClear(h: Ptr)
    | SnapSwap(h: Ptr)

  /** A snapshot being walked: the two pointers the caller holds, and the nodes between them. */
  datatype Snapshot = Snapshot(head: Ptr, tail: Ptr, rest: seq<Ptr>)

  datatype Place = Private(t: Tid) | Queued | Snapped(id: nat) | Held

  datatype State = State(
    head: Ptr, tail: Ptr, next: map<Ptr, Ptr>,
    prods: map<Tid, Producer>, cons: Consumer, snaps: map<nat, Snapshot>,
    queue: seq<Ptr>,                      // the items of the abstract queue
    succ: map<Ptr, Ptr>,                  // the successor each queued or captured node has, or will have
    owed: map<Ptr, Tid>,                  // who still owes the link out of a node (NULL: the head itself)
    place: map<Ptr, Place>,               // who has each node; nodes outside are free
    hist: seq<Event>, captures: nat)

  function Init(): State {
    State(NULL, NULL, map[], map[], Idle, map[], [], map[], map[], map[], [], 0)
  }

  // ---- chains -------------------------------------------------------------------------------

  predicate Distinct(c: seq<Ptr>) { forall i, j :: 0 <= i < j < |c| ==> c[i] != c[j] }

  predicate Maps(m: map<Ptr, Ptr>, x: Ptr, y: Ptr) { x in m && m[x] == y }

  ghost predicate Linked(m: map<Ptr, Ptr>, c: seq<Ptr>) {
    forall i, j {:trigger c[i], c[j]} :: 0 <= i < |c| && 0 <= j < |c| && j == i + 1 ==> Maps(m, c[i], c[j])
  }

  function Last(c: seq<Ptr>): Ptr requires c != [] { c[|c| - 1] }

  /** A chain a caller may push: not empty, no node twice, every node free. */
  predicate FreshChain(s: State, c: seq<Ptr>) {
    && c != [] && Distinct(c)
    && forall i :: 0 <= i < |c| ==> c[i] != NULL && c[i] !in s.place
  }

  /** `m` with each node of `c` but the last mapped to its successor in `c`. */
  function LinkChain(m: map<Ptr, Ptr>, c: seq<Ptr>): (r: map<Ptr, Ptr>)
    requires c != [] && Distinct(c)
    ensures forall x :: x in r <==> x in m || (x in c && x != Last(c))
    ensures forall x :: x in m && (x !in c || x == Last(c)) ==> r[x] == m[x]
  {
    if |c| == 1 then m
    else
      assert c == [c[0]] + c[1..] && Last(c[1..]) == Last(c);
      LinkChain(m, c[1..])[c[0] := c[1]]
  }

  lemma {:induction false} LinkChainNotNull(m: map<Ptr, Ptr>, c: seq<Ptr>)
    requires c != [] && Distinct(c) && NULL !in c
    ensures forall x :: x in c && x != Last(c) ==> LinkChain(m, c)[x] != NULL
  {
    if |c| > 1 {
      assert c == [c[0]] + c[1..];
      LinkChainNotNull(m, c[1..]);
    }
  }

  lemma {:induction false} LinkChainLinks(m: map<Ptr, Ptr>, c: seq<Ptr>)
    requires c != [] && Distinct(c)
    ensures Linked(LinkChain(m, c), c)
  {
    if |c| > 1 {
      var d := c[1..];
      LinkChainLinks(m, d);
      forall i, j | 0 <= i < |c| && 0 <= j < |c| && j == i + 1
        ensures Maps(LinkChain(m, c), c[i], c[j])
      {
        if i > 0 { assert c[i] == d[i - 1] && c[j] == d[j - 1] && c[i] != c[0]; }
      }
    }
  }

  function Put(m: map<Ptr, Place>, c: seq<Ptr>, p: Place): (r: map<Ptr, Place>)
    ensures forall x :: x in r <==> x in m || x in c
    ensures forall x :: x in r ==> r[x] == if x in c then p else m[x]
  {
    map x | x in m.Keys + (set y | y in c) :: if x in c then p else m[x]
  }

  // ---- producers ----------------------------------------------------------------------------

  /** The caller builds the chain; os_mpsc_push_update_tail stores NULL to the tail's next. */
  predicate CanPrepare(s: State, t: Tid, c: seq<Ptr>) { t !in s.prods && FreshChain(s, c) }

  function Prepare(s: State, t: Tid, c: seq<Ptr>): State
    requires CanPrepare(s, t, c)
  {
    s.(next := LinkChain(s.next, c)[Last(c) := NULL],
       prods := s.prods[t := Ready(c)],
       place := Put(s.place, c, Private(t)))
  }

  /** os_mpsc_push_update_tail: exchange the tail. */
  predicate CanExchange(s: State, t: Tid) {
    t in s.prods && s.prods[t].Ready? && s.prods[t].chain != [] && Distinct(s.prods[t].chain)
  }

  function Exchange(s: State, t: Tid): State
    requires CanExchange(s, t)
  {
    var c := s.prods[t].chain;
    var prev := s.tail;
    s.(tail := Last(c),
       prods := s.prods[t := Linking(prev, c[0])],
       queue := s.queue + c,
       succ := LinkChain(if prev == NULL then s.succ else s.succ[prev := c[0]], c),
       owed := s.owed[prev := t],
       place := Put(s.place, c, Queued),
       hist := s.hist + [Enqueued(c)])
  }

  /** os_mpsc_push_update_prev: write the link, or the head when the queue was empty. */
  predicate CanLink(s: State, t: Tid) { t in s.prods && s.prods[t].Linking? }

  function Link(s: State, t: Tid): State
    requires CanLink(s, t)
  {
    var Linking(prev, first) := s.prods[t];
    var s' := if prev != NULL then s.(next := s.next[prev := first]) else s.(head := first);
    s'.(prods := s.prods - {t}, owed := s.owed - {prev})
  }

  // ---- consumer: pop ------------------------------------------------------------------------

  /** os_mpsc_get_head has returned a non-NULL head, which is passed to os_mpsc_pop_head. */
  predicate CanBeginPop(s: State) { s.cons.Idle? && s.head != NULL && s.head in s.next }

  function BeginPop(s: State): State
    requires CanBeginPop(s)
  {
    s.(cons := PopStore(s.head, s.next[s.head]))
  }

  /** The popped node leaves the queue and becomes free. */
  function Take(s: State, h: Ptr): State {
    s.(cons := Idle, queue := if s.queue == [] then [] else s.queue[1..],
       succ := s.succ - {h}, place := s.place - {h}, hist := s.hist + [Dequeued(h)])
  }

  /** os_mpsc_undo_pop_list and os_mpsc_prepend: `nx` is what the pop returned, or the head as loaded. */
  predicate CanBeginUndo(s: State, c: seq<Ptr>, nx: Ptr) {
    s.cons.Idle? && FreshChain(s, c) && (nx == NULL || nx == s.head)
  }

  function BeginUndo(s: State, c: seq<Ptr>, nx: Ptr): State
    requires CanBeginUndo(s, c, nx)
  {
    s.(next := LinkChain(s.next, c)[Last(c) := nx],
       place := Put(s.place, c, Held),
       cons := if nx == NULL then UndoSwap(c) else UndoStore(c, nx))
  }

  /** os_mpsc_get_head inside os_mpsc_capture_snapshot has returned. */
  predicate CanBeginSnap(s: State) { s.cons.Idle? && s.head != NULL }

  function BeginSnap(s: State): State
    requires CanBeginSnap(s)
  {
    s.(cons := SnapClear(s.head))
  }

  /** When the consumer, in the middle of an operation, can take its next step: it may have to wait. */
  predicate CanConsume(s: State) {
    match s.cons
    case Idle => false
    case PopAwait(h) => h in s.next && s.next[h] != NULL
    case UndoAwait(_) => s.head != NULL
    case UndoSwap(c) => c != [] && Distinct(c)
    case UndoRelink(c, _) => c != []
    case UndoStore(c, _) => c != [] && Distinct(c)
    case _ => true
  }

  function Consume(s: State): State
    requires CanConsume(s)
  {
    match s.cons
    case PopStore(h, n) =>
      var s' := s.(head := n);
      if n == NULL then s'.(cons := PopSwap(h)) else Take(s', h)
    case PopSwap(h) =>
      if s.tail == h then Take(s.(tail := NULL), h) else s.(cons := PopAwait(h))
    case PopAwait(h) => s.(cons := PopRestore(h, s.next[h]))
    case PopRestore(h, n) => Take(s.(head := n), h)
    case UndoSwap(c) =>
      if s.tail == NULL then
        s.(tail := Last(c), cons := UndoPublish(c[0]), queue := c, succ := LinkChain(s.succ, c),
           place := Put(s.place, c, Queued), hist := s.hist + [Prepended(c)])
      else s.(cons := UndoAwait(c))
    case UndoAwait(c) => s.(cons := UndoRelink(c, s.head))
    case UndoRelink(c, n) => s.(next := s.next[Last(c) := n], cons := UndoStore(c, n))
    case UndoStore(c, n) =>
      s.(head := c[0], cons := Idle, queue := c + s.queue, succ := LinkChain(s.succ, c)[Last(c) := n],
         place := Put(s.place, c, Queued), hist := s.hist + [Prepended(c)])
    case UndoPublish(first) => s.(head := first, cons := Idle)
    case SnapClear(h) => s.(head := NULL, cons := SnapSwap(h))
    case SnapSwap(h) =>
      s.(tail := NULL, cons := Idle,
         snaps := s.snaps[s.captures := Snapshot(h, s.tail, s.queue)], captures := s.captures + 1,
         queue := [], place := Put(s.place, s.queue, Snapped(s.captures)),
         hist := s.hist + [Captured(s.captures, s.queue)])
  }

  // ---- consumer: walking a snapshot ---------------------------------------------------------

  /** os_mpsc_pop_snapshot_head: at the last node it returns NULL, before that it waits for the link. */
  predicate CanWalk(s: State, k: nat) {
    && k in s.snaps
    && (s.snaps[k].head != s.snaps[k].tail ==>
          s.snaps[k].head in s.next && s.next[s.snaps[k].head] != NULL)
  }

  function Walk(s: State, k: nat): State
    requires CanWalk(s, k)
  {
    var Snapshot(h, t, rest) := s.snaps[k];
    var s' := s.(succ := s.succ - {h}, place := s.place - {h}, hist := s.hist + [Delivered(k, h)]);
    if h == t then s'.(snaps := s.snaps - {k})
    else s'.(snaps := s.snaps[k := Snapshot(s.next[h], t, if rest == [] then [] else rest[1..])])
  }

  // ---- runs ---------------------------------------------------------------------------------

  datatype Label =
    | LPrepare(t: Tid, chain: seq<Ptr>) | LExchange(t: Tid) | LLink(t: Tid)
    | LPop | LUndo(chain: seq<Ptr>, nx: Ptr) | LSnap | LConsume | LWalk(k: nat)

  predicate Enabled(s: State, l: Label) {
    match l
    case LPrepare(t, c) => CanPrepare(s, t, c)
    case LExchange(t) => CanExchange(s, t)
    case LLink(t) => CanLink(s, t)
    case LPop => CanBeginPop(s)
    case LUndo(c, nx) => CanBeginUndo(s, c, nx)
    case LSnap => CanBeginSnap(s)
    case LConsume => CanConsume(s)
    case LWalk(k) => CanWalk(s, k)
  }

  function Step(s: State, l: Label): State
    requires Enabled(s, l)
  {
    match l
    case LPrepare(t, c) => Prepare(s, t, c)
    case LExchange(t) => Exchange(s, t)
    case LLink(t) => Link(s, t)
    case LPop => BeginPop(s)
    case LUndo(c, nx) => BeginUndo(s, c, nx)
    case LSnap => BeginSnap(s)
    case LConsume => Consume(s)
    case LWalk(k) => Walk(s, k)
  }

  /** The state after a schedule, or None if some step of it is not possible. */
  function Run(ls: seq<Label>): Option<State> {
    if ls == [] then Some(Init())
    else
      match Run(ls[..|ls| - 1])
      case None => None
      case Some(s) => if Enabled(s, ls[|ls| - 1]) then Some(Step(s, ls[|ls| - 1])) else None
  }

  // ---- the invariant ------------------------------------------------------------------------

  /** A run of nodes in place `p`, chained by `succ`, whose last node has no successor yet. */
  ghost predicate Region(s: State, c: seq<Ptr>, p: Place) {
    && Distinct(c)
    && (forall i :: 0 <= i < |c| ==> c[i] in s.place && s.place[c[i]] == p)
    && Linked(s.succ, c)
    && (c != [] ==> Last(c) !in s.succ)
  }

  /** A chain nobody else can see yet, fully linked in memory, ending in `last`. */
  ghost predicate PrivateChain(s: State, c: seq<Ptr>, p: Place, last: Ptr) {
    && c != [] && Distinct(c)
    && (forall i :: 0 <= i < |c| ==> c[i] in s.place && s.place[c[i]] == p)
    && Linked(s.next, c)
    && Last(c) in s.next && s.next[Last(c)] == last
  }

  ghost predicate NodesInv(s: State) {
    && NULL !in s.place
    && (forall x :: x in s.place ==> x in s.next)
  }

  ghost predicate SuccInv(s: State) {
    forall x :: x in s.succ ==> x in s.place && (s.place[x].Queued? || s.place[x].Snapped?) && s.succ[x] != NULL
  }

  ghost predicate QueueInv(s: State) { Region(s, s.queue, Queued) }

  ghost predicate TailInv(s: State) {
    && s.tail == (if s.queue == [] then NULL else Last(s.queue))
    && (s.queue != [] ==> s.tail in s.next && s.next[s.tail] == NULL)
  }

  /** A link is either written or owed, and then memory still holds NULL. */
  ghost predicate LinksInv(s: State) {
    forall x :: x in s.succ ==> x in s.next && s.next[x] == if x in s.owed then NULL else s.succ[x]
  }

  /** Whoever owes the link out of a node is in the middle of a push, and will write the right link. */
  ghost predicate OwedInv(s: State) {
    forall x :: x in s.owed && x != NULL ==>
      && x in s.succ && s.owed[x] in s.prods && s.prods[s.owed[x]] == Linking(x, s.succ[x])
  }

  ghost predicate OwedHeadInv(s: State) {
    NULL in s.owed ==>
      && s.queue != [] && s.owed[NULL] in s.prods && s.prods[s.owed[NULL]] == Linking(NULL, s.queue[0])
  }

  ghost predicate PendingInv(s: State) {
    forall t :: t in s.prods && s.prods[t].Linking? ==>
      s.prods[t].prev in s.owed && s.owed[s.prods[t].prev] == t
  }

  ghost predicate ReadyInv(s: State) {
    forall t :: t in s.prods && s.prods[t].Ready? ==> PrivateChain(s, s.prods[t].chain, Private(t), NULL)
  }

  ghost predicate SnapsInv(s: State) {
    forall k :: k in s.snaps ==>
      && k < s.captures && s.snaps[k].rest != []
      && Region(s, s.snaps[k].rest, Snapped(k))
      && s.snaps[k].head == s.snaps[k].rest[0] && s.snaps[k].tail == Last(s.snaps[k].rest)
  }

  /** Outside the windows below, head is the first item, or NULL while empty or while that link is owed. */
  ghost predicate HeadSettled(s: State) {
    s.head == if s.queue == [] || NULL in s.owed then NULL else s.queue[0]
  }

  /** A window in which the consumer itself has put NULL in head and will restore it. */
  ghost predicate HeadCleared(s: State, h: Ptr) {
    s.head == NULL && NULL !in s.owed && s.queue != [] && s.queue[0] == h
  }

  ghost predicate HeadInv(s: State) {
    match s.cons
    case PopStore(h, n) =>
      && HeadSettled(s) && s.head == h != NULL
      && (n != NULL ==> h !in s.owed && |s.queue| > 1 && s.queue[1] == n)
    case PopSwap(h) => HeadCleared(s, h)
    case PopAwait(h) => HeadCleared(s, h) && |s.queue| > 1
    case PopRestore(h, n) => HeadCleared(s, h) && |s.queue| > 1 && n == s.queue[1] && h !in s.owed
    case UndoAwait(c) => HeadSettled(s) && s.queue != []
    case UndoRelink(c, n) => HeadSettled(s) && n == s.head != NULL
    case UndoStore(c, n) => HeadSettled(s) && n == s.head != NULL
    case UndoPublish(first) => HeadCleared(s, first)
    case SnapClear(h) => HeadSettled(s) && s.head == h != NULL
    case SnapSwap(h) => HeadCleared(s, h)
    case _ => HeadSettled(s)
  }

  /** The chain the consumer is putting back is still its own. */
  ghost predicate HeldInv(s: State) {
    match s.cons
    case UndoSwap(c) => PrivateChain(s, c, Held, NULL)
    case UndoAwait(c) => PrivateChain(s, c, Held, NULL)
    case UndoRelink(c, n) => PrivateChain(s, c, Held, NULL)
    case UndoStore(c, n) => PrivateChain(s, c, Held, n)
    case _ => true
  }

  ghost predicate Inv(s: State) {
    && NodesInv(s) && SuccInv(s) && QueueInv(s) && TailInv(s) && LinksInv(s)
    && OwedInv(s) && OwedHeadInv(s) && PendingInv(s)
    && ReadyInv(s) && SnapsInv(s) && HeadInv(s) && HeldInv(s)
  }

  /** The history is one the sequential queue allows, and it ends in what the memory represents. */
  ghost predicate Refines(s: State) {
    && Replay(s.hist).Some?
    && var f := Replay(s.hist).value;
      && f.queue == s.queue && f.captures == s.captures
      && (forall k :: k in s.snaps ==> k in f.taken)
      && forall k :: k in f.taken ==> f.taken[k] == if k in s.snaps then s.snaps[k].rest else []
  }
}
