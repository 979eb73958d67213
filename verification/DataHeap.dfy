/** Who holds which data object: reference counts against client references and live composites. */
module DataHeap {
  import opened DataRope
  import opened Options

  /** How many records of `rs` point at `d`. */
  ghost function Uses(rs: seq<Record>, d: Data): nat {
    if rs == [] then 0 else Uses(rs[..|rs| - 1], d) + if rs[|rs| - 1].leaf == d then 1 else 0
  }

  /** How many records of the objects in `s` point at `d`. */
  ghost function Edges(s: set<Data>, d: Data): nat {
    if s == {} then 0
    else
      var x :| x in s;
      Uses(x.records, d) + Edges(s - {x}, d)
  }

  lemma {:induction false} EdgesRemove(s: set<Data>, x: Data, d: Data)
    requires x in s
    ensures Edges(s, d) == Uses(x.records, d) + Edges(s - {x}, d)
    decreases s
  {
    var y :| y in s && Edges(s, d) == Uses(y.records, d) + Edges(s - {y}, d);
    if y != x {
      EdgesRemove(s - {y}, x, d);
      EdgesRemove(s - {x}, y, d);
      assert s - {y} - {x} == s - {x} - {y};
    }
  }

  lemma EdgesAdd(s: set<Data>, x: Data, d: Data)
    requires x !in s
    ensures Edges(s + {x}, d) == Uses(x.records, d) + Edges(s, d)
  {
    EdgesRemove(s + {x}, x, d);
    assert s + {x} - {x} == s;
  }

  lemma {:induction false} UsesZero(rs: seq<Record>, d: Data)
    ensures Uses(rs, d) == 0 <==> forall i :: 0 <= i < |rs| ==> rs[i].leaf != d
  {
    if rs != [] {
      var k := |rs| - 1;
      UsesZero(rs[..k], d);
      assert Uses(rs[..k], d) == 0 ==> forall i :: 0 <= i < k ==> rs[..k][i].leaf == rs[i].leaf;
    }
  }

  lemma {:induction false} UsesFront(rs: seq<Record>, d: Data)
    requires rs != []
    ensures Uses(rs, d) == Uses(rs[1..], d) + if rs[0].leaf == d then 1 else 0
  {
    var k := |rs| - 1;
    if k > 0 {
      UsesFront(rs[..k], d);
      assert rs[..k][1..] == rs[1..][..k - 1];
    }
  }

  lemma {:induction false} EdgesZero(s: set<Data>, d: Data)
    ensures Edges(s, d) == 0 <==> forall x :: x in s ==> Uses(x.records, d) == 0
    decreases s
  {
    if s != {} {
      var y :| y in s && Edges(s, d) == Uses(y.records, d) + Edges(s - {y}, d);
      EdgesZero(s - {y}, d);
    }
  }

  /** All data objects of a process.  `client[d]` counts the references handed out and not given back. */
  class World {
    const empty: Data            // dispatch_data_empty, whose count is not kept
    ghost var live: set<Data>
    ghost var dead: set<Data>
    ghost var client: map<Data, nat>

    ghost predicate Reaches(rs: seq<Record>)
      reads this
    {
      forall i :: 0 <= i < |rs| ==> rs[i].leaf in live
    }

    /** Live objects are well formed, reach only live leaves, and cache nothing but what they denote;
        a dead object was destroyed once. */
    ghost predicate Shape()
      reads this, live, dead
    {
      && empty !in live && empty !in dead && |empty.records| == |empty.bytes| == empty.size == 0
      && live !! dead && client.Keys == live
      && (forall d :: d in live ==> Good(d) && Reaches(d.records))
      && (forall d :: d in live ==> d.destroyed == 0)
      && (forall d :: d in live && d.buf.Some? ==> |d.records| > 1 && d.buf.value == Denote(d))
      && (forall d :: d in dead ==> d.destroyed == 1)
    }

    /** Each count is the client references plus the records of live composites plus those in `pend`,
        which are being taken or given back one by one. */
    ghost predicate Accounts(pend: seq<Record>)
      reads this, live
    {
      && Reaches(pend)
      && forall d :: d in live ==> d in client && 0 < d.refs == client[d] + Edges(live, d) + Uses(pend, d)
    }

    ghost predicate Valid()
      reads this, live, dead
    {
      Shape() && Accounts([])
    }

    ghost predicate Known(d: Data)
      reads this
    {
      d in live || d == empty
    }

    /** The client holds a reference. */
    ghost predicate Held(d: Data)
      reads this
    {
      d == empty || (d in live && d in client && client[d] > 0)
    }

    /** One more reference to `d`, which may be new; nothing else changed hands. */
    ghost predicate Gained(live0: set<Data>, client0: map<Data, nat>, d: Data)
      reads this
    {
      if d == empty then live == live0 && client == client0
      else live == live0 + {d} && client == client0[d := (if d in client0 then client0[d] else 0) + 1]
    }

    /** What every operation promises that hands out a reference to `d`. */
    twostate predicate Made(new d: Data)
      reads this, live, dead
    {
      Valid() && Known(d) && Gained(old(live), old(client), d) && dead == old(dead)
      && (d in old(live) || d == empty || fresh(d))
      && forall x :: x in old(live) ==> x in live && x.buf == old(x.buf)
    }

    constructor ()
      ensures Valid() && live == {} && dead == {} && fresh(empty)
    {
      empty := new Data.Leaf([]);
      live, dead, client := {}, {}, map[];
    }

    method Retain(d: Data)
      requires Valid() && Known(d)
      modifies this, live
      ensures Made(d)
    {
      hide Good, Denote, Uses, Edges;
      if d != empty {
        d.refs := d.refs + 1;
        client := client[d := client[d] + 1];
      }
    }

    method RetainLeaves(rs: seq<Record>)
      requires Valid() && Reaches(rs)
      modifies live
      ensures Shape() && Accounts(rs)
      ensures forall x :: x in live ==> x.buf == old(x.buf)
    {
      hide Good, Denote, Edges;
      var i := 0;
      while i < |rs|
        invariant 0 <= i <= |rs|
        invariant Shape() && Accounts(rs[..i])
        invariant forall x :: x in live ==> x.buf == old(x.buf)
      {
        assert rs[..i + 1][..i] == rs[..i];
        rs[i].leaf.refs := rs[i].leaf.refs + 1;
        i := i + 1;
      }
      assert rs[..i] == rs;
    }

    /** A fresh leaf around the given bytes (dispatch_data_create). */
    method Create(bytes: seq<Byte>) returns (d: Data)
      requires Valid() && |bytes| < WORD
      modifies this
      ensures Made(d)
      ensures Denote(d) == bytes && (d == empty <==> bytes == []) && (d != empty ==> IsLeaf(d) && fresh(d))
    {
      if |bytes| == 0 {
        return empty;
      }
      d := new Data.Leaf(bytes);
      Enter(d, []);
    }

    /** A new object enters the accounts: its records stop pending and become edges. */
    ghost method Enter(d: Data, rs: seq<Record>)
      requires Shape() && Accounts(rs)
      requires d !in live && d !in dead && d != empty && Good(d) && d.records == rs
      requires d.refs == 1 && d.destroyed == 0 && d.buf == None
      modifies this
      ensures Valid() && live == old(live) + {d} && client == old(client)[d := 1] && dead == old(dead)
    {
      hide Good, Denote, Uses, Edges;
      Newcomer(d);
      forall x | x in live ensures Edges(live + {d}, x) == Edges(live, x) + Uses(rs, x) {
        EdgesAdd(live, d, x);
      }
      EdgesAdd(live, d, d);
      forall x ensures Uses([], x) == 0 { UsesZero([], x); }
      live, client := live + {d}, client[d := 1];
    }

    /** Nothing points at an object that is not live. */
    lemma Newcomer(d: Data)
      requires Shape() && d !in live
      ensures Edges(live, d) == 0
      ensures forall rs :: Reaches(rs) ==> Uses(rs, d) == 0
    {
      hide Good, Denote;
      forall rs | Reaches(rs) ensures Uses(rs, d) == 0 { UsesZero(rs, d); }
      EdgesZero(live, d);
    }

    /** A composite over ranges of live leaves, each of which it retains. */
    method Box(size: nat, rs: seq<Record>) returns (d: Data)
      requires Valid() && Reaches(rs) && rs != [] && GoodRecords(rs) && size == Lengths(rs) < WORD
      modifies this, live
      ensures Made(d)
      ensures fresh(d) && d.records == rs && d.size == size && d.buf == None && Denote(d) == Join(rs)
    {
      d := new Data.Composite(size, rs);
      RetainLeaves(rs);
      Enter(d, rs);
    }

    /** _dispatch_data_dispose's part for the object itself: the buffer goes, and the object with it.
        Its records, if any, are now references to give back. */
    method Destroy(d: Data, pend: seq<Record>)
      requires Shape() && Reaches(pend) && d in live && client[d] == 0 && Edges(live, d) == 0 && Uses(pend, d) == 0
      requires forall x :: x in live && x != d ==> 0 < x.refs == client[x] + Edges(live, x) + Uses(pend, x)
      requires IsLeaf(d) || pend == []
      modifies this, d`destroyed
      ensures Shape() && Accounts(if IsLeaf(d) then pend else d.records)
      ensures live == old(live) - {d} && dead == old(dead) + {d} && client == old(client) - {d}
    {
      hide Good, Denote, Uses, Edges;
      Unreached(d, pend);
      forall x | x in live ensures Edges(live, x) == Uses(d.records, x) + Edges(live - {d}, x) {
        EdgesRemove(live, d, x);
      }
      forall x ensures Uses([], x) == 0 { UsesZero([], x); }
      d.destroyed := d.destroyed + 1;
      live, dead, client := live - {d}, dead + {d}, client - {d};
    }

    /** What no record points at, nothing live reaches. */
    lemma Unreached(d: Data, pend: seq<Record>)
      requires Shape() && Edges(live, d) == 0 && Uses(pend, d) == 0
      ensures forall x, i :: x in live && 0 <= i < |x.records| ==> x.records[i].leaf != d
      ensures forall i :: 0 <= i < |pend| ==> pend[i].leaf != d
    {
      hide Good, Denote, Edges, Uses;
      EdgesZero(live, d);
      UsesZero(pend, d);
      forall x | x in live ensures forall i :: 0 <= i < |x.records| ==> x.records[i].leaf != d {
        UsesZero(x.records, d);
      }
    }

    /** Give back the references of a disposed composite; leaves that lose their last one go too. */
    method ReleaseLeaves(rs: seq<Record>)
      requires Shape() && Accounts(rs) && forall i :: 0 <= i < |rs| ==> IsLeaf(rs[i].leaf)
      modifies this, live
      ensures Valid() && live + dead == old(live + dead)
      ensures forall x :: x in old(live) ==> (x in live <==> old(x.refs) > Uses(rs, x))
      ensures forall x :: x in live ==> x in old(live) && x.buf == old(x.buf)
      ensures forall x :: x in live ==> x in old(client) && client[x] == old(client)[x]
      ensures forall x :: x in live ==> x.refs == old(x.refs) - Uses(rs, x)
    {
      hide Good, Denote, Uses, Edges;
      var i := 0;
      forall x ensures Uses([], x) == 0 { UsesZero([], x); }
      assert rs[i..] == rs;
      while i < |rs|
        invariant 0 <= i <= |rs|
        invariant Shape() && Accounts(rs[i..]) && live <= old(live) && live + dead == old(live + dead)
        invariant forall x :: x in old(live) ==> (x in live <==> old(x.refs) > Uses(rs[..i], x))
        invariant forall x :: x in live ==> x in old(client) && client[x] == old(client)[x]
        invariant forall x :: x in live ==> x.refs == old(x.refs) - Uses(rs[..i], x) && x.buf == old(x.buf)
      {
        ReleaseLeaf(rs[i..]);
        forall x ensures Uses(rs[..i + 1], x) == Uses(rs[..i], x) + if rs[i].leaf == x then 1 else 0 {
          UsesNext(rs, i, x);
        }
        assert rs[i..][1..] == rs[i + 1..];
        i := i + 1;
      }
      assert rs[..i] == rs && rs[i..] == [];
    }

    method ReleaseLeaf(rs: seq<Record>)
      requires Shape() && Accounts(rs) && rs != [] && IsLeaf(rs[0].leaf)
      modifies this, live
      ensures Shape() && Accounts(rs[1..])
      ensures var d := rs[0].leaf; if old(d.refs) > 1
        then live == old(live) && dead == old(dead) && client == old(client) && d.refs == old(d.refs) - 1
        else live == old(live) - {d} && dead == old(dead) + {d} && client == old(client) - {d}
      ensures forall x :: x in live ==> x.buf == old(x.buf)
      ensures forall x :: x in live && x != rs[0].leaf ==> x.refs == old(x.refs)
    {
      hide Good, Denote, Uses, Edges;
      var d := rs[0].leaf;
      forall x ensures Uses(rs, x) == Uses(rs[1..], x) + if d == x then 1 else 0 { UsesFront(rs, x); }
      d.refs := d.refs - 1;
      if d.refs == 0 {
        Destroy(d, rs[1..]);
      }
    }

    /** A client gives back a reference.  Exactly the objects that thereby lose their last one are
        destroyed, once. */
    method Release(d: Data)
      requires Valid() && Held(d)
      modifies this, live
      ensures Valid() && live + dead == old(live + dead)
      ensures d == empty ==> live == old(live) && client == old(client)
      ensures d != empty ==> forall x :: x in old(live) ==>
                (x in live <==> old(x.refs) > Lost(d, old(d.refs) == 1, x))
      ensures forall x :: x in live ==> x in old(client) && x.buf == old(x.buf)
      ensures forall x :: x in live ==> client[x] == old(client)[x] - if x == d then 1 else 0
    {
      hide Good, Denote, Uses, Edges;
      if d == empty {
        return;
      }
      forall x ensures Uses([], x) == 0 { UsesZero([], x); }
      OnlyLeavesAreUsed(d);
      UsesZero(d.records, d);
      if d.refs == 1 {
        ReleaseLast(d);
      } else {
        ReleaseOne(d);
      }
    }

    method ReleaseOne(d: Data)
      requires Valid() && d in live && client[d] > 0 && d.refs > 1
      modifies this, d`refs
      ensures Valid() && live == old(live) && dead == old(dead) && client == old(client)[d := old(client)[d] - 1]
    {
      hide Good, Denote, Uses, Edges;
      d.refs := d.refs - 1;
      client := client[d := client[d] - 1];
    }

    method ReleaseLast(d: Data)
      requires Valid() && d in live && client[d] > 0 && d.refs == 1
      modifies this, live
      ensures Valid() && live + dead == old(live + dead) && d !in live
      ensures forall x :: x in old(live) && x != d ==> (x in live <==> old(x.refs) > Uses(d.records, x))
      ensures forall x :: x in live ==> x in old(client) && x.buf == old(x.buf) && client[x] == old(client)[x]
    {
      hide Good, Denote, Uses, Edges;
      forall x ensures Uses([], x) == 0 { UsesZero([], x); }
      OnlyLeavesAreUsed(d);
      d.refs := 0;
      client := client[d := 0];
      Dispose(d);
    }

    /** _dispatch_data_dispose, when the last reference is gone. */
    method Dispose(d: Data)
      requires Shape() && d in live && client[d] == 0 && Edges(live, d) == 0
      requires forall x :: x in live && x != d ==> 0 < x.refs == client[x] + Edges(live, x)
      requires forall i :: 0 <= i < |d.records| ==> IsLeaf(d.records[i].leaf) && d.records[i].leaf != d
      modifies this, live
      ensures Valid() && live + dead == old(live + dead) && d !in live
      ensures forall x :: x in old(live) && x != d ==> (x in live <==> old(x.refs) > Uses(d.records, x))
      ensures forall x :: x in live ==> x in old(client) && x.buf == old(x.buf) && client[x] == old(client)[x]
    {
      hide Good, Denote, Uses, Edges;
      forall x ensures Uses([], x) == 0 { UsesZero([], x); }
      Destroy(d, []);
      ReleaseLeaves(d.records);
    }

    lemma OnlyLeavesAreUsed(d: Data)
      requires Valid() && d in live
      ensures forall i :: 0 <= i < |d.records| ==> IsLeaf(d.records[i].leaf) && d.records[i].leaf != d
      ensures d.records != [] ==> Edges(live, d) == 0
    {
      hide Denote, Uses, Edges, Lengths;
      assert Good(d);
      if d.records != [] {
        forall x | x in live ensures Uses(x.records, d) == 0 {
          assert Good(x);
          UsesZero(x.records, d);
        }
        EdgesZero(live, d);
      }
    }

    /** Nothing leaks: when clients hold no reference, nothing is live and everything was destroyed once. */
    lemma NothingLeaks(d: Data)
      requires Valid() && (forall x :: x in client ==> client[x] == 0) && (d in live || d in dead)
      ensures d !in live && d.destroyed == 1
    {
      hide Good, Denote, Uses, Edges, Lengths;
      UsesZero([], d);
      if d in live {
        forall x | x in live ensures x.records == [] {
          UsesZero([], x);
          OnlyLeavesAreUsed(x);
        }
        forall x | x in live ensures Uses(x.records, d) == 0 { UsesZero(x.records, d); }
        EdgesZero(live, d);
        assert false;
      }
    }

    /** What a client's reference still reaches was not destroyed. */
    lemma HeldIsIntact(d: Data, i: nat)
      requires Valid() && Held(d)
      ensures d != empty ==> d.destroyed == 0 && d.refs >= client[d]
      ensures d != empty && i < |d.records| ==> d.records[i].leaf.destroyed == 0 && d.records[i].leaf.refs > 0
    {}
  }

  /** How many references to `x` go when a client's reference to `d` goes: that one, and if it was the
      last, those that d's records hold. */
  ghost function Lost(d: Data, last: bool, x: Data): nat {
    (if x == d then 1 else 0) + if last then Uses(d.records, x) else 0
  }

  lemma UsesNext(rs: seq<Record>, i: nat, d: Data)
    requires i < |rs|
    ensures Uses(rs[..i + 1], d) == Uses(rs[..i], d) + if rs[i].leaf == d then 1 else 0
  {
    assert rs[..i + 1][..i] == rs[..i];
  }
}
