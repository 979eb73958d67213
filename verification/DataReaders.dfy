/** Reading ropes: what an applier is shown, flattening, mapping, and walking a rope region by region. */
module DataReaders {
  import opened DataRope
  import opened DataHeap
  import opened DataOps
  import opened Options

  /** One call of an applier: a region object, an offset into the rope, and the bytes at the buffer. */
  datatype Visit = Visit(region: Data, offset: nat, bytes: seq<Byte>)

  /** Whether to go on, given all calls so far; the last is the one that asks. */
  type Applier = seq<Visit> -> bool

  function RecordVisits(rs: seq<Record>): seq<Visit> {
    if |rs| == 0 then []
    else
      var k := |rs| - 1;
      RecordVisits(rs[..k]) + [Visit(rs[k].leaf, Lengths(rs[..k]), RecordBytes(rs[k]))]
  }

  /** All calls an applier gets that never stops. */
  function Visits(d: Data): seq<Visit>
    reads d
  {
    if d.size == 0 then []
    else if Direct(d) then [Visit(d, 0, Denote(d))]
    else RecordVisits(d.records)
  }

  function VisitedBytes(vs: seq<Visit>): seq<Byte> {
    if |vs| == 0 then [] else VisitedBytes(vs[..|vs| - 1]) + vs[|vs| - 1].bytes
  }

  /** The visits start at 0, each where the one before ended, and end at `size`; none is empty. */
  predicate Tiles(vs: seq<Visit>, size: nat) {
    if |vs| == 0 then size == 0
    else
      var v := vs[|vs| - 1];
      v.offset + |v.bytes| == size && 0 < |v.bytes| && Tiles(vs[..|vs| - 1], v.offset)
  }

  lemma {:induction false} RecordVisitsTile(rs: seq<Record>)
    requires GoodRecords(rs)
    ensures Tiles(RecordVisits(rs), Lengths(rs)) && VisitedBytes(RecordVisits(rs)) == Join(rs)
    ensures |RecordVisits(rs)| == |rs|
  {
    if |rs| > 0 {
      var k := |rs| - 1;
      RecordVisitsTile(rs[..k]);
      var vs := RecordVisits(rs);
      assert vs[..k] == RecordVisits(rs[..k]) && vs[k] == Visit(rs[k].leaf, Lengths(rs[..k]), RecordBytes(rs[k]));
    }
  }

  /** What an applier sees tiles the rope in order and adds up to its bytes. */
  lemma VisitsTile(w: World, d: Data)
    requires w.Valid() && w.Known(d)
    ensures Tiles(Visits(d), d.size) && VisitedBytes(Visits(d)) == Denote(d)
  {
    hide Join, Lengths, GoodRecords, RecordVisits, World.Accounts;
    KnownIsGood(w, d);
    if d.size == 0 {
    } else if Direct(d) {
      var vs := [Visit(d, 0, Denote(d))];
      assert vs[..0] == [];
    } else {
      RecordVisitsTile(d.records);
    }
  }

  lemma {:induction false} RecordVisitAt(rs: seq<Record>, i: nat)
    requires i < |rs|
    ensures |RecordVisits(rs)| == |rs| && RecordVisits(rs)[i] == Visit(rs[i].leaf, Start(rs, i), RecordBytes(rs[i]))
  {
    hide RecordBytes, Lengths;
    var k := |rs| - 1;
    VisitsPrefix(rs, |rs|);
    if i < k {
      RecordVisitAt(rs[..k], i);
      assert rs[..k][..i] == rs[..i];
    } else {
      VisitsPrefix(rs[..k], k);
    }
  }

  /** A contiguous object gets one visit, on itself; any other one visit for each record, on its leaf, in order. */
  lemma VisitsFollowRecords(w: World, d: Data, i: nat)
    requires w.Valid() && w.Known(d) && d.size > 0
    ensures Direct(d) ==> |Visits(d)| == 1 && Visits(d)[0].region == d
    ensures !Direct(d) ==> |Visits(d)| == |d.records|
    ensures !Direct(d) && i < |d.records| ==>
              Visits(d)[i].region == d.records[i].leaf && Visits(d)[i].offset == Start(d.records, i)
  {
    hide RecordVisits, Join, Lengths, GoodRecords, World.Accounts;
    KnownIsGood(w, d);
    if !Direct(d) {
      RecordVisitAt(d.records, 0);
      if i < |d.records| { RecordVisitAt(d.records, i); }
    }
  }

  /** Every visit shows a run of the bytes of a live, contiguous region, so that there is a buffer to show. */
  lemma VisitsShowBuffers(w: World, d: Data, i: nat)
    requires w.Valid() && w.Known(d) && i < |Visits(d)|
    ensures var v := Visits(d)[i];
            v.region in w.live && Direct(v.region)
            && exists from :: IsRun(v.bytes, Denote(v.region), from)
  {
    hide RecordVisits, Join, Lengths, World.Accounts;
    KnownIsGood(w, d);
    var v := Visits(d)[i];
    if Direct(d) {
      assert IsRun(v.bytes, Denote(d), 0);
    } else {
      RecordVisitAt(d.records, 0);
      RecordVisitAt(d.records, i);
      LeafOfRecord(w, d, i);
      var r := d.records[i];
      assert IsRun(v.bytes, Denote(r.leaf), r.from);
    }
  }

  predicate IsRun(run: seq<Byte>, bytes: seq<Byte>, from: int) {
    0 <= from && from + |run| <= |bytes| && bytes[from..from + |run|] == run
  }

  /** Calls `f`, which sees all visits so far, until it answers false. */
  method Apply(w: World, d: Data, f: Applier) returns (visited: seq<Visit>, ok: bool)
    requires w.Valid() && w.Known(d)
    ensures visited <= Visits(d) && (ok ==> visited == Visits(d))
    ensures ok <==> |visited| == 0 || f(visited)
    ensures |visited| == 0 ==> Visits(d) == []
    ensures forall i :: 0 < i < |visited| ==> f(visited[..i])
  {
    hide Join, Lengths, GoodRecord, RecordVisits, World.Accounts;
    KnownIsGood(w, d);
    visited, ok := [], true;
    if d.size == 0 {
      return;
    }
    if Direct(d) {
      visited := [Visit(d, 0, Denote(d))];
      ok := f(visited);
      return;
    }
    visited, ok := ApplyRecords(d.records, f);
  }

  method ApplyRecords(rs: seq<Record>, f: Applier) returns (visited: seq<Visit>, ok: bool)
    requires |rs| > 0
    ensures 0 < |visited| <= |rs| && visited == RecordVisits(rs[..|visited|])
    ensures visited <= RecordVisits(rs) && (ok ==> visited == RecordVisits(rs))
    ensures ok <==> f(visited)
    ensures forall i :: 0 < i < |visited| ==> f(visited[..i])
  {
    hide Lengths, RecordBytes;
    visited, ok := [], true;
    var i, offset := 0, 0;
    assert rs[..0] == [] && rs[..|rs|] == rs && Lengths(rs[..0]) == 0 by { StartEnds(rs); }
    while i < |rs| && ok
      invariant i <= |rs| && |visited| == i && offset == Start(rs, i) && visited == RecordVisits(rs[..i])
      invariant ok <==> i == 0 || f(visited)
      invariant forall j :: 0 < j < i ==> f(visited[..j])
    {
      assert rs[..i + 1][..i] == rs[..i];
      StartNext(rs, i);
      ghost var before := visited;
      visited := visited + [Visit(rs[i].leaf, offset, RecordBytes(rs[i]))];
      assert visited[..i] == before && forall j :: 0 < j < i ==> visited[..j] == before[..j];
      ok := f(visited);
      offset := offset + rs[i].length;
      i := i + 1;
    }
    VisitsPrefix(rs, i);
  }

  lemma {:induction false} VisitsPrefix(rs: seq<Record>, i: nat)
    requires i <= |rs|
    ensures RecordVisits(rs[..i]) <= RecordVisits(rs) && |RecordVisits(rs)| == |rs|
  {
    hide Lengths, RecordBytes;
    if |rs| > 0 {
      var k := |rs| - 1;
      VisitsPrefix(rs[..k], if i < k then i else k);
      assert i <= k ==> rs[..k][..i] == rs[..i];
      assert i > k ==> rs[..i] == rs;
    }
  }

  lemma {:induction false} TilesSize(vs: seq<Visit>, size: nat)
    requires Tiles(vs, size)
    ensures |VisitedBytes(vs)| == size
  {
    if |vs| > 0 { TilesSize(vs[..|vs| - 1], vs[|vs| - 1].offset); }
  }

  lemma {:induction false} TilesPrefix(vs: seq<Visit>, size: nat, i: nat)
    requires Tiles(vs, size) && i < |vs|
    ensures vs[i].offset == |VisitedBytes(vs[..i])| && vs[i].offset + |vs[i].bytes| <= size
    ensures VisitedBytes(vs[..i + 1]) == VisitedBytes(vs[..i]) + vs[i].bytes
  {
    var k := |vs| - 1;
    if i < k {
      TilesPrefix(vs[..k], vs[k].offset, i);
      assert vs[..k][..i] == vs[..i] && vs[..k][..i + 1] == vs[..i + 1];
    } else {
      TilesSize(vs[..k], vs[k].offset);
      assert vs[..i + 1] == vs && vs[..i + 1][..i] == vs[..i];
    }
  }

  /** A contiguous copy of the bytes, put together by an applier. */
  method Flatten(w: World, d: Data) returns (buffer: array<Byte>)
    requires w.Valid() && w.Known(d)
    ensures fresh(buffer) && buffer[..] == Denote(d)
  {
    hide Denote, World.Accounts, World.Shape, World.Known, Visits, Good, Tiles, VisitedBytes;
    KnownIsGood(w, d);
    VisitsTile(w, d);
    buffer := new Byte[d.size];
    var visited, _ := Apply(w, d, _ => true);
    TilesSize(visited, d.size);
    var i := 0;
    ghost var copied: seq<Byte> := [];
    NothingVisited(visited);
    while i < |visited|
      invariant i <= |visited| && copied == VisitedBytes(visited[..i])
      invariant |copied| <= d.size && buffer[..|copied|] == copied
    {
      var v := visited[i];
      TilesPrefix(visited, d.size, i);
      Copy(buffer, v.offset, v.bytes);
      copied := copied + v.bytes;
      i := i + 1;
    }
    assert visited[..i] == visited;
    assert buffer[..|copied|] == buffer[..];
  }

  lemma NothingVisited(vs: seq<Visit>)
    ensures VisitedBytes(vs[..0]) == []
  {}

  /** memcpy */
  method Copy(to: array<Byte>, at: nat, bytes: seq<Byte>)
    requires at + |bytes| <= to.Length
    modifies to
    ensures to[..at + |bytes|] == old(to[..at]) + bytes
    ensures to[at + |bytes|..] == old(to[at + |bytes|..])
  {
    var i := 0;
    while i < |bytes|
      invariant i <= |bytes| && to[..at + i] == old(to[..at]) + bytes[..i]
      invariant to[at + |bytes|..] == old(to[at + |bytes|..])
    {
      to[at + i] := bytes[i];
      i := i + 1;
    }
  }

  /** A contiguous object for the same bytes: the object itself if it is contiguous, else a new leaf. */
  method CreateMap(w: World, d: Data) returns (r: Data, buffer: seq<Byte>, size: nat)
    requires w.Valid() && w.Known(d)
    modifies w, w.live
    ensures w.Made(r) && Denote(r) == Denote(d) == buffer && size == d.size
    ensures if old(Direct(d)) then r == d else IsLeaf(r) && fresh(r)
    ensures |d.records| <= 1 || old(d.buf).Some? ==> r == d
  {
    hide Denote, Join, Lengths, GoodRecords, Good, World.Accounts, World.Shape, Uses, Edges;
    KnownIsGood(w, d);
    KnownIsGood(w, w.empty);
    size := d.size;
    if size == 0 {
      assert Denote(d) == [];
      r := Nothing(w);
      buffer := [];
      return;
    }
    var b, _, _ := MapDirect(w, d, 0);
    if b.Some? {
      buffer := b.value[..size];
      assert Denote(d)[0..] == Denote(d);
      w.Retain(d);
      r := d;
      return;
    }
    var flat := Flatten(w, d);
    buffer := flat[..];
    r := w.Create(buffer);
  }

  /** dispatch_data_get_flattened_bytes_4libxpc when nobody races: the copy is cached in the object. */
  method GetFlattenedBytes(w: World, d: Data) returns (bytes: Option<seq<Byte>>)
    requires w.Valid() && w.Known(d)
    modifies d`buf
    ensures w.Valid() && (bytes.None? <==> d == w.empty)
    ensures bytes.Some? ==> d.size <= |bytes.value| && bytes.value[..d.size] == Denote(d)
    ensures d.buf == if old(Direct(d)) then old(d.buf) else Some(Denote(d))
    ensures |d.records| <= 1 || old(d.buf).Some? ==> d.buf == old(d.buf)
  {
    hide Denote, Join, Lengths, GoodRecords, Good, Uses, Edges;
    KnownIsGood(w, d);
    if d.size == 0 {
      return None;
    }
    assert Denote(d)[0..] == Denote(d);
    var direct, _, _ := MapDirect(w, d, 0);
    bytes := direct;
    if direct.None? {
      var flat := Flatten(w, d);
      d.buf := Some(flat[..]);
      bytes := d.buf;
    }
  }

  // ---- what a client can rely on ------------------------------------------------------------

  /** Cutting a rope anywhere and concatenating the two parts gives the same bytes. */
  method CutAndRejoin(w: World, d: Data, k: nat) returns (r: Data)
    requires w.Valid() && w.Known(d)
    modifies w, w.live
    ensures w.Valid() && w.Known(r) && Denote(r) == Denote(d)
  {
    hide Denote, Slice, Join, Lengths, GoodRecords, Good, World.Accounts, World.Shape;
    KnownIsGood(w, d);
    SplitRestores(Denote(d), k);
    var prefix := Subrange(w, d, 0, k);
    var suffix := Subrange(w, d, k, d.size);
    var whole := Concat(w, prefix, suffix);
    r := whole.value;
  }

  /** Record boundaries do not collide. */
  lemma BoundaryIsUnique(rs: seq<Record>, j: nat, k: nat)
    requires GoodRecords(rs) && j <= |rs| && k < |rs| && Start(rs, k) <= Start(rs, j) < Start(rs, k + 1)
    ensures j == k
  {
    hide Start, Join;
    StartNext(rs, k);
    if j < k { PositiveRun(rs, j, k - j); }
    if j > k { PositiveRun(rs, k, j - k); }
  }

  function AllBytes(ds: seq<Data>): seq<Byte> {
    if |ds| == 0 then [] else AllBytes(ds[..|ds| - 1]) + Denote(ds[|ds| - 1])
  }

  /** `location` is where region number `j` of `d` starts, or the end. */
  predicate Boundary(d: Data, j: nat, location: nat)
    reads d
  {
    if Direct(d) then (j == 0 && location == 0) || (j == 1 && location == d.size)
    else j <= |d.records| && location == Start(d.records, j)
  }

  /** A region asked for at a boundary starts there and ends at the next one. */
  method NextRegion(w: World, d: Data, location: nat, ghost j: nat) returns (r: Data)
    requires w.Valid() && w.Known(d) && location < d.size && Boundary(d, j, location)
    modifies w, w.live
    ensures w.Made(r) && 0 < r.size && RegionAt(d, r, location)
    ensures Boundary(d, j + 1, location + r.size)
  {
    hide Denote, Join, Lengths, GoodRecords, Good, Start, RecordBytes, World.Accounts, World.Shape, World.Reaches;
    hide Uses, Edges, RegionAt;
    KnownIsGood(w, d);
    var off;
    ghost var k;
    r, off, k := CopyRegion(w, d, location);
    if !Direct(d) { BoundaryIsUnique(d.records, j, k); }
  }

  /** Stepping to the end of each region visits regions that tile the rope, in order, and ends. */
  method Walk(w: World, d: Data) returns (regions: seq<Data>)
    requires w.Valid() && w.Known(d)
    modifies w, w.live
    ensures w.Valid() && AllBytes(regions) == Denote(d)
    ensures |regions| == if d.size == 0 then 0 else if old(Direct(d)) then 1 else |d.records|
  {
    hide Denote, Join, Lengths, GoodRecords, Good, Start, RecordBytes, World.Accounts, World.Shape, World.Reaches;
    hide Uses, Edges, World.Valid, AllBytes, Boundary;
    KnownIsGood(w, d);
    regions := [];
    var location := 0;
    Boundaries(d, 0, 0);
    NoRegions();
    while location < d.size
      invariant w.Valid() && w.Known(d) && d.buf == old(d.buf)
      invariant w.live >= old(w.live) && fresh(w.live - old(w.live))
      invariant Boundary(d, |regions|, location) && (d.size == 0 ==> |regions| == 0)
      invariant location <= d.size && AllBytes(regions) == Denote(d)[..location]
      decreases d.size - location
    {
      var r := NextRegion(w, d, location, |regions|);
      OneMoreRegion(d, regions, r, location);
      regions := regions + [r];
      location := location + r.size;
    }
    if d.size > 0 { Boundaries(d, |regions|, location); }
    assert Denote(d)[..location] == Denote(d);
  }

  lemma NoRegions()
    ensures AllBytes([]) == []
  {}

  lemma OneMoreRegion(d: Data, regions: seq<Data>, r: Data, location: nat)
    requires RegionAt(d, r, location) && AllBytes(regions) == Denote(d)[..location]
    ensures AllBytes(regions + [r]) == Denote(d)[..location + r.size]
  {
    hide Denote, Join;
    assert (regions + [r])[..|regions|] == regions;
  }

  /** The first boundary is 0; the one at the end is the last. */
  lemma Boundaries(d: Data, j: nat, location: nat)
    ensures Boundary(d, 0, 0)
    ensures Good(d) && Boundary(d, j, location) && location == d.size > 0 ==>
              j == if Direct(d) then 1 else |d.records|
  {
    hide Start, Join, Lengths, GoodRecord;
    StartEnds(d.records);
    if Good(d) && Boundary(d, j, location) && location == d.size && !Direct(d) { LastBoundary(d.records, j); }
  }

  lemma LastBoundary(rs: seq<Record>, j: nat)
    requires GoodRecords(rs) && j <= |rs| && Start(rs, j) == Lengths(rs)
    ensures j == |rs|
  {
    hide Start, Join, Lengths;
    StartEnds(rs);
    if j < |rs| { PositiveRun(rs, j, |rs| - j); RecordIsGood(rs, j); }
  }
}
