/** The constructors and readers of data objects (data.c), on a World that counts references. */
module DataOps {
  import opened DataRope
  import opened DataHeap
  import opened Options

  /** What Valid() says of an object a caller may name. */
  lemma KnownIsGood(w: World, d: Data)
    requires w.Valid() && w.Known(d)
    ensures |Denote(d)| == d.size < WORD && (d == w.empty <==> d.size == 0) && (d == w.empty ==> IsLeaf(d))
    ensures d != w.empty ==> Good(d) && w.Reaches(Ranges(d)) && GoodRecords(Ranges(d))
    ensures d != w.empty ==> Join(Ranges(d)) == Denote(d) && Lengths(Ranges(d)) == d.size
  {
    hide Join, Lengths, Edges, Uses;
    if d == w.empty {
      assert Denote(d) == d.bytes;
    } else {
      assert Good(d);
      SizeIsLength(d);
    }
  }

  lemma BothRanges(w: World, d1: Data, d2: Data)
    requires w.Valid() && w.Known(d1) && w.Known(d2) && d1 != w.empty && d2 != w.empty
    ensures w.Reaches(Ranges(d1) + Ranges(d2)) && GoodRecords(Ranges(d1) + Ranges(d2))
    ensures Lengths(Ranges(d1) + Ranges(d2)) == d1.size + d2.size >= |Ranges(d1)| + |Ranges(d2)| > 1
    ensures Join(Ranges(d1) + Ranges(d2)) == Denote(d1) + Denote(d2)
  {
    hide Denote, Join, RecordBytes, Lengths, GoodRecord, Good, World.Valid;
    KnownIsGood(w, d1);
    KnownIsGood(w, d2);
    JoinAppend(Ranges(d1), Ranges(d2));
    JoinLength(Ranges(d1) + Ranges(d2));
  }

  /** Both operands' ranges in a new object; None is out of memory.  If the sizes add up to more than a
      size_t holds, the object is malformed, and what it retained is held by no well-formed object. */
  method Concat(w: World, d1: Data, d2: Data) returns (d: Option<Data>)
    requires w.Valid() && w.Known(d1) && w.Known(d2)
    modifies w, w.live
    ensures d1 == w.empty ==> d == Some(d2)
    ensures d2 == w.empty ==> d == Some(d1)
    ensures d.None? <==> d1 != w.empty && d2 != w.empty && |Ranges(d1)| + |Ranges(d2)| >= WORD
    ensures d1 != w.empty && d2 != w.empty && d.Some? ==>
              var r := d.value; fresh(r) && r.records == Ranges(d1) + Ranges(d2) && r.buf == None
    ensures |Denote(d1)| + |Denote(d2)| < WORD ==>
              d.Some? && w.Made(d.value) && Denote(d.value) == Denote(d1) + Denote(d2)
    ensures |Denote(d1)| + |Denote(d2)| >= WORD ==>
              && w.live == old(w.live) && w.client == old(w.client)
              && if d.Some? then !Good(d.value) && w.Shape() && w.Accounts(d.value.records) else w.Valid()
  {
    hide Denote, Join, RecordBytes, Lengths, GoodRecords, Good, Ranges, AddSizes;
    hide World.Valid, World.Shape, World.Reaches;
    KnownIsGood(w, d1);
    KnownIsGood(w, d2);
    if d1.size == 0 {
      w.Retain(d2);
      return Some(d2);
    }
    if d2.size == 0 {
      w.Retain(d1);
      return Some(d1);
    }
    var rs := Ranges(d1) + Ranges(d2);
    BothRanges(w, d1, d2);
    if |rs| >= WORD {
      return None;
    }
    var r := new Data.Composite(AddSizes(d1.size, d2.size), rs);
    w.RetainLeaves(rs);
    ConcatIsGoodIffItFits(r, d1.size, d2.size);
    if d1.size + d2.size < WORD { w.Enter(r, rs); }
    d := Some(r);
  }

  lemma ConcatIsGoodIffItFits(d: Data, a: nat, b: nat)
    requires |d.records| > 0 && |d.bytes| == 0 && GoodRecords(d.records) && d.size == AddSizes(a, b)
    requires a < WORD && b < WORD && Lengths(d.records) == a + b
    ensures Good(d) <==> a + b < WORD
    ensures Denote(d) == Join(d.records)
  {
    hide Join, Lengths, GoodRecords;
  }

  /** The record holding byte `offset`; running off the end would be the crash. */
  method FindFirst(rs: seq<Record>, offset: nat) returns (i: nat, rest: nat)
    requires GoodRecords(rs) && offset < Lengths(rs)
    ensures i < |rs| && rest < rs[i].length && Start(rs, i) + rest == offset
  {
    hide Start, Lengths, GoodRecord;
    i, rest := 0, offset;
    StartEnds(rs);
    while i < |rs| && rest >= rs[i].length
      invariant i <= |rs| && Start(rs, i) + rest == offset
    {
      StartNext(rs, i);
      rest := rest - rs[i].length;
      i := i + 1;
    }
  }

  /** How many records a range takes that starts `rest` bytes into record i and ends before the end, and
      how much of the last one. */
  method FindLast(rs: seq<Record>, i: nat, rest: nat, length: nat) returns (count: nat, last: nat)
    requires GoodRecords(rs) && i < |rs| && rest < rs[i].length < rest + length
    requires Start(rs, i) + rest + length < Lengths(rs)
    ensures 2 <= count && i + count <= |rs| && 0 < last <= rs[i + count - 1].length
    ensures Start(rs, i + count - 1) + last == Start(rs, i) + rest + length
  {
    hide Start, Lengths, GoodRecords;
    last := length - (rs[i].length - rest);
    count := 1;
    StartNext(rs, i);
    StartEnds(rs);
    while i + count < |rs|
      invariant 1 <= count && i + count < |rs| && 0 < last
      invariant Start(rs, i + count) + last == Start(rs, i) + rest + length
    {
      var recordLength := rs[i + count].length;
      StartNext(rs, i + count);
      count := count + 1;
      if last <= recordLength {
        return;
      }
      last := last - recordLength;
      assert i + count < |rs|;              // the second crash cannot happen
    }
  }

  /** The records of a subrange of more than one record. */
  function Cut(rs: seq<Record>, i: nat, count: nat, rest: nat, last: nat): seq<Record>
    requires 2 <= count && i + count <= |rs| && rest < rs[i].length
  {
    rs[i..i + count][0 := LaterBy(rs[i], rest)][count - 1 := rs[i + count - 1].(length := last)]
  }

  lemma CutDenotes(rs: seq<Record>, i: nat, count: nat, rest: nat, last: nat)
    requires GoodRecords(rs) && 2 <= count && i + count <= |rs|
    requires rest < rs[i].length && 0 < last <= rs[i + count - 1].length
    ensures GoodRecords(Cut(rs, i, count, rest, last))
    ensures var start, end := Start(rs, i) + rest, Start(rs, i + count - 1) + last;
      start < end <= |Join(rs)| && Join(Cut(rs, i, count, rest, last)) == Join(rs)[start..end]
  {
    hide Join, Lengths, GoodRecord, LaterBy;
    var a, n := rs[i..i + count], count - 1;
    var c := a[n := a[n].(length := last)];
    JoinSlice(rs, i, i + count);
    TrimBack(a, last);
    TrimFront(c, rest);
    assert c[0 := LaterBy(c[0], rest)] == Cut(rs, i, count, rest, last);
    assert a[..n] == rs[i..i + n];
    JoinSlice(rs, i, i + n);
    JoinLength(a[..n]);
    PositiveRun(rs, i, n);
    var p, q := Start(rs, i), Start(rs, i + count);
    SliceOfSlice(Join(rs), p, q, 0, Start(a, n) + last);
    SliceOfSlice(Join(rs), p, p + Start(a, n) + last, rest, Start(a, n) + last);
  }

  lemma PositiveRun(rs: seq<Record>, i: nat, n: nat)
    requires GoodRecords(rs) && 0 < n && i + n <= |rs|
    ensures Start(rs, i) + rs[i].length <= Start(rs, i + n)
  {
    hide Join, GoodRecord;
    JoinSlice(rs, i + 1, i + n);
    StartNext(rs, i);
  }

  lemma SliceCases(b: seq<Byte>, offset: nat, length: nat)
    ensures offset >= |b| || length == 0 ==> Slice(b, offset, length) == []
    ensures offset < |b| ==> Slice(b, offset, |b|) == b[offset..|b|]
    ensures offset < |b| && length > |b| - offset ==> Slice(b, offset, length) == b[offset..|b|]
    ensures offset + length <= |b| ==> Slice(b, offset, length) == b[offset..offset + length]
    ensures Slice(b, 0, |b|) == b
  {}

  lemma RecordAt(rs: seq<Record>, i: nat)
    requires GoodRecords(rs) && i < |rs|
    ensures var r, p := rs[i], Start(rs, i);
      && r.from + r.length <= |r.leaf.bytes| && p + r.length <= |Join(rs)| && 0 < r.length
      && r.leaf.bytes[r.from..r.from + r.length] == Join(rs)[p..p + r.length]
  {
    hide Join, Lengths, Start;
    assert RecordBytes(rs[i]) == rs[i].leaf.bytes[rs[i].from..rs[i].from + rs[i].length];
    JoinSlice(rs, i, i + 1);
    StartNext(rs, i);
    JoinOne(rs[i]);
    assert rs[i..i + 1] == [rs[i]];
  }

  /** A range inside one record is a range of that record's leaf. */
  lemma InsideOneRecord(rs: seq<Record>, i: nat, rest: nat, length: nat, offset: nat)
    requires GoodRecords(rs) && i < |rs| && rest + length <= rs[i].length && Start(rs, i) + rest == offset
    ensures rs[i].from + rest + length <= |rs[i].leaf.bytes| && offset + length <= |Join(rs)|
    ensures Slice(rs[i].leaf.bytes, rs[i].from + rest, length) == Join(rs)[offset..offset + length]
  {
    hide Join, RecordBytes, Lengths, Start, GoodRecords, GoodRecord;
    RecordAt(rs, i);
    var r, p, b := rs[i], Start(rs, i), Join(rs);
    SliceCases(r.leaf.bytes, r.from + rest, length);
    hide *;
    SliceOfSlice(b, p, p + r.length, rest, rest + length);
    SliceOfSlice(r.leaf.bytes, r.from, r.from + r.length, rest, rest + length);
  }

  /** A range of a leaf. */
  method SubrangeOfLeaf(w: World, d: Data, offset: nat, length: nat) returns (r: Data)
    requires w.Valid() && d in w.live && IsLeaf(d) && 0 < length && offset + length <= d.size
    modifies w, w.live
    ensures w.Made(r)
    ensures offset + length <= |d.bytes| && Denote(r) == d.bytes[offset..offset + length]
    ensures fresh(r) && r.records == [Record(d, offset, length)] && r.buf == None
  {
    hide Join, Lengths, World.Valid, World.Made, World.Shape;
    var rs := [Record(d, offset, length)];
    JoinOne(rs[0]);
    KnownIsGood(w, d);
    r := w.Box(length, rs);
  }

  lemma RecordIsGood(rs: seq<Record>, i: nat)
    requires GoodRecords(rs) && i < |rs|
    ensures GoodRecord(rs[i]) && 0 < rs[i].length
  {}

  predicate SameLeaves(cut: seq<Record>, rs: seq<Record>, i: nat) {
    i + |cut| <= |rs| && forall k :: 0 <= k < |cut| ==> cut[k].leaf == rs[i + k].leaf
  }

  /** The records a range takes up that spans more than one. */
  method CutRecords(rs: seq<Record>, i: nat, rest: nat, length: nat, toTheEnd: bool, offset: nat)
    returns (cut: seq<Record>)
    requires GoodRecords(rs) && i < |rs| && rest < rs[i].length < rest + length
    requires Start(rs, i) + rest == offset && offset + length <= Lengths(rs)
    requires toTheEnd <==> offset + length == Lengths(rs)
    ensures GoodRecords(cut) && |cut| > 1
    ensures SameLeaves(cut, rs, i)
    ensures Lengths(cut) == length && Lengths(rs) == |Join(rs)|
    ensures Join(cut) == Join(rs)[offset..offset + length]
  {
    hide Join, Lengths, GoodRecord, Start, RecordBytes;
    var count, last := 0, 0;
    StartEnds(rs);
    StartNext(rs, i);
    JoinLength(rs);
    if toTheEnd {
      count := |rs| - i;
      StartNext(rs, |rs| - 1);
    } else {
      count, last := FindLast(rs, i, rest, length);
    }
    cut := rs[i..i + count];
    if rest != 0 {
      cut := cut[0 := cut[0].(from := cut[0].from + rest, length := cut[0].length - rest)];
    }
    if !toTheEnd {
      cut := cut[count - 1 := cut[count - 1].(length := last)];
    }
    if toTheEnd {
      last := rs[|rs| - 1].length;
      RecordIsGood(rs, |rs| - 1);
    }
    assert cut == Cut(rs, i, count, rest, last);
    CutDenotes(rs, i, count, rest, last);
    JoinLength(cut);
  }

  /** dispatch_data_empty takes no reference. */
  method Nothing(w: World) returns (r: Data)
    requires w.Valid()
    ensures w.Made(r) && r == w.empty
  {
    r := w.empty;
  }

  /** How much there is of what is asked for. */
  function Clip(size: nat, offset: nat, length: nat): nat {
    if offset >= size then 0 else if length > size - offset then size - offset else length
  }

  /** A slice holds as many bytes as there are, from the offset on. */
  lemma SliceMeans(b: seq<Byte>, offset: nat, length: nat, k: nat)
    ensures |Slice(b, offset, length)| == Clip(|b|, offset, length) <= length
    ensures k < Clip(|b|, offset, length) <==> k < length && offset + k < |b|
    ensures k < Clip(|b|, offset, length) ==> Slice(b, offset, length)[k] == b[offset + k]
  {}

  /** The range lies inside one record. */
  ghost predicate Inside(rs: seq<Record>, offset: nat, length: nat) {
    exists i :: 0 <= i < |rs| && InsideRecord(rs, i, offset, length)
  }

  ghost predicate InsideRecord(rs: seq<Record>, i: nat, offset: nat, length: nat)
    requires i < |rs|
  {
    Start(rs, i) <= offset && offset + length <= Start(rs, i) + rs[i].length
  }

  lemma InsideHere(rs: seq<Record>, i: nat, offset: nat, length: nat)
    requires i < |rs| && InsideRecord(rs, i, offset, length)
    ensures Inside(rs, offset, length)
  {}

  lemma InsideNowhere(rs: seq<Record>, i: nat, offset: nat, length: nat)
    requires GoodRecords(rs) && i < |rs|
    requires Start(rs, i) <= offset < Start(rs, i) + rs[i].length < offset + length
    ensures !Inside(rs, offset, length)
  {
    hide Start, GoodRecords;
    forall j: nat | j < |rs| ensures !InsideRecord(rs, j, offset, length) {
      if j < i { PositiveRun(rs, j, i - j); }
      if j > i { PositiveRun(rs, i, j - i); }
    }
  }

  /** The bytes asked for, as far as there are any; nothing is copied. */
  method Subrange(w: World, d: Data, offset: nat, length: nat) returns (r: Data)
    requires w.Valid() && w.Known(d)
    modifies w, w.live
    ensures w.Made(r)
    ensures Denote(r) == Slice(Denote(d), offset, length)
    ensures r == w.empty <==> offset >= d.size || length == 0
    ensures d != w.empty ==> (r == d <==> offset == 0 && length == d.size)
    ensures IsLeaf(d) && r != d && r != w.empty ==>
              fresh(r) && r.records == [Record(d, offset, Clip(d.size, offset, length))]
    ensures !IsLeaf(d) && r != d && r != w.empty ==>
              && (|r.records| <= 1 <==> Inside(d.records, offset, Clip(d.size, offset, length)))
              && (|r.records| > 1 ==> fresh(r))
    decreases |d.records|, 1
  {
    hide Denote, GoodRecords, Good, Ranges, Join, Lengths, Start, Slice, Uses, Edges;
    hide World.Valid, World.Made, World.Shape, World.Accounts, World.Reaches, World.Gained;
    KnownIsGood(w, d);
    KnownIsGood(w, w.empty);
    LeafDenotes(d);
    SliceCases(Denote(d), offset, length);
    var len := length;
    if offset >= d.size || len == 0 {
      r := Nothing(w);
      return;
    } else if len > d.size - offset {
      len := d.size - offset;
    } else if len == d.size {
      w.Retain(d);
      return d;
    }
    if IsLeaf(d) {
      r := SubrangeOfLeaf(w, d, offset, len);
    } else {
      r := SubrangeOfComposite(w, d, offset, len);
    }
  }

  lemma LeafDenotes(d: Data)
    ensures IsLeaf(d) ==> Denote(d) == d.bytes
    ensures !IsLeaf(d) ==> Denote(d) == Join(Ranges(d)) && Ranges(d) == d.records
  {}

  method SubrangeOfComposite(w: World, d: Data, offset: nat, len: nat) returns (r: Data)
    requires w.Valid() && d in w.live && !IsLeaf(d) && 0 < len && offset + len <= d.size
    modifies w, w.live
    ensures w.Made(r)
    ensures offset + len <= |Denote(d)| && Denote(r) == Denote(d)[offset..offset + len]
    ensures r != d && r != w.empty && (|r.records| <= 1 <==> Inside(d.records, offset, len))
    ensures |r.records| > 1 ==> fresh(r)
    decreases |d.records|, 0
  {
    hide Denote, Join, RecordBytes, Lengths, Start, GoodRecords, GoodRecord, Good, Ranges, SameLeaves, Slice;
    hide World.Valid, World.Shape, World.Accounts, World.Reaches, World.Gained;
    KnownIsGood(w, d);
    LeafDenotes(d);
    var rs := d.records;
    var toTheEnd := offset + len == d.size;
    var i, rest := FindFirst(rs, offset);
    if rest + len <= rs[i].length {
      InsideOneRecord(rs, i, rest, len, offset);
      LeafOfRecord(w, d, i);
      r := Subrange(w, rs[i].leaf, rs[i].from + rest, len);
      InsideHere(rs, i, offset, len);
      return;
    }
    InsideNowhere(rs, i, offset, len);
    var cut := CutRecords(rs, i, rest, len, toTheEnd, offset);
    CutReaches(w, rs, i, cut);
    r := w.Box(len, cut);
  }

  lemma LeafOfRecord(w: World, d: Data, i: nat)
    requires w.Valid() && d in w.live && i < |d.records|
    ensures w.Known(d.records[i].leaf) && d.records[i].leaf != w.empty && IsLeaf(d.records[i].leaf)
    ensures GoodRecord(d.records[i]) && Denote(d.records[i].leaf) == d.records[i].leaf.bytes
    ensures d.records[i].leaf.size == |d.records[i].leaf.bytes|
  {
    hide Join, Lengths, Edges, Uses;
    assert Good(d);
    RecordIsGood(d.records, i);
  }

  lemma CutReaches(w: World, rs: seq<Record>, i: nat, cut: seq<Record>)
    requires w.Reaches(rs)
    requires SameLeaves(cut, rs, i)
    ensures w.Reaches(cut)
  {}

  /** A contiguous buffer is at hand. */
  predicate Direct(d: Data)
    reads d
  {
    |d.records| <= 1 || d.buf.Some?
  }

  /** _dispatch_data_map_direct: sees through a one-record object; `buffer` is what can be read from the
      returned address on. */
  method MapDirect(w: World, d: Data, offset: nat) returns (buffer: Option<seq<Byte>>, through: Data, at: nat)
    requires w.Valid() && d in w.live && offset <= d.size
    ensures buffer.Some? <==> Direct(d)
    ensures |d.records| == 1 ==> through == d.records[0].leaf && at == d.records[0].from + offset
    ensures |d.records| != 1 ==> through == d && at == offset
    ensures |d.records| <= 1 ==> through in w.live && IsLeaf(through) && at + (d.size - offset) <= |through.bytes|
    ensures |d.records| <= 1 ==> through.bytes[at..at + (d.size - offset)] == Denote(d)[offset..]
    ensures d.size == |Denote(d)| && (buffer.Some? ==> d.size - offset <= |buffer.value|)
    ensures buffer.Some? ==> buffer.value[..d.size - offset] == Denote(d)[offset..]
  {
    hide Denote, Join, Lengths, Good, GoodRecords, World.Accounts;
    KnownIsGood(w, d);
    if |d.records| <= 1 { SeeThrough(w, d, offset); }
    at, through := offset, d;
    if |d.records| == 1 {
      at := at + d.records[0].from;
      through := d.records[0].leaf;
    }
    if IsLeaf(through) {
      buffer := Some(through.bytes[at..]);
    } else if through.buf.Some? {
      buffer := Some(through.buf.value[at..]);
    } else {
      buffer := None;
    }
  }

  lemma OneRange(d: Data)
    requires Good(d) && |d.records| <= 1
    ensures var r := Ranges(d)[0]; GoodRecord(r) && r.length == d.size && r.from + d.size <= |r.leaf.bytes|
    ensures var r := Ranges(d)[0]; Denote(d) == r.leaf.bytes[r.from..r.from + d.size]
  {
    hide Join, Lengths, Denote, Good;
    var r := Ranges(d)[0];
    SizeIsLength(d);
    assert Ranges(d) == [r] && GoodRecord(Ranges(d)[0]);
    JoinOne(r);
    assert RecordBytes(r) == r.leaf.bytes[r.from..r.from + r.length];
  }

  lemma SeeThrough(w: World, d: Data, offset: nat)
    requires w.Valid() && d in w.live && offset <= d.size && |d.records| <= 1
    ensures var r := Ranges(d)[0]; r.leaf in w.live && IsLeaf(r.leaf) && r.from + d.size <= |r.leaf.bytes|
    ensures var r := Ranges(d)[0];
            d.size == |Denote(d)| && r.leaf.bytes[r.from + offset..r.from + d.size] == Denote(d)[offset..]
  {
    hide Join, Lengths, Denote, RecordBytes, World.Accounts;
    KnownIsGood(w, d);
    OneRange(d);
    var r, b := Ranges(d)[0], Denote(d);
    assert b[offset..|b|] == b[offset..];
    SliceOfSlice(r.leaf.bytes, r.from, r.from + r.length, offset, r.length);
  }

  /** A part of a one-record object is a part of its leaf, and all of the leaf only if it is all of `d`. */
  lemma PartOfLeaf(w: World, d: Data, from: nat, size: nat)
    requires w.Valid() && d in w.live && |d.records| <= 1 && from + size <= d.size
    ensures var r := Ranges(d)[0]; r.leaf in w.live && IsLeaf(r.leaf) && r.from + d.size <= r.leaf.size
    ensures var r := Ranges(d)[0]; r.leaf.size == |r.leaf.bytes| && from + size <= |Denote(d)|
    ensures var r, at := Ranges(d)[0], Ranges(d)[0].from + from;
            r.leaf.bytes[at..at + size] == Denote(d)[from..from + size]
  {
    hide Join, Lengths, Denote, RecordBytes, World.Accounts;
    KnownIsGood(w, d);
    OneRange(d);
    var r := Ranges(d)[0];
    SliceOfSlice(r.leaf.bytes, r.from, r.from + r.length, from, from + size);
  }

  /** A region that is all of `d` or `size` bytes of the leaf that `d` is or sees through to. */
  method DirectRegion(w: World, d: Data, from: nat, size: nat) returns (r: Data)
    requires w.Valid() && d in w.live && Direct(d) && 0 < size && from + size <= d.size
    requires |d.records| <= 1 || (from == 0 && size == d.size)
    modifies w, w.live
    ensures w.Made(r) && from + size <= |Denote(d)| && Denote(r) == Denote(d)[from..from + size]
    ensures from == 0 && size == d.size ==> r == d
    ensures !(from == 0 && size == d.size) ==> |r.records| == 1
  {
    hide Good, Denote, Join, Lengths, GoodRecords, Slice, RecordBytes;
    hide World.Valid, World.Accounts, World.Shape, World.Gained, World.Reaches;
    var reusable := from == 0 && size == d.size;
    KnownIsGood(w, d);
    assert Denote(d)[0..|Denote(d)|] == Denote(d);
    if |d.records| <= 1 { PartOfLeaf(w, d, from, size); }
    var _, through, at := MapDirect(w, d, from);
    if reusable {
      w.Retain(d);
      return d;
    }
    assert !(at == 0 && size == through.size);   // so the second test for a whole leaf never succeeds
    r := SubrangeOfLeaf(w, through, at, size);
  }

  /** `r` stands for the bytes of `d` from `off` on. */
  predicate RegionAt(d: Data, r: Data, off: nat) {
    off + r.size <= |Denote(d)| && Denote(r) == Denote(d)[off..off + r.size]
  }

  /** Record `k` of `d`, as a leaf or a range of one. */
  predicate RegionOfRecord(d: Data, k: nat, r: Data, off: nat) {
    k < |d.records| && off == Start(d.records, k) && Start(d.records, k + 1) == off + r.size && |r.records| <= 1
  }

  /** The region that holds byte `location`: all of `d` if its bytes are contiguous, else record `k`. */
  method CopyRegion(w: World, d: Data, location: nat) returns (r: Data, off: nat, ghost k: nat)
    requires w.Valid() && w.Known(d)
    modifies w, w.live
    ensures w.Made(r)
    ensures location >= d.size ==> r == w.empty && off == d.size
    ensures location < d.size ==> RegionAt(d, r, off) && off <= location < off + r.size
    ensures location < d.size ==> if old(Direct(d)) then r == d && off == 0 else RegionOfRecord(d, k, r, off)
    ensures |r.records| <= 1 <==> location >= d.size || |d.records| <= 1 || old(d.buf.None?)
  {
    hide Good, Denote, Join, Lengths, GoodRecords, Start, Ranges;
    hide World.Valid, World.Accounts, World.Shape, World.Gained, World.Made;
    KnownIsGood(w, w.empty);
    off, k := 0, 0;
    if location >= d.size {
      off := d.size;
      r := Nothing(w);
      return;
    }
    KnownIsGood(w, d);
    assert Denote(d)[0..|Denote(d)|] == Denote(d);
    if Direct(d) {
      r := DirectRegion(w, d, 0, d.size);
    } else {
      r, off, k := CopyRecord(w, d, location);
    }
  }

  /** The record of a composite that holds byte `location`; running off the end would be the crash. */
  method FindRegion(rs: seq<Record>, location: nat) returns (i: nat, off: nat)
    requires location < Lengths(rs)
    ensures i < |rs| && off == Start(rs, i) <= location < off + rs[i].length == Start(rs, i + 1)
  {
    hide Start, Lengths;
    i, off := 0, 0;
    StartEnds(rs);
    while i < |rs|
      invariant i <= |rs| && off == Start(rs, i) <= location
    {
      StartNext(rs, i);
      if location < off + rs[i].length {
        return;
      }
      off := off + rs[i].length;
      i := i + 1;
    }
  }

  method CopyRecord(w: World, d: Data, location: nat) returns (r: Data, off: nat, ghost k: nat)
    requires w.Valid() && d in w.live && !IsLeaf(d) && location < d.size
    modifies w, w.live
    ensures w.Made(r) && RegionAt(d, r, off) && RegionOfRecord(d, k, r, off) && off <= location < off + r.size
  {
    hide Good, Denote, Join, Lengths, GoodRecords, Start, RecordBytes, RegionAt, RegionOfRecord;
    hide World.Valid, World.Accounts, World.Shape, World.Reaches, World.Gained, Slice, Uses, Edges;
    KnownIsGood(w, d);
    var i;
    i, off := FindRegion(d.records, location);
    k := i;
    LeafOfRecord(w, d, i);
    var part := d.records[i];
    r := DirectRegion(w, part.leaf, part.from, part.length);
    KnownIsGood(w, r);
    RecordStands(d, i, off, r);
  }

  lemma RecordStands(d: Data, i: nat, off: nat, r: Data)
    requires Good(d) && i < |d.records| && off == Start(d.records, i) && |r.records| <= 1
    requires r.size == |Denote(r)| && GoodRecord(d.records[i])
    requires var p := d.records[i]; Denote(r) == p.leaf.bytes[p.from..p.from + p.length]
    ensures RegionAt(d, r, off) && RegionOfRecord(d, i, r, off) && r.size == d.records[i].length
  {
    hide Join, Lengths, Start, RecordBytes;
    StartNext(d.records, i);
    RecordAt(d.records, i);
  }
}
