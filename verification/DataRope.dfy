/** Immutable byte ropes: what a data object denotes, when it is well formed, and how cutting and joining
    range lists cuts and joins the bytes. */
module DataRope {
  import opened Options

  type Byte = bv8

  const WORD: nat := 0x1_0000_0000_0000_0000   // size_t holds less than this

  /** A range of a leaf. */
  datatype Record = Record(leaf: Data, from: nat, length: nat)

  /** struct dispatch_data_s.  Leaves have no records and own `bytes`; composites list ranges of leaves.
      Only the cached contiguous copy of a composite and the reference count ever change. */
  class Data {
    const bytes: seq<Byte>
    const size: nat
    const records: seq<Record>
    var buf: Option<seq<Byte>>
    var refs: nat
    var destroyed: nat          // how often the buffer was given to its destructor

    constructor Leaf(bytes: seq<Byte>)
      ensures this.bytes == bytes && size == |bytes| && records == []
      ensures buf == None && refs == 1 && destroyed == 0
    {
      this.bytes, size, records := bytes, |bytes|, [];
      buf, refs, destroyed := None, 1, 0;
    }

    constructor Composite(size: nat, records: seq<Record>)
      ensures bytes == [] && this.size == size && this.records == records
      ensures buf == None && refs == 1 && destroyed == 0
    {
      bytes, this.size, this.records := [], size, records;
      buf, refs, destroyed := None, 1, 0;
    }
  }

  predicate IsLeaf(d: Data) { |d.records| == 0 }

  /** The record list that stands for an object inside another: its own, or itself as one range. */
  function Ranges(d: Data): seq<Record> {
    if IsLeaf(d) then [Record(d, 0, d.size)] else d.records
  }

  function RecordBytes(r: Record): seq<Byte> {
    if r.from + r.length <= |r.leaf.bytes| then r.leaf.bytes[r.from..r.from + r.length] else []
  }

  function Join(rs: seq<Record>): seq<Byte> {
    if rs == [] then [] else Join(rs[..|rs| - 1]) + RecordBytes(rs[|rs| - 1])
  }

  function Lengths(rs: seq<Record>): nat {
    if rs == [] then 0 else Lengths(rs[..|rs| - 1]) + rs[|rs| - 1].length
  }

  /** Where record i starts. */
  function Start(rs: seq<Record>, i: nat): nat
    requires i <= |rs|
  {
    Lengths(rs[..i])
  }

  /** The bytes an object stands for. */
  function Denote(d: Data): seq<Byte> { if IsLeaf(d) then d.bytes else Join(d.records) }

  /** Every record has positive length and lies inside its leaf. */
  predicate GoodRecord(r: Record) {
    IsLeaf(r.leaf) && r.leaf.size == |r.leaf.bytes| && 0 < r.length && r.from + r.length <= r.leaf.size
  }

  predicate GoodRecords(rs: seq<Record>) { forall i :: 0 <= i < |rs| ==> GoodRecord(rs[i]) }

  /** The invariant of data.c's header comment: a leaf with its buffer, or a list of ranges over leaves
      (depth 1, nothing ignored) whose lengths make up the size. */
  predicate Good(d: Data) {
    if IsLeaf(d) then 0 < d.size == |d.bytes| < WORD
    else |d.bytes| == 0 && GoodRecords(d.records) && d.size == Lengths(d.records) < WORD
  }

  // ---- joins --------------------------------------------------------------------------------

  lemma {:induction false} JoinLength(rs: seq<Record>)
    requires GoodRecords(rs)
    ensures |Join(rs)| == Lengths(rs) && |rs| <= Lengths(rs)
  {
    if rs != [] { JoinLength(rs[..|rs| - 1]); }
  }

  lemma {:induction false} JoinAppend(a: seq<Record>, b: seq<Record>)
    ensures Join(a + b) == Join(a) + Join(b) && Lengths(a + b) == Lengths(a) + Lengths(b)
  {
    hide RecordBytes;
    if b == [] {
      assert a + b == a;
    } else {
      var k := |b| - 1;
      var c := a + b;
      JoinAppend(a, b[..k]);
      assert c[..|c| - 1] == a + b[..k] && c[|c| - 1] == b[k];
      assert Join(c) == Join(a + b[..k]) + RecordBytes(b[k]);
      assert Join(a) + Join(b[..k]) + RecordBytes(b[k]) == Join(a) + (Join(b[..k]) + RecordBytes(b[k]));
    }
  }

  /** The size an object shows is the number of bytes it stands for. */
  lemma SizeIsLength(d: Data)
    requires Good(d)
    ensures |Denote(d)| == d.size && 0 < d.size && GoodRecords(Ranges(d))
    ensures Join(Ranges(d)) == Denote(d) && Lengths(Ranges(d)) == d.size
  {
    if IsLeaf(d) {
      assert Ranges(d)[..0] == [];
      assert d.bytes[0..d.size] == d.bytes;
    } else {
      JoinLength(d.records);
    }
  }

  /** A run of records stands for a run of bytes. */
  lemma JoinSlice(rs: seq<Record>, i: nat, j: nat)
    requires GoodRecords(rs) && i <= j <= |rs|
    ensures Start(rs, i) <= Start(rs, j) <= Lengths(rs) == |Join(rs)|
    ensures Join(rs[i..j]) == Join(rs)[Start(rs, i)..Start(rs, j)]
  {
    hide Join, Lengths, GoodRecord;
    JoinLength(rs);
    JoinLength(rs[..i]);
    JoinLength(rs[..j]);
    JoinAppend(rs[..i], rs[i..j]);
    JoinAppend(rs[..j], rs[j..]);
    assert rs[..i] + rs[i..j] == rs[..j] && rs[..j] + rs[j..] == rs;
    Middle(Join(rs[..i]), Join(rs[i..j]), Join(rs[j..]));
  }

  lemma Middle(a: seq<Byte>, b: seq<Byte>, c: seq<Byte>)
    ensures (a + b + c)[|a|..|a + b|] == b
  {}

  lemma StartNext(rs: seq<Record>, i: nat)
    requires i < |rs|
    ensures Start(rs, i + 1) == Start(rs, i) + rs[i].length
  {
    assert rs[..i + 1][..i] == rs[..i];
  }

  lemma StartEnds(rs: seq<Record>)
    ensures Start(rs, 0) == 0 && Start(rs, |rs|) == Lengths(rs)
  {
    assert rs[..|rs|] == rs;
  }

  function LaterBy(r: Record, n: nat): Record
    requires n <= r.length
  {
    r.(from := r.from + n, length := r.length - n)
  }

  /** Moving the start of the first record drops that many bytes. */
  lemma TrimFront(rs: seq<Record>, n: nat)
    requires GoodRecords(rs) && rs != [] && n < rs[0].length
    ensures GoodRecords(rs[0 := LaterBy(rs[0], n)])
    ensures n <= |Join(rs)| && Join(rs[0 := LaterBy(rs[0], n)]) == Join(rs)[n..]
  {
    hide Join, Lengths;
    var r := LaterBy(rs[0], n);
    JoinOne(rs[0]);
    JoinOne(r);
    JoinAppend([rs[0]], rs[1..]);
    JoinAppend([r], rs[1..]);
    assert [rs[0]] + rs[1..] == rs && [r] + rs[1..] == rs[0 := r];
    assert RecordBytes(r) == RecordBytes(rs[0])[n..];
  }

  lemma JoinOne(r: Record)
    ensures Join([r]) == RecordBytes(r) && Lengths([r]) == r.length
  {
    assert [r][..0] == [];
  }

  /** Shortening the last record drops bytes from the end. */
  lemma TrimBack(rs: seq<Record>, n: nat)
    requires GoodRecords(rs) && rs != [] && 0 < n <= rs[|rs| - 1].length
    ensures var k := |rs| - 1; GoodRecords(rs[k := rs[k].(length := n)])
    ensures Start(rs, |rs| - 1) + n <= |Join(rs)|
    ensures var k := |rs| - 1; Join(rs[k := rs[k].(length := n)]) == Join(rs)[..Start(rs, k) + n]
  {
    hide Join, Lengths;
    var k := |rs| - 1;
    var r := rs[k].(length := n);
    JoinLength(rs[..k]);
    JoinOne(rs[k]);
    JoinOne(r);
    JoinAppend(rs[..k], [rs[k]]);
    JoinAppend(rs[..k], [r]);
    assert rs[..k] + [rs[k]] == rs && rs[..k] + [r] == rs[k := r];
    assert RecordBytes(r) == RecordBytes(rs[k])[..n];
  }

  // ---- slices -------------------------------------------------------------------------------

  /** The bytes a subrange asks for, as far as they exist. */
  function Slice(b: seq<Byte>, offset: nat, length: nat): seq<Byte> {
    if offset >= |b| then []
    else if length > |b| - offset then b[offset..]
    else b[offset..offset + length]
  }

  lemma SliceOfSlice(b: seq<Byte>, lo: nat, hi: nat, x: nat, y: nat)
    requires lo <= hi <= |b| && x <= y <= hi - lo
    ensures b[lo..hi][x..y] == b[lo + x..lo + y]
  {
    var c, d := b[lo..hi][x..y], b[lo + x..lo + y];
    forall k | 0 <= k < y - x ensures c[k] == d[k] {
      assert b[lo..hi][x + k] == b[lo + x + k];
    }
  }

  /** Nested subranges compose. */
  lemma SlicesCompose(b: seq<Byte>, o: nat, l: nat, o2: nat, l2: nat)
    ensures Slice(Slice(b, o, l), o2, l2)
         == Slice(b, o + o2, if o2 >= l then 0 else if l2 < l - o2 then l2 else l - o2)
  {
    var c := Slice(b, o, l);
    if o < |b| && o2 < |c| {
      var m := if l2 > |c| - o2 then |c| else o2 + l2;
      SliceOfSlice(b, o, o + |c|, o2, m);
    }
  }

  lemma SplitRestores(b: seq<Byte>, k: nat)
    ensures Slice(b, 0, k) + Slice(b, k, |b|) == b
  {}

  /** size_t addition */
  function AddSizes(a: nat, b: nat): nat { (a + b) % WORD }

  /** A concatenation's size field is right if and only if the sum fits a size_t. */
  lemma ConcatSizeIsRightIffItFits(d1: Data, d2: Data)
    requires Good(d1) && Good(d2)
    ensures AddSizes(d1.size, d2.size) == Lengths(Ranges(d1) + Ranges(d2)) <==> d1.size + d2.size < WORD
  {
    hide Good, Ranges, Join, Lengths, AddSizes;
    SizeIsLength(d1);
    SizeIsLength(d2);
    JoinAppend(Ranges(d1), Ranges(d2));
    SumFits(d1.size, d2.size);
  }

  lemma SumFits(a: nat, b: nat)
    ensures AddSizes(a, b) == a + b <==> a + b < WORD
  {}
}
