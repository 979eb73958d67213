/** Addresses of continuations and bitmaps in a magazine, and back from an address to the indices. */
module AllocAddress {
  import opened Digits

  /** The layout of struct dispatch_magazine_s.  `w` is CONTINUATIONS_PER_BITMAP and BITMAPS_PER_SUPERMAP;
      the `...At` are offsets, `fp` is the first page. */
  datatype Geometry = Geometry(
    pageSize: nat, pages: nat, contSize: nat, bitmapBytes: nat, w: nat, perPage: nat, supermaps: nat,
    supermapsAt: nat, mapsAt: nat, fpMapsAt: nat, fpMaps: nat, fpContsAt: nat, fpConts: nat)

  function MagazineSize(g: Geometry): nat { Times(g.pages, g.pageSize) }

  /** BITMAPS_PER_MAGAZINE */
  function Maps(g: Geometry): nat { Times(g.supermaps, g.w) }

  /** The bytes of one page's bitmaps. */
  function GroupBytes(g: Geometry): nat { Times(g.perPage, g.bitmapBytes) }

  /** What the layout macros and static assertions guarantee. */
  ghost predicate Valid(g: Geometry) {
    && g.contSize > 0 && g.bitmapBytes > 0 && g.w == 8 * g.bitmapBytes && g.perPage > 0
    && g.pageSize == Times(Times(g.perPage, g.w), g.contSize)       // whole bitmaps to a page
    && Aligned(g.pageSize, GroupBytes(g)) && Aligned(g.mapsAt, GroupBytes(g))
    && g.supermapsAt + Times(g.supermaps, g.bitmapBytes) <= g.mapsAt
    && g.mapsAt + Times(Maps(g), g.bitmapBytes) <= g.fpMapsAt
    && g.fpMapsAt + Times(g.fpMaps, g.bitmapBytes) <= g.fpContsAt
    && g.fpContsAt + Times(g.fpConts, g.contSize) == g.pageSize
    && g.fpConts <= Times(g.fpMaps, g.w)
    && g.pageSize + Times(Times(Maps(g), g.w), g.contSize) <= MagazineSize(g)
  }

  /** The layout of a 64-bit phone: 16 KiB pages, 64-byte continuations. */
  lemma PhoneLayoutIsValid(g: Geometry)
    requires g.pageSize == 16384 && g.pages == 64 && g.contSize == 64 && g.bitmapBytes == 8 && g.w == 64
    requires g.perPage == 4 && g.supermaps == 3 && g.supermapsAt == 16 && g.mapsAt == 64
    requires g.fpMapsAt == 1600 && g.fpMaps == 4 && g.fpContsAt == 1664 && g.fpConts == 230
    ensures Valid(g)
  {
    assert g.pageSize == Times(512, GroupBytes(g)) && g.mapsAt == Times(2, GroupBytes(g));
  }

  ghost predicate IsMagazine(g: Geometry, m: nat) { Aligned(m, MagazineSize(g)) }

  function SupermapAddress(g: Geometry, m: nat, s: nat): nat { m + g.supermapsAt + Times(s, g.bitmapBytes) }

  function BitmapAddress(g: Geometry, m: nat, s: nat, b: nat): nat {
    m + g.mapsAt + Times(Push(s, g.w, b), g.bitmapBytes)
  }

  function ContinuationAddress(g: Geometry, m: nat, s: nat, b: nat, i: nat): nat {
    m + g.pageSize + Times(Push(Push(s, g.w, b), g.w, i), g.contSize)
  }

  function FirstPageAddress(g: Geometry, m: nat, n: nat): nat { m + g.fpContsAt + Times(n, g.contSize) }

  // ---- from an address to the indices -------------------------------------------------------

  datatype Place = FirstPage(bitmap: nat, index: nat) | Main(super: nat, bitmap: nat, index: nat)

  function MagazineFor(g: Geometry, address: nat): nat
    requires MagazineSize(g) > 0
  {
    Mask(address, MagazineSize(g))
  }

  predicate InFirstPage(g: Geometry, c: nat)
    requires MagazineSize(g) > 0 && g.pageSize > 0
  {
    MagazineFor(g, c) == Mask(c, g.pageSize)
  }

  /** Which element an address is of an array that starts at `base`. */
  function ElementOf(address: nat, base: nat, size: nat): nat
    requires size > 0
  {
    if address < base then 0 else High(address - base, size)
  }

  /** get_maps_and_indices_for_continuation */
  function PlaceOf(g: Geometry, c: nat): Place
    requires MagazineSize(g) > 0 && g.pageSize > 0 && g.contSize > 0 && g.w > 0 && Times(g.w, g.w) > 0
  {
    var m := MagazineFor(g, c);
    if InFirstPage(g, c) then
      var n := ElementOf(c, m + g.fpContsAt, g.contSize);
      FirstPage(High(n, g.w), Low(n, g.w))
    else
      var n := ElementOf(c, m + g.pageSize, g.contSize);
      Main(High(n, Times(g.w, g.w)), Low(High(n, g.w), g.w), Low(n, g.w))
  }

  /** get_cont_and_indices_for_bitmap_and_index: the bitmap's magazine, supermap index and map index. */
  function BitmapPlace(g: Geometry, bitmap: nat): (nat, nat, nat)
    requires MagazineSize(g) > 0 && g.bitmapBytes > 0 && g.w > 0
  {
    var m := MagazineFor(g, bitmap);
    var n := ElementOf(bitmap, m + g.mapsAt, g.bitmapBytes);
    (m, High(n, g.w), Low(n, g.w))
  }

  function FirstBitmapInSamePage(g: Geometry, bitmap: nat): nat
    requires GroupBytes(g) > 0
  {
    Mask(bitmap, GroupBytes(g))
  }

  // ---- the lemmas ---------------------------------------------------------------------------

  lemma Positive(a: nat, b: nat)
    requires a > 0 && b > 0
    ensures Times(a, b) > 0
  {}

  lemma Sizes(g: Geometry)
    requires Valid(g)
    ensures g.w > 0 && Times(g.w, g.w) > 0 && GroupBytes(g) > 0 && g.pageSize > 0 && g.pageSize <= MagazineSize(g)
  {
    hide Times;
    Positive(g.w, g.w);
    Positive(g.perPage, g.bitmapBytes);
    Positive(g.perPage, g.w);
    Positive(Times(g.perPage, g.w), g.contSize);
  }

  lemma ElementAt(base: nat, size: nat, n: nat)
    requires size > 0
    ensures ElementOf(base + Times(n, size), base, size) == n
  {
    PopPush(n, size, 0);
  }

  lemma MagazineOf(g: Geometry, m: nat, off: nat)
    requires Valid(g) && IsMagazine(g, m) && off < MagazineSize(g)
    ensures MagazineFor(g, m + off) == m
  {
    hide Times, High;
    MaskOfSum(m, MagazineSize(g), off);
  }

  lemma PageOf(g: Geometry, m: nat, off: nat)
    requires Valid(g) && IsMagazine(g, m)
    ensures g.pageSize > 0 && Aligned(m, g.pageSize) && Mask(m + off, g.pageSize) == m + Mask(off, g.pageSize)
  {
    hide Times, High;
    Sizes(g);
    assert Aligned(MagazineSize(g), g.pageSize);
    AlignedTransitive(m, MagazineSize(g), g.pageSize);
    MaskOfSum(m, g.pageSize, off);
  }

  /** Slot n of the main array, from its page on. */
  lemma SlotOffset(g: Geometry, n: nat)
    requires Valid(g) && g.w > 0 && n < Times(Maps(g), g.w)
    ensures g.pageSize + Times(n, g.contSize) + g.contSize <= MagazineSize(g)
    ensures g.pageSize > 0 && Mask(g.pageSize + Times(n, g.contSize), g.pageSize)
         == g.pageSize + Times(High(High(n, g.w), g.perPage), g.pageSize)
  {
    hide Times, High, Low, Push, Mask;
    Sizes(g);
    var k := Times(g.perPage, g.w);
    Positive(g.perPage, g.w);
    var q, r := High(n, k), Low(n, k);
    PushPop(n, k);
    TimesPush(q, k, r, g.contSize);
    HighHigh(n, g.w, g.perPage);
    PushBelow(r, k, g.contSize, 0);
    PushIsTimes(r, g.contSize);
    AlignedTimes(q, g.pageSize);
    AlignedTimes(1, g.pageSize);
    TimesOne(g.pageSize);
    AlignedSum(g.pageSize, Times(q, g.pageSize), g.pageSize);
    MaskOfSum(g.pageSize + Times(q, g.pageSize), g.pageSize, Times(r, g.contSize));
    NextFits(n, Times(Maps(g), g.w), g.contSize);
  }

  lemma NextFits(n: nat, count: nat, size: nat)
    requires n < count
    ensures Times(n, size) + size <= Times(count, size)
  {
    TimesMonotone(n + 1, count, size);
  }

  lemma PushIsTimes(x: nat, r: nat)
    ensures Push(x, r, 0) == Times(x, r)
  {}

  lemma AlignedTimes(k: nat, n: nat)
    ensures Aligned(Times(k, n), n)
  {}

  lemma TimesOne(n: nat)
    ensures Times(1, n) == n
  {}

  lemma InRange(g: Geometry, s: nat, b: nat, i: nat)
    requires s < g.supermaps && b < g.w && i < g.w
    ensures Push(s, g.w, b) < Maps(g) && Push(Push(s, g.w, b), g.w, i) < Times(Maps(g), g.w)
  {
    hide Times, Push;
    PushBelow(s, g.supermaps, g.w, b);
    PushBelow(Push(s, g.w, b), Maps(g), g.w, i);
  }

  /** From the indices to the address and back. */
  lemma PlaceOfContinuation(g: Geometry, m: nat, s: nat, b: nat, i: nat)
    requires Valid(g) && IsMagazine(g, m) && s < g.supermaps && b < g.w && i < g.w
    ensures MagazineSize(g) > 0 && g.pageSize > 0 && g.w > 0 && Times(g.w, g.w) > 0
    ensures var c := ContinuationAddress(g, m, s, b, i);
            MagazineFor(g, c) == m && PlaceOf(g, c) == Main(s, b, i)
  {
    hide Times, High, Low, Push, Mask, Aligned, ElementOf;
    Sizes(g);
    InRange(g, s, b, i);
    var n := Push(Push(s, g.w, b), g.w, i);
    var off := g.pageSize + Times(n, g.contSize);
    SlotOffset(g, n);
    MagazineOf(g, m, off);
    PageOf(g, m, off);
    ElementAt(m + g.pageSize, g.contSize, n);
    HighHigh(n, g.w, g.w);
    PopPush(Push(s, g.w, b), g.w, i);
    PopPush(s, g.w, b);
  }

  /** Likewise in the first page; so no address lies in both regions. */
  lemma PlaceOfFirstPage(g: Geometry, m: nat, n: nat)
    requires Valid(g) && IsMagazine(g, m) && n < g.fpConts
    ensures MagazineSize(g) > 0 && g.pageSize > 0 && g.w > 0 && Times(g.w, g.w) > 0
    ensures var c := FirstPageAddress(g, m, n);
            MagazineFor(g, c) == m && PlaceOf(g, c) == FirstPage(High(n, g.w), Low(n, g.w))
    ensures High(n, g.w) < g.fpMaps && Push(High(n, g.w), g.w, Low(n, g.w)) == n
    ensures FirstPageAddress(g, m, n) + g.contSize <= m + g.pageSize
  {
    hide Times, High, Low, Push, Mask, Aligned, ElementOf;
    Sizes(g);
    NextFits(n, g.fpConts, g.contSize);
    var off := g.fpContsAt + Times(n, g.contSize);
    MagazineOf(g, m, off);
    PageOf(g, m, off);
    ZeroAligned(g.pageSize);
    MaskOfSum(0, g.pageSize, off);
    ElementAt(m + g.fpContsAt, g.contSize, n);
    PushPop(n, g.w);
    HighBelow(n, g.fpMaps, g.w);
  }

  lemma ZeroAligned(n: nat)
    ensures Aligned(0, n)
  {
    assert Times(0, n) == 0;
  }

  /** Every element of the main array has indices in range, and they lead back to it. */
  lemma ContinuationOfPlace(g: Geometry, m: nat, n: nat) returns (s: nat, b: nat, i: nat)
    requires Valid(g) && IsMagazine(g, m) && g.w > 0 && n < Times(Maps(g), g.w)
    ensures s < g.supermaps && b < g.w && i < g.w
    ensures ContinuationAddress(g, m, s, b, i) == m + g.pageSize + Times(n, g.contSize)
  {
    hide Times, High, Low, Push, Aligned;
    s, b, i := High(High(n, g.w), g.w), Low(High(n, g.w), g.w), Low(n, g.w);
    HighBelow(n, Maps(g), g.w);
    HighBelow(High(n, g.w), g.supermaps, g.w);
    PushPop(High(n, g.w), g.w);
    PushPop(n, g.w);
  }

  /** The arrays of the magazine: each starts where the layout says, and its elements follow one another, the
      continuations of one bitmap, then those of the next, then those of the next supermap. */
  lemma ElementsFollowOneAnother(g: Geometry, m: nat, s: nat, b: nat, i: nat)
    requires g.w > 0
    ensures ContinuationAddress(g, m, 0, 0, 0) == m + g.pageSize && BitmapAddress(g, m, 0, 0) == m + g.mapsAt
    ensures SupermapAddress(g, m, 0) == m + g.supermapsAt && FirstPageAddress(g, m, 0) == m + g.fpContsAt
    ensures ContinuationAddress(g, m, s, b, i + 1) == ContinuationAddress(g, m, s, b, i) + g.contSize
    ensures ContinuationAddress(g, m, s, b + 1, 0) == ContinuationAddress(g, m, s, b, g.w - 1) + g.contSize
    ensures ContinuationAddress(g, m, s + 1, 0, 0) == ContinuationAddress(g, m, s, g.w - 1, g.w - 1) + g.contSize
    ensures BitmapAddress(g, m, s, b + 1) == BitmapAddress(g, m, s, b) + g.bitmapBytes
    ensures BitmapAddress(g, m, s + 1, 0) == BitmapAddress(g, m, s, g.w - 1) + g.bitmapBytes
    ensures SupermapAddress(g, m, s + 1) == SupermapAddress(g, m, s) + g.bitmapBytes
    ensures FirstPageAddress(g, m, i + 1) == FirstPageAddress(g, m, i) + g.contSize
  {
    hide Times, Push;
    var w := g.w;
    PushNext(s, w, b);
    PushNext(Push(s, w, b), w, i);
    PushNext(Push(s, w, w - 1), w, 0);
    NextElement(Push(Push(s, w, b), w, i), g.contSize);
    NextElement(Push(Push(s, w, b), w, w - 1), g.contSize);
    NextElement(Push(Push(s, w, w - 1), w, w - 1), g.contSize);
    NextElement(Push(s, w, b), g.bitmapBytes);
    NextElement(Push(s, w, w - 1), g.bitmapBytes);
    NextElement(s, g.bitmapBytes);
    NextElement(i, g.contSize);
  }

  lemma PushNext(x: nat, w: nat, d: nat)
    requires w > 0
    ensures Push(0, w, 0) == 0 && Push(x, w, d + 1) == Push(x, w, d) + 1
    ensures Push(x + 1, w, 0) == Push(x, w, w - 1) + 1
  {}

  lemma NextElement(n: nat, size: nat)
    ensures Times(0, size) == 0 && Times(n + 1, size) == Times(n, size) + size
  {}

  /** Slots do not overlap. */
  lemma SlotsAreDisjoint(g: Geometry, m: nat, s: nat, b: nat, i: nat, s': nat, b': nat, i': nat)
    requires Valid(g) && IsMagazine(g, m) && s < g.supermaps && b < g.w && i < g.w
    requires s' < g.supermaps && b' < g.w && i' < g.w && (s, b, i) != (s', b', i')
    ensures var c, d := ContinuationAddress(g, m, s, b, i), ContinuationAddress(g, m, s', b', i');
            c + g.contSize <= d || d + g.contSize <= c
  {
    hide Times, High, Low, Push, Aligned, Mask, ElementOf;
    PlaceOfContinuation(g, m, s, b, i);
    PlaceOfContinuation(g, m, s', b', i');
    var n, n' := Push(Push(s, g.w, b), g.w, i), Push(Push(s', g.w, b'), g.w, i');
    if n < n' { NextFits(n, n', g.contSize); }
    if n' < n { NextFits(n', n, g.contSize); }
  }

  /** Supermaps, bitmaps, the first page's continuations and the others lie one after the other, so that no
      continuation overlaps what says whether it is free; and supermaps do not overlap each other. */
  lemma BookkeepingIsApart(g: Geometry, m: nat, s: nat, s': nat, b': nat, n: nat, i: nat)
    requires Valid(g) && s < g.supermaps && s' < g.supermaps && b' < g.w && i < g.w && n < g.fpConts
    ensures SupermapAddress(g, m, s) + g.bitmapBytes <= BitmapAddress(g, m, s', b')
    ensures BitmapAddress(g, m, s', b') + g.bitmapBytes <= FirstPageAddress(g, m, n)
    ensures FirstPageAddress(g, m, n) + g.contSize <= ContinuationAddress(g, m, s', b', i)
    ensures s < s' ==> SupermapAddress(g, m, s) + g.bitmapBytes <= SupermapAddress(g, m, s')
  {
    hide Times, High, Low, Push, Aligned;
    InRange(g, s', b', i);
    NextFits(s, g.supermaps, g.bitmapBytes);
    NextFits(Push(s', g.w, b'), Maps(g), g.bitmapBytes);
    NextFits(n, g.fpConts, g.contSize);
    if s < s' { NextFits(s, s', g.bitmapBytes); }
  }

  /** From a bitmap's address back to its indices, and so to its continuations and its supermap bit. */
  lemma PlaceOfBitmap(g: Geometry, m: nat, s: nat, b: nat)
    requires Valid(g) && IsMagazine(g, m) && s < g.supermaps && b < g.w
    ensures MagazineSize(g) > 0 && g.w > 0 && BitmapPlace(g, BitmapAddress(g, m, s, b)) == (m, s, b)
  {
    hide Times, High, Low, Push, Mask, Aligned, ElementOf;
    Sizes(g);
    InRange(g, s, b, 0);
    var n := Push(s, g.w, b);
    NextFits(n, Maps(g), g.bitmapBytes);
    MagazineOf(g, m, g.mapsAt + Times(n, g.bitmapBytes));
    ElementAt(m + g.mapsAt, g.bitmapBytes, n);
    PopPush(s, g.w, b);
  }

  /** The number of the page, among those of the main array, that bitmap n controls slots of. */
  function PageNumber(g: Geometry, n: nat): nat
    requires g.perPage > 0
  {
    High(n, g.perPage)
  }

  lemma PageOfContinuation(g: Geometry, m: nat, s: nat, b: nat, i: nat)
    requires Valid(g) && IsMagazine(g, m) && s < g.supermaps && b < g.w && i < g.w
    ensures g.pageSize > 0 && Mask(ContinuationAddress(g, m, s, b, i), g.pageSize)
         == m + g.pageSize + Times(PageNumber(g, Push(s, g.w, b)), g.pageSize)
  {
    hide Times, High, Low, Push, Mask, Aligned;
    Sizes(g);
    InRange(g, s, b, i);
    var n := Push(Push(s, g.w, b), g.w, i);
    SlotOffset(g, n);
    PageOf(g, m, g.pageSize + Times(n, g.contSize));
    PopPush(Push(s, g.w, b), g.w, i);
  }

  lemma FirstBitmapOf(g: Geometry, m: nat, n: nat)
    requires Valid(g) && IsMagazine(g, m)
    ensures GroupBytes(g) > 0 && FirstBitmapInSamePage(g, m + g.mapsAt + Times(n, g.bitmapBytes))
         == m + g.mapsAt + Times(PageNumber(g, n), GroupBytes(g))
  {
    hide Times, High, Low, Push, Mask, Aligned;
    Sizes(g);
    var q, r := High(n, g.perPage), Low(n, g.perPage);
    PageOf(g, m, 0);
    AlignedTransitive(m, g.pageSize, GroupBytes(g));
    AlignedSum(m, g.mapsAt, GroupBytes(g));
    AlignedTimes(q, GroupBytes(g));
    AlignedSum(m + g.mapsAt, Times(q, GroupBytes(g)), GroupBytes(g));
    PushPop(n, g.perPage);
    TimesPush(q, g.perPage, r, g.bitmapBytes);
    NextFits(r, g.perPage, g.bitmapBytes);
    MaskOfSum(m + g.mapsAt + Times(q, GroupBytes(g)), GroupBytes(g), Times(r, g.bitmapBytes));
  }

  lemma TimesInjective(a: nat, b: nat, n: nat)
    requires n > 0
    ensures Times(a, n) == Times(b, n) <==> a == b
  {
    if a < b { NextFits(a, b, n); }
    if b < a { NextFits(b, a, n); }
  }

  /** Two slots share a page exactly if their bitmaps share the first bitmap of the page. */
  lemma PagesMatchBitmaps(g: Geometry, m: nat, s: nat, b: nat, i: nat, s': nat, b': nat, i': nat)
    requires Valid(g) && IsMagazine(g, m) && s < g.supermaps && b < g.w && i < g.w
    requires s' < g.supermaps && b' < g.w && i' < g.w
    ensures g.pageSize > 0 && GroupBytes(g) > 0
    ensures Mask(ContinuationAddress(g, m, s, b, i), g.pageSize)
         == Mask(ContinuationAddress(g, m, s', b', i'), g.pageSize)
       <==> FirstBitmapInSamePage(g, BitmapAddress(g, m, s, b)) == FirstBitmapInSamePage(g, BitmapAddress(g, m, s', b'))
  {
    hide Times, High, Low, Push, Mask, Aligned, FirstBitmapInSamePage;
    Sizes(g);
    PageOfContinuation(g, m, s, b, i);
    PageOfContinuation(g, m, s', b', i');
    var n, n' := Push(s, g.w, b), Push(s', g.w, b');
    FirstBitmapOf(g, m, n);
    FirstBitmapOf(g, m, n');
    TimesInjective(PageNumber(g, n), PageNumber(g, n'), g.pageSize);
    TimesInjective(PageNumber(g, n), PageNumber(g, n'), GroupBytes(g));
  }

  /** The bitmaps that a page's base address leads to, when it is to be advised, are those of the page. */
  lemma PageBaseLeadsToItsBitmaps(g: Geometry, m: nat, s: nat, b: nat, i: nat)
    requires Valid(g) && IsMagazine(g, m) && s < g.supermaps && b < g.w && i < g.w
    ensures MagazineSize(g) > 0 && g.pageSize > 0 && g.w > 0 && Times(g.w, g.w) > 0 && GroupBytes(g) > 0
    ensures var p := PlaceOf(g, Mask(ContinuationAddress(g, m, s, b, i), g.pageSize));
            p.Main? && p.index == 0 && p.super < g.supermaps && p.bitmap < g.w
            && BitmapAddress(g, m, p.super, p.bitmap) == FirstBitmapInSamePage(g, BitmapAddress(g, m, s, b))
  {
    hide Times, High, Low, Push, Mask, Aligned, ElementOf, FirstBitmapInSamePage, PlaceOf;
    Sizes(g);
    PageOfContinuation(g, m, s, b, i);
    var n := Push(s, g.w, b);
    var q := PageNumber(g, n);
    var first := Times(q, g.perPage);
    FirstBitmapOf(g, m, n);
    TimesAssociates(q, g.perPage, g.bitmapBytes);
    InRange(g, s, b, i);
    PushPop(n, g.perPage);
    PushIsTimes(q, g.perPage);
    FirstIsBelow(q, g.perPage, Low(n, g.perPage));
    var sq, bq := High(first, g.w), Low(first, g.w);
    PushPop(first, g.w);
    HighBelow(first, g.supermaps, g.w);
    PlaceOfContinuation(g, m, sq, bq, 0);
    PushIsTimes(first, g.w);
    TimesAssociates(q, g.perPage, g.w);
    TimesAssociates(q, Times(g.perPage, g.w), g.contSize);
  }

  lemma FirstIsBelow(q: nat, r: nat, d: nat)
    ensures Times(q, r) <= Push(q, r, d)
  {}
}
