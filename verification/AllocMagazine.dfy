/** One magazine used by one thread at a time: searching through the supermaps is as good as searching
    through all slots. */
module AllocMagazine {
  import opened AllocProtocol
  import opened AllocAddress
  import opened Digits
  import opened Options

  /** All bits of all bitmaps of a row set. */
  predicate RowFull(row: seq<set<nat>>, w: nat) { forall b :: 0 <= b < |row| ==> row[b] == Full(w) }

  predicate FullBetween(row: seq<set<nat>>, lo: nat, hi: nat, w: nat)
    requires hi <= |row|
  {
    forall b :: lo <= b < hi ==> row[b] == Full(w)
  }

  predicate RowGood(row: seq<set<nat>>, w: nat) { |row| == w && forall b :: 0 <= b < w ==> row[b] <= Full(w) }

  /** A supermap bit for every full bitmap of its row, and no other. */
  ghost predicate Exact(super: set<nat>, row: seq<set<nat>>, w: nat) {
    forall b: nat :: b in super <==> b < |row| && row[b] == Full(w)
  }

  /** bitmap_set_first_unset_bit_upto_index: which bit, if any is unset below `limit`. */
  method FindUnset(bits: set<nat>, w: nat, limit: nat) returns (index: Option<nat>)
    requires bits <= Full(w) && limit <= w
    ensures index.Some? ==> index.value < limit && FirstUnset(bits, w, index.value)
    ensures index.None? ==> Full(limit) <= bits
  {
    var k := 0;
    while k < limit
      invariant k <= limit && forall j: nat :: j < k ==> j in bits
    {
      if k !in bits {
        return Some(k);
      }
      k := k + 1;
    }
    index := None;
  }

  class Magazine {
    const w: nat                        // bits per bitmap, bitmaps per supermap
    const perPage: nat
    const fullMaps: nat                 // of the first page's bitmaps, those used whole
    const remainder: nat                // and how many bits of one more
    var supers: seq<set<nat>>
    var maps: seq<seq<set<nat>>>
    var fpMaps: seq<set<nat>>
    var last: Option<(nat, nat)>        // last_found_page: supermap and first bitmap
    var advised: seq<(nat, nat)>        // the pages given back to the system, named likewise

    function Limit(i: nat): nat { if i < fullMaps then w else remainder }

    ghost predicate Valid()
      reads this
    {
      && 0 < perPage <= w && Aligned(w, perPage) && remainder < w
      && |supers| == |maps|
      && (forall s :: 0 <= s < |maps| ==> RowGood(maps[s], w) && Exact(supers[s], maps[s], w))
      && |fpMaps| == fullMaps + (if remainder == 0 then 0 else 1)
      && (forall i :: 0 <= i < |fpMaps| ==> fpMaps[i] <= Full(Limit(i)))
      && (last.Some? ==> last.value.0 < |maps| && last.value.1 + perPage <= w)
    }

    predicate IsPlace(p: Place)
      reads this
    {
      match p
      case Main(s, b, i) => s < |maps| && b < |maps[s]| && i < w
      case FirstPage(b, i) => b < |fpMaps| && i < Limit(b)
    }

    predicate IsLive(p: Place)
      requires IsPlace(p)
      reads this
    {
      match p
      case Main(s, b, i) => i in maps[s][b]
      case FirstPage(b, i) => i in fpMaps[b]
    }

    ghost predicate AllLive()
      reads this
    {
      forall p :: IsPlace(p) ==> IsLive(p)
    }

    /** Everything as in `maps0` and `fp0`, with the slot's bit set. */
    ghost predicate Added(maps0: seq<seq<set<nat>>>, fp0: seq<set<nat>>, p: Place)
      reads this
    {
      match p
      case Main(s, b, i) =>
        s < |maps0| && b < |maps0[s]| && i !in maps0[s][b] && fpMaps == fp0
        && maps == maps0[s := maps0[s][b := maps0[s][b] + {i}]]
      case FirstPage(b, i) =>
        b < |fp0| && i !in fp0[b] && maps == maps0 && fpMaps == fp0[b := fp0[b] + {i}]
    }

    constructor (w: nat, perPage: nat, supermaps: nat, fullMaps: nat, remainder: nat)
      requires 0 < perPage <= w && Aligned(w, perPage) && remainder < w
      ensures Valid() && forall p :: IsPlace(p) ==> !IsLive(p)
    {
      this.w, this.perPage, this.fullMaps, this.remainder := w, perPage, fullMaps, remainder;
      supers := seq(supermaps, _ => {});
      maps := seq(supermaps, _ => seq(w, _ => {}));
      fpMaps := seq(fullMaps + (if remainder == 0 then 0 else 1), _ => {});
      last, advised := None, [];
    }

    /** Sets the first unset bit of a bitmap of the main array, and its supermap bit if that filled it. */
    method TakeFrom(s: nat, b: nat) returns (slot: Option<Place>)
      requires Valid() && s < |maps| && b < w
      modifies this`maps, this`supers
      ensures Valid() && |maps| == old(|maps|)
      ensures slot.None? ==> maps == old(maps) && supers == old(supers) && maps[s][b] == Full(w)
      ensures slot.Some? ==> slot.value.Main? && slot.value.super == s && slot.value.bitmap == b
      ensures slot.Some? ==> FirstUnset(old(maps)[s][b], w, slot.value.index) && Added(old(maps), fpMaps, slot.value)
    {
      var index := FindUnset(maps[s][b], w, w);
      if index.None? {
        return None;
      }
      var row := maps[s][b := maps[s][b] + {index.value}];
      ghost var was := maps[s];
      maps := maps[s := row];
      if row[b] == Full(w) {
        supers := supers[s := supers[s] + {b}];
      }
      slot := Some(Main(s, b, index.value));
    }

    /** The first slot of the first page that is not live in `fp`. */
    ghost predicate FirstFree(fp: seq<set<nat>>, b: nat, i: nat) {
      && b < |fp| && FirstUnset(fp[b], w, i)
      && forall a :: 0 <= a < b ==> fp[a] == Full(Limit(a))
    }

    method AllocFromFirstPage() returns (slot: Option<Place>)
      requires Valid()
      modifies this`fpMaps
      ensures Valid() && |fpMaps| == old(|fpMaps|)
      ensures slot.None? ==> fpMaps == old(fpMaps) && !FirstPageHasRoom(fpMaps)
      ensures slot.Some? ==> slot.value.FirstPage? && slot.value.index < Limit(slot.value.bitmap)
      ensures slot.Some? ==> Added(maps, old(fpMaps), slot.value)
      ensures slot.Some? ==> FirstFree(old(fpMaps), slot.value.bitmap, slot.value.index)
    {
      var i := 0;
      while i < fullMaps
        invariant i <= fullMaps && fpMaps == old(fpMaps)
        invariant forall b :: 0 <= b < i ==> fpMaps[b] == Full(Limit(b))
      {
        var index := FindUnset(fpMaps[i], w, w);
        if index.Some? {
          fpMaps := fpMaps[i := fpMaps[i] + {index.value}];
          return Some(FirstPage(i, index.value));
        }
        i := i + 1;
      }
      if remainder != 0 {
        var index := FindUnset(fpMaps[i], w, remainder);
        if index.Some? {
          fpMaps := fpMaps[i := fpMaps[i] + {index.value}];
          return Some(FirstPage(i, index.value));
        }
      }
      slot := None;
    }

    /** The page of a slot of the main array, as last_found_page names it. */
    function PageOf(p: Place): Option<(nat, nat)>
      requires p.Main? && perPage > 0
    {
      Some((p.super, Mask(p.bitmap, perPage)))
    }

    method AllocFromRow(s: nat) returns (slot: Option<Place>)
      requires Valid() && s < |maps|
      modifies this`maps, this`supers, this`last
      ensures Valid() && |maps| == old(|maps|)
      ensures slot.None? ==> maps == old(maps) && RowFull(maps[s], w)
      ensures slot.Some? ==> slot.value.Main? && slot.value.super == s && Added(old(maps), fpMaps, slot.value)
      ensures slot.Some? ==> FirstUnset(old(maps)[s][slot.value.bitmap], w, slot.value.index)
      ensures slot.Some? ==> RowFull(old(maps)[s][..slot.value.bitmap], w)
      ensures last == if slot.Some? then PageOf(slot.value) else old(last)
    {
      var b := 0;
      while b < w
        invariant b <= w && Valid() && maps == old(maps) && RowFull(maps[s][..b], w) && last == old(last)
      {
        slot := TakeFrom(s, b);
        if slot.Some? {
          InsidePage(b, perPage, w);
          last := PageOf(slot.value);
          return;
        }
        b := b + 1;
      }
      assert maps[s][..w] == maps[s];
      slot := None;
    }

    /** Skips bitmaps whose supermap says all of them are full, and finds the very slot a scan of all of
        them would find. */
    method AllocFromMagazine() returns (slot: Option<Place>)
      requires Valid()
      modifies this`maps, this`supers, this`last
      ensures Valid() && |maps| == old(|maps|)
      ensures slot.None? ==> maps == old(maps) && forall s :: 0 <= s < |maps| ==> RowFull(maps[s], w)
      ensures slot.Some? ==> slot.value.Main? && Added(old(maps), fpMaps, slot.value) && slot.value.index < w
      ensures slot.Some? ==> FoundInMain(old(maps), slot.value.super, slot.value.bitmap, slot.value.index)
      ensures last == if slot.Some? then PageOf(slot.value) else old(last)
    {
      var s := 0;
      while s < |maps|
        invariant s <= |maps| && Valid() && maps == old(maps) && last == old(last)
        invariant forall r :: 0 <= r < s ==> RowFull(maps[r], w)
      {
        assert RowGood(maps[s], w) && Exact(supers[s], maps[s], w);
        if supers[s] == Full(w) {
          s := s + 1;
          continue;
        }
        slot := AllocFromRow(s);
        if slot.Some? {
          return;
        }
        s := s + 1;
      }
      slot := None;
    }

    /** The first slot of the page's bitmaps, from `first` on, that is not live. */
    ghost predicate FoundInPage(row: seq<set<nat>>, first: nat, b: nat, i: nat) {
      && first <= b < |row| && b < first + perPage && FullBetween(row, first, b, w) && FirstUnset(row[b], w, i)
    }

    method AllocFromPage(s: nat, first: nat) returns (slot: Option<Place>)
      requires Valid() && s < |maps| && first + perPage <= w
      modifies this`maps, this`supers
      ensures Valid() && |maps| == old(|maps|)
      ensures slot.None? ==> maps == old(maps) && FullBetween(maps[s], first, first + perPage, w)
      ensures slot.Some? ==> slot.value.Main? && slot.value.super == s && Added(old(maps), fpMaps, slot.value)
      ensures slot.Some? ==> slot.value.index < w
      ensures slot.Some? ==> FoundInPage(old(maps)[s], first, slot.value.bitmap, slot.value.index)
    {
      var i := 0;
      while i < perPage
        invariant i <= perPage && Valid() && maps == old(maps) && FullBetween(maps[s], first, first + i, w)
      {
        slot := TakeFrom(s, first + i);
        if slot.Some? {
          return;
        }
        i := i + 1;
      }
      slot := None;
    }

    /** The page last used has a slot that is not live. */
    ghost predicate LastHasRoom(last: Option<(nat, nat)>, maps: seq<seq<set<nat>>>) {
      last.Some? && last.value.0 < |maps| && last.value.1 + perPage <= |maps[last.value.0]|
      && !FullBetween(maps[last.value.0], last.value.1, last.value.1 + perPage, w)
    }

    ghost predicate FirstPageHasRoom(fp: seq<set<nat>>) {
      exists b :: 0 <= b < |fp| && fp[b] != Full(Limit(b))
    }

    /** The first slot that is not live: of the page last used if that has any, else of the first page if
        that has any, else of the main array. */
    ghost predicate FoundInOrder(last: Option<(nat, nat)>, maps: seq<seq<set<nat>>>, fp: seq<set<nat>>, p: Place) {
      match p
      case FirstPage(b, i) => !LastHasRoom(last, maps) && FirstFree(fp, b, i)
      case Main(s, b, i) =>
        if LastHasRoom(last, maps) then s == last.value.0 && FoundInPage(maps[s], last.value.1, b, i)
        else !FirstPageHasRoom(fp) && FoundInMain(maps, s, b, i)
    }

    ghost predicate FoundInMain(maps: seq<seq<set<nat>>>, s: nat, b: nat, i: nat) {
      && s < |maps| && b < |maps[s]| && (forall r :: 0 <= r < s ==> RowFull(maps[r], w))
      && RowFull(maps[s][..b], w) && FirstUnset(maps[s][b], w, i)
    }

    /** _dispatch_alloc_continuation_alloc, on one processor's magazine: first the page that last had a free
        slot, then the first page, then all of them. */
    method Alloc() returns (slot: Option<Place>)
      requires Valid()
      modifies this`maps, this`supers, this`fpMaps, this`last
      ensures Valid() && |maps| == old(|maps|) && |fpMaps| == old(|fpMaps|)
      ensures slot.None? ==> maps == old(maps) && fpMaps == old(fpMaps)
      ensures slot.None? <==> old(AllLive())
      ensures slot.Some? ==> old(IsPlace(slot.value)) && Added(old(maps), old(fpMaps), slot.value)
      ensures slot.Some? ==> FoundInOrder(old(last), old(maps), old(fpMaps), slot.value)
      ensures last == if slot.Some? && slot.value.Main? && !LastHasRoom(old(last), old(maps)) then PageOf(slot.value)
                      else old(last)
    {
      hide FoundInPage, FoundInMain, FirstFree, FirstPageHasRoom, Added, FullBetween, AllLive, IsPlace;
      if last.Some? {
        slot := AllocFromPage(last.value.0, last.value.1);
        if slot.Some? {
          TakenWasFree(slot.value);
          RoomInPage(old(maps)[last.value.0], last.value.1, slot.value.bitmap, slot.value.index);
          return;
        }
      }
      slot := AllocFromFirstPage();
      if slot.Some? {
        TakenWasFree(slot.value);
        return;
      }
      slot := AllocFromMagazine();
      if slot.Some? {
        TakenWasFree(slot.value);
      } else {
        FullWasLive();
      }
    }

    twostate lemma TakenWasFree(p: Place)
      requires Added(old(maps), old(fpMaps), p) && p.index < if p.Main? then w else Limit(p.bitmap)
      ensures old(IsPlace(p)) && !old(AllLive())
    {
      assert old(IsPlace(p) && !IsLive(p));
    }

    lemma RoomInPage(row: seq<set<nat>>, first: nat, b: nat, i: nat)
      requires FoundInPage(row, first, b, i) && first + perPage <= |row|
      ensures !FullBetween(row, first, first + perPage, w)
    {}

    twostate lemma FullWasLive()
      requires maps == old(maps) && fpMaps == old(fpMaps)
      requires forall s :: 0 <= s < |maps| ==> RowFull(maps[s], w)
      requires !FirstPageHasRoom(fpMaps)
      ensures old(AllLive())
    {}

    /** _dispatch_alloc_continuation_free of a live slot. */
    method Free(p: Place)
      requires Valid() && IsPlace(p) && IsLive(p)
      modifies this`maps, this`supers, this`fpMaps, this`advised
      ensures Valid() && Removed(old(maps), old(fpMaps), p)
      ensures advised == old(advised) + if p.Main? && PageIsEmpty(p) then [PageOf(p).value] else []
    {
      match p
      case FirstPage(b, i) =>
        fpMaps := fpMaps[b := fpMaps[b] - {i}];
      case Main(s, b, i) =>
        ClearBit(s, b, i);
        if maps[s][b] == {} {
          InsidePage(b, perPage, w);
          MaybeMadvise(s, Mask(b, perPage));
        }
    }

    /** No slot of the page of `p` is live. */
    predicate PageIsEmpty(p: Place)
      requires Valid() && p.Main? && IsPlace(p)
      reads this
    {
      var first := Mask(p.bitmap, perPage);
      first + perPage <= w && PageEmpty(maps[p.super], first, perPage)
    }

    /** Everything as in `maps0` and `fp0`, with the slot's bit cleared. */
    ghost predicate Removed(maps0: seq<seq<set<nat>>>, fp0: seq<set<nat>>, p: Place)
      reads this
    {
      match p
      case Main(s, b, i) =>
        s < |maps0| && b < |maps0[s]| && fpMaps == fp0 && maps == maps0[s := maps0[s][b := maps0[s][b] - {i}]]
      case FirstPage(b, i) =>
        b < |fp0| && maps == maps0 && fpMaps == fp0[b := fp0[b] - {i}]
    }

    /** The bit of a slot of the main array, and the supermap bit of its bitmap. */
    method ClearBit(s: nat, b: nat, i: nat)
      requires Valid() && s < |maps| && b < w && i in maps[s][b]
      modifies this`maps, this`supers
      ensures Valid() && Removed(old(maps), fpMaps, Main(s, b, i))
    {
      assert RowGood(maps[s], w) && Exact(supers[s], maps[s], w);
      maps := maps[s := maps[s][b := maps[s][b] - {i}]];
      supers := supers[s := supers[s] - {b}];
    }

    /** Gives a page back, which nobody may use meanwhile: all its bitmaps are locked. */
    method Madvise(s: nat, first: nat)
      requires s < |maps| && first + perPage <= |maps[s]| && FullBetween(maps[s], first, first + perPage, w)
      modifies this`advised
      ensures advised == old(advised) + [(s, first)]
    {
      advised := advised + [(s, first)];
    }

    /** _dispatch_alloc_maybe_madvise_page, undisturbed: if the page's bitmaps are all empty they are locked,
        the page is advised, and they are unlocked again. */
    method MaybeMadvise(s: nat, first: nat)
      requires Valid() && s < |maps| && first + perPage <= w
      modifies this`maps, this`advised
      ensures Valid() && maps == old(maps)
      ensures advised == old(advised) + if PageEmpty(old(maps)[s], first, perPage) then [(s, first)] else []
    {
      var i := 0;
      while i < perPage
        invariant i <= perPage && forall b :: first <= b < first + i ==> maps[s][b] == {}
      {
        if maps[s][first + i] != {} {
          return;
        }
        i := i + 1;
      }
      var locked := 0;
      while locked < perPage
        invariant locked <= perPage && |maps| == old(|maps|) && RowLocked(maps[s], old(maps)[s], first, locked)
        invariant maps == old(maps)[s := maps[s]] && advised == old(advised)
      {
        maps := maps[s := maps[s][first + locked := Full(w)]];
        locked := locked + 1;
      }
      Madvise(s, first);
      while locked > 0
        invariant locked <= perPage && |maps| == old(|maps|) && RowLocked(maps[s], old(maps)[s], first, locked)
        invariant maps == old(maps)[s := maps[s]] && advised == old(advised) + [(s, first)]
      {
        locked := locked - 1;
        maps := maps[s := maps[s][first + locked := {}]];
      }
      assert maps[s] == old(maps)[s];
    }

    ghost predicate RowLocked(row: seq<set<nat>>, row0: seq<set<nat>>, first: nat, locked: nat) {
      |row| == |row0|
      && forall b :: 0 <= b < |row| ==> row[b] == if first <= b < first + locked then Full(w) else row0[b]
    }
  }

  /** A bitmap's page lies inside its supermap. */
  lemma InsidePage(b: nat, per: nat, w: nat)
    requires 0 < per && Aligned(w, per) && b < w
    ensures Mask(b, per) <= b && Mask(b, per) + per <= w
  {
    hide Times, High;
    var k: nat :| w == Times(k, per);
    PushPop(b, per);
    FirstIsBelow(High(b, per), per, Low(b, per));
    HighBelow(b, k, per);
    NextFits(High(b, per), k, per);
  }

  predicate PageEmpty(row: seq<set<nat>>, first: nat, per: nat)
    requires first + per <= |row|
  {
    forall b :: first <= b < first + per ==> row[b] == {}
  }

  /** Freeing what was just allocated leaves every bitmap, and so every supermap, as it was. */
  method AllocThenFree(m: Magazine) returns (ok: bool)
    requires m.Valid()
    modifies m
    ensures m.Valid() && m.maps == old(m.maps) && m.fpMaps == old(m.fpMaps)
    ensures forall s :: 0 <= s < |m.supers| ==> m.supers[s] == old(m.supers)[s]
    ensures ok <==> !old(m.AllLive())
  {
    var slot := m.Alloc();
    ok := slot.Some?;
    if ok {
      m.Free(slot.value);
      match slot.value
      case Main(s, b, i) =>
        ClearedAgain(old(m.maps)[s], b, i);
        assert m.maps == old(m.maps)[s := old(m.maps)[s]];
      case FirstPage(b, i) =>
        ClearedAgain(old(m.fpMaps), b, i);
    }
    forall s | 0 <= s < |m.supers| ensures m.supers[s] == old(m.supers)[s] {
      ExactIsUnique(m.supers[s], old(m.supers)[s], m.maps[s], m.w);
    }
  }

  lemma ClearedAgain(row: seq<set<nat>>, b: nat, i: nat)
    requires b < |row| && i !in row[b]
    ensures var r := row[b := row[b] + {i}]; r[b := r[b] - {i}] == row
  {
    assert row[b] + {i} - {i} == row[b];
  }

  lemma ExactIsUnique(a: set<nat>, b: set<nat>, row: seq<set<nat>>, w: nat)
    requires Exact(a, row, w) && Exact(b, row, w)
    ensures a == b
  {}
}
