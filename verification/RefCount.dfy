/** The two reference counts of an os_object: external references, which together own one internal one,
    and internal references, the last of which disposes of the object. */
module RefCount {

  const GLOBAL: int := 0x7fff_ffff        // _OS_OBJECT_GLOBAL_REFCNT

  /** A count changed in two's complement 32-bit arithmetic. */
  function Wrap32(x: int): int { (x + 0x8000_0000) % 0x1_0000_0000 - 0x8000_0000 }

  lemma WrapSmall(x: int)
    requires -0x8000_0000 <= x < 0x8000_0000
    ensures Wrap32(x) == x
  {}

  /** _os_atomic_refcnt_perform2o: global objects are not counted. */
  function Perform(count: int, n: int): int { if count == GLOBAL then count else Wrap32(count + n) }

  /** `xdisposed` and `disposed` count the calls of the two dispose hooks; `crashed` is a client crash. */
  datatype Counts = Counts(xref: int, ref: int, xdisposed: nat, disposed: nat, crashed: bool)

  /** A new object: one external reference, and the internal one that the external ones own. */
  predicate Fresh(c: Counts) {
    c.xref == 0 && c.ref == 0 && c.xdisposed == 0 && c.disposed == 0 && !c.crashed
  }

  function Crash(c: Counts): Counts { c.(crashed := true) }

  /** _os_object_retain */
  function Retain(c: Counts): Counts {
    var d := c.(xref := Perform(c.xref, 1));
    if c.xref < 0 then Crash(d) else d
  }

  /** The external half of _os_object_retain_with_resurrect, and whether an internal retain must follow. */
  function Resurrect(c: Counts): (Counts, bool) {
    var now := Wrap32(c.xref + 1);
    var d := c.(xref := Perform(c.xref, 1));
    (if now < 0 then Crash(d) else d, now == 0)
  }

  /** _os_object_release_inline, and whether the external count just ran out. */
  function Release(c: Counts): (Counts, bool) {
    var d := c.(xref := Perform(c.xref, -1));
    (if d.xref < -1 then Crash(d) else d, d.xref == -1)
  }

  /** _os_object_retain_weak, and its answer. */
  function RetainWeak(c: Counts): (Counts, bool) {
    if c.xref == GLOBAL then (c, true)
    else if c.xref == -1 then (c, false)
    else if c.xref < -1 then (Crash(c), false)
    else (c.(xref := Wrap32(c.xref + 1)), true)
  }

  /** _os_object_retain_internal_n_inline */
  function RetainInternal(c: Counts, n: nat): Counts {
    var d := c.(ref := Perform(c.ref, n));
    if c.ref < 0 then Crash(d) else d
  }

  /** _os_object_release_internal_n_inline; only a debug build looks at the external count. */
  function ReleaseInternal(c: Counts, n: nat, debug: bool): Counts {
    var d := c.(ref := Perform(c.ref, 0 - n));
    if d.ref >= 0 then d
    else if d.ref < -1 || (debug && d.xref >= 0) then Crash(d)
    else d.(disposed := d.disposed + 1)
  }

  /** _os_object_xref_dispose without a hook of its own: the external references' internal one goes. */
  function XrefDispose(c: Counts, debug: bool): Counts {
    ReleaseInternal(c.(xdisposed := c.xdisposed + 1), 1, debug)
  }

  // ---- the object itself --------------------------------------------------------------------

  function Bit(b: bool): nat { if b then 1 else 0 }

  /** `ext` and `inner` count the references that callers hold. */
  class OsObject {
    const debug: bool           // DISPATCH_DEBUG
    var xref: int
    var ref: int
    var xdisposed: nat
    var disposed: nat
    var crashed: bool
    ghost var ext: nat
    ghost var inner: nat

    function Value(): Counts
      reads this
    {
      Counts(xref, ref, xdisposed, disposed, crashed)
    }

    /** The counts are what callers hold, all external references together owning one internal one; the
        object was disposed of once if nothing is held, and not before. */
    ghost predicate Valid()
      reads this
    {
      && xref == ext - 1 && ext < GLOBAL
      && ref + 1 == inner + Bit(ext > 0) < GLOBAL
      && disposed == Bit(ext == 0 && inner == 0) && !crashed
    }

    ghost predicate Held(e: nat, i: nat)
      reads this
    {
      Valid() && ext == e && inner == i
    }

    constructor (debug: bool)
      ensures this.debug == debug && Fresh(Value()) && Held(1, 0)
    {
      this.debug := debug;
      xref, ref, xdisposed, disposed, crashed := 0, 0, 0, 0, false;
      ext, inner := 1, 0;
    }

    method Add(external: bool, n: int) returns (orig: int)
      modifies this`xref, this`ref
      ensures orig == old(if external then xref else ref)
      ensures Value() == old(if external then Value().(xref := Perform(xref, n)) else Value().(ref := Perform(ref, n)))
    {
      orig := if external then xref else ref;
      if orig != GLOBAL {
        if external { xref := Wrap32(xref + n); } else { ref := Wrap32(ref + n); }
      }
    }

    method RetainExternal()
      modifies this
      ensures Value() == Retain(old(Value()))
      ensures old(Valid()) && old(ext) + 1 < GLOBAL ==>
                if old(ext) == 0 then crashed else Held(old(ext) + 1, old(inner)) && xdisposed == old(xdisposed)
    {
      var orig := Add(true, 1);
      if orig < 0 { crashed := true; }
      ext := ext + 1;
    }

    /** Also from no external references, as long as somebody holds the object. */
    method RetainWithResurrect()
      modifies this
      ensures var (c, again) := Resurrect(old(Value()));
              Value() == if again then RetainInternal(c, 1) else c
      ensures old(Valid()) && old(ext) + 1 < GLOBAL && old(inner) + 1 < GLOBAL ==>
                if old(ext) == 0 && old(inner) == 0 then crashed
                else Held(old(ext) + 1, old(inner)) && xdisposed == old(xdisposed)
    {
      var orig := Add(true, 1);
      var now := Wrap32(orig + 1);
      if now < 0 { crashed := true; }
      ghost var held := inner;
      if now == 0 { RetainInternalN(1); }
      ext, inner := ext + 1, held;
    }

    method RetainInternalN(n: nat)
      modifies this
      ensures Value() == RetainInternal(old(Value()), n) && ext == old(ext)
      ensures old(Valid()) && old(inner) + n + 1 < GLOBAL ==>
                if old(ext) == 0 && old(inner) == 0 then crashed
                else Held(old(ext), old(inner) + n) && xdisposed == old(xdisposed)
    {
      var orig := Add(false, n);
      if orig < 0 { crashed := true; }
      inner := inner + n;
    }

    /** Releasing more than are held crashes, and nothing else does -- but for a release of exactly the one
        reference too many that the external ones own, which only a debug build notices: else the object is
        disposed of under its external references. */
    method ReleaseInternalN(n: nat)
      modifies this
      ensures Value() == ReleaseInternal(old(Value()), n, debug)
      ensures old(Valid()) && 0 < n < GLOBAL ==>
                if n <= old(inner) then Held(old(ext), old(inner) - n) && xdisposed == old(xdisposed)
                else if !debug && n == old(inner) + 1 && old(ext) > 0 then
                  !crashed && xref == old(xref) && ref == -1 && disposed == 1 && xdisposed == old(xdisposed)
                else crashed
    {
      hide Wrap32;
      if -0x8000_0000 <= ref - n < 0x8000_0000 { WrapSmall(ref - n); }
      inner := if n <= inner then inner - n else 0;
      var _ := Add(false, 0 - n);
      if ref >= 0 {
        return;
      }
      if ref < -1 || (debug && xref >= 0) {
        crashed := true;
        return;
      }
      disposed := disposed + 1;
    }

    /** The last release runs xref dispose, once, and gives up the internal reference of the external ones. */
    method ReleaseExternal()
      modifies this
      ensures var (c, last) := Release(old(Value())); Value() == if last then XrefDispose(c, debug) else c
      ensures old(Valid()) && old(inner) + 1 < GLOBAL ==>
                if old(ext) == 0 then crashed
                else Held(old(ext) - 1, old(inner)) && xdisposed == old(xdisposed) + Bit(old(ext) == 1)
    {
      hide Wrap32;
      if -0x8000_0000 < xref <= GLOBAL { WrapSmall(xref - 1); }
      var _ := Add(true, -1);
      ext := if ext > 0 then ext - 1 else 0;
      if xref < -1 { crashed := true; }
      if xref == -1 {
        xdisposed := xdisposed + 1;
        inner := inner + 1;
        ReleaseInternalN(1);
      }
    }

    method TryRetainWeak() returns (ok: bool)
      modifies this
      ensures (Value(), ok) == RetainWeak(old(Value()))
      ensures old(Valid()) && old(ext) + 1 < GLOBAL ==>
                (ok <==> old(ext) > 0) && Held(old(ext) + Bit(ok), old(inner)) && xdisposed == old(xdisposed)
    {
      ok := true;
      if xref == GLOBAL {
        return;
      }
      if xref == -1 {
        return false;
      }
      if xref < -1 {
        crashed := true;
        return false;
      }
      xref := Wrap32(xref + 1);
      ext := ext + 1;
    }
  }

  // ---- any number of threads, each step one atomic operation ---------------------------------

  /** A resurrection has raised the external count to 0 and not yet retained internally; meanwhile its
      thread keeps the internal reference, or the pending xref dispose, under which it runs. */
  datatype Window = Closed | ViaInternal | ViaHook

  /** `ext` and `inner` count references held; `hooked` and `quiet` the threads that saw the external count
      run out and have yet to release the internal reference, with and without the xref dispose hook. */
  datatype Sys = Sys(
    debug: bool, c: Counts, ext: nat, inner: nat, hooked: nat, quiet: nat, falls: nat, window: Window)

  predicate Start(s: Sys) {
    Fresh(s.c) && s.ext == 1 && s.inner == 0 && s.hooked == 0 && s.quiet == 0 && s.falls == 0 && s.window.Closed?
  }

  datatype Label =
    | Retaining                         // by a holder of an external reference
    | Weak                              // _os_object_retain_weak, while the memory is there
    | Releasing(hook: bool)             // _os_object_release, or ..._without_xref_dispose
    | Hook                              // _os_object_xref_dispose
    | Quiet                             // the internal release without the hook
    | Resurrecting(hook: bool)          // under an internal reference, or inside the hook
    | Resurrected                       // its internal retain
    | RetainingInner(n: nat)
    | ReleasingInner(n: nat)

  /** Internal references that somebody holds, the one of the external references aside. */
  function Loose(s: Sys): nat { s.inner + s.hooked + s.quiet }

  predicate Enabled(s: Sys, l: Label) {
    match l
    case Retaining => s.ext > 0
    case Weak => s.c.disposed == 0
    case Releasing(_) => s.ext > Bit(!s.window.Closed?)
    case Hook => s.hooked > Bit(s.window.ViaHook?)
    case Quiet => s.quiet > 0
    case Resurrecting(hook) => if hook then s.hooked > 0 else s.inner > 0
    case Resurrected => !s.window.Closed?
    case RetainingInner(n) => (s.ext > 0 || Loose(s) > 0) && Loose(s) + n + 1 < GLOBAL
    case ReleasingInner(n) => 0 < n && n + Bit(s.window.ViaInternal?) <= s.inner
  }

  function Step(s: Sys, l: Label): Sys
    requires Enabled(s, l)
  {
    match l
    case Retaining => s.(c := Retain(s.c), ext := s.ext + 1)
    case Weak =>
      var (c, ok) := RetainWeak(s.c);
      s.(c := c, ext := s.ext + Bit(ok))
    case Releasing(hook) =>
      var (c, last) := Release(s.c);
      s.(c := c, ext := s.ext - 1, falls := s.falls + Bit(last && hook),
         hooked := s.hooked + Bit(last && hook), quiet := s.quiet + Bit(last && !hook))
    case Hook => s.(c := XrefDispose(s.c, s.debug), hooked := s.hooked - 1)
    case Quiet => s.(c := ReleaseInternal(s.c, 1, s.debug), quiet := s.quiet - 1)
    case Resurrecting(hook) =>
      var (c, again) := Resurrect(s.c);
      s.(c := c, ext := s.ext + 1,
         window := if !again then s.window else if hook then ViaHook else ViaInternal)
    case Resurrected => s.(c := RetainInternal(s.c, 1), window := Closed)
    case RetainingInner(n) => s.(c := RetainInternal(s.c, n), inner := s.inner + n)
    case ReleasingInner(n) => s.(c := ReleaseInternal(s.c, n, s.debug), inner := s.inner - n)
  }

  /** All external references together own one internal reference, except in the window. */
  ghost predicate Inv(s: Sys) {
    && s.c.xref == s.ext - 1 && s.ext < GLOBAL
    && s.c.ref + 1 == Loose(s) + Bit(s.ext > 0 && s.window.Closed?) <= GLOBAL
    && (!s.window.Closed? ==> s.ext > 0)
    && (s.window.ViaHook? ==> s.hooked > 0) && (s.window.ViaInternal? ==> s.inner > 0)
    && !s.c.crashed
    && s.c.xdisposed + s.hooked == s.falls
    && s.c.disposed == Bit(s.c.ref == -1)
  }

  /** Fewer references than the counters can hold. */
  predicate Few(s: Sys) { s.ext + 1 < GLOBAL && Loose(s) + 1 < GLOBAL }

  lemma StepKeepsInv(s: Sys, l: Label)
    requires Inv(s) && Few(s) && Enabled(s, l)
    ensures Inv(Step(s, l))
  {
    hide Wrap32;
    WrapSmall(s.c.xref + 1);
    WrapSmall(s.c.xref + -1);
    WrapSmall(s.c.ref + 1);
    WrapSmall(s.c.ref + (0 - 1));
    if l.RetainingInner? { WrapSmall(s.c.ref + l.n); }
    if l.ReleasingInner? { WrapSmall(s.c.ref + (0 - l.n)); }
  }

  ghost predicate Run(s: Sys, ls: seq<Label>, t: Sys)
    decreases |ls|
  {
    if |ls| == 0 then t == s
    else
      var k := |ls| - 1;
      exists m :: Run(s, ls[..k], m) && Few(m) && Enabled(m, ls[k]) && t == Step(m, ls[k])
  }

  lemma {:induction false} RunKeepsInv(s: Sys, ls: seq<Label>, t: Sys)
    requires Inv(s) && Run(s, ls, t)
    ensures Inv(t)
    decreases |ls|
  {
    hide Inv, Few, Enabled, Step;
    if |ls| > 0 {
      var k := |ls| - 1;
      var m :| Run(s, ls[..k], m) && Few(m) && Enabled(m, ls[k]) && t == Step(m, ls[k]);
      RunKeepsInv(s, ls[..k], m);
      StepKeepsInv(m, ls[k]);
    }
  }

  /** Some run of any number of threads leads here from a new object. */
  ghost predicate Reachable(s: Sys) { exists s0, ls :: Start(s0) && Run(s0, ls, s) }

  lemma ReachableInv(s: Sys)
    requires Reachable(s)
    ensures Inv(s)
  {
    hide Step, Enabled, Few, Run;
    var s0, ls :| Start(s0) && Run(s0, ls, s);
    RunKeepsInv(s0, ls, s);
  }

  /** Balanced use never crashes, and the external references together own one internal reference. */
  lemma ExternalOwnOne(s: Sys)
    requires Reachable(s)
    ensures !s.c.crashed && s.c.xref == s.ext - 1
    ensures s.window.Closed? ==> s.c.ref + 1 == s.inner + s.hooked + s.quiet + if s.ext > 0 then 1 else 0
  {
    hide Reachable;
    ReachableInv(s);
  }

  /** Each time the external count runs out, xref dispose runs once. */
  lemma XrefDisposeOncePerFall(s: Sys)
    requires Reachable(s)
    ensures s.c.xdisposed <= s.falls && (s.hooked == 0 ==> s.c.xdisposed == s.falls)
  {
    hide Reachable;
    ReachableInv(s);
  }

  /** The object is disposed of once, when no reference is left and no release is under way; and then
      nothing can happen to it any more. */
  lemma DisposedOnceAtTheEnd(s: Sys, l: Label)
    requires Reachable(s)
    ensures s.c.disposed <= 1
    ensures s.c.disposed == 1 <==> s.ext == s.inner == s.hooked == s.quiet == 0
    ensures s.c.disposed == 1 ==> !Enabled(s, l)
  {
    hide Reachable;
    ReachableInv(s);
  }

  /** Until it is disposed of, somebody holds the object and can let go of it; and who holds it can also retain
      it, as far as the counter goes, each kind of reference giving more of its own. */
  lemma HoldersCanAct(s: Sys, n: nat)
    requires Reachable(s)
    ensures s.c.disposed == 0 ==>
              || (exists hook :: Enabled(s, Releasing(hook))) || Enabled(s, Hook) || Enabled(s, Quiet)
              || Enabled(s, Resurrected) || (s.inner > 0 && Enabled(s, ReleasingInner(s.inner)))
    ensures s.ext > 0 ==> Enabled(s, Retaining)
    ensures s.ext > 0 || s.inner > 0 ==> (Enabled(s, RetainingInner(n)) <==> Loose(s) + n + 1 < GLOBAL)
    ensures s.window.Closed? && s.ext > 0 ==> Enabled(s, Releasing(true)) && Enabled(s, Releasing(false))
    ensures s.window.Closed? && 0 < n <= s.inner ==> Enabled(s, ReleasingInner(n))
  {
    hide Reachable;
    ReachableInv(s);
    if s.c.disposed == 0 && s.window.Closed? && s.ext > 0 { assert Enabled(s, Releasing(true)); }
  }

  /** A weak retain succeeds exactly while external references exist, and else changes nothing. */
  lemma WeakNeverRevives(s: Sys)
    requires Reachable(s) && Enabled(s, Weak)
    ensures RetainWeak(s.c).1 <==> s.ext > 0
    ensures s.ext == 0 ==> Step(s, Weak) == s
  {
    hide Reachable;
    ReachableInv(s);
  }

  /** Global objects are never counted, crashed or disposed of -- but for resurrecting one. */
  lemma GlobalsStay(c: Counts, n: nat, debug: bool)
    requires c.xref == c.ref == GLOBAL && !c.crashed
    ensures Retain(c) == c && Release(c) == (c, false) && RetainWeak(c) == (c, true)
    ensures RetainInternal(c, n) == c && ReleaseInternal(c, n, debug) == c
    ensures Resurrect(c) == (Crash(c), false)
  {}

  /** The two builds differ exactly on the release that brings the internal count to -1 while external
      references exist: the debug build crashes there, the other disposes of the object. */
  lemma BuildsDiffer(c: Counts, n: nat)
    requires !c.crashed
    ensures var count := Perform(c.ref, 0 - n);
            ReleaseInternal(c, n, true) != ReleaseInternal(c, n, false) <==> count == -1 && c.xref >= 0
    ensures ReleaseInternal(c, n, true) != ReleaseInternal(c, n, false) ==>
              ReleaseInternal(c, n, true).crashed && ReleaseInternal(c, n, false).disposed == c.disposed + 1
  {}

  /** Resurrecting crashes exactly on an over-released object and on a global one, whose returned count
      overflows.  The internal retain that may follow crashes exactly if nothing is held internally. */
  lemma ResurrectCrashesIff(c: Counts)
    requires -0x8000_0000 <= c.xref <= GLOBAL && -0x8000_0000 <= c.ref <= GLOBAL && !c.crashed
    ensures Resurrect(c).0.crashed <==> c.xref < -1 || c.xref == GLOBAL
    ensures Resurrect(c).1 <==> c.xref == -1
    ensures Resurrect(c).1 ==> (RetainInternal(Resurrect(c).0, 1).crashed <==> c.ref < 0)
  {}
}
