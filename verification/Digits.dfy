/** Mixed-radix digits: one digit put below a number and taken off again. */
module Digits {

  /** Digit `d` of radix `r` below `x`. */
  function Push(x: nat, r: nat, d: nat): nat { x * r + d }

  function Low(n: nat, r: nat): (d: nat)
    requires r > 0
    ensures d < r
  {
    n % r
  }

  function High(n: nat, r: nat): nat
    requires r > 0
  {
    n / r
  }

  function Times(a: nat, b: nat): nat { a * b }

  lemma TimesMonotone(a: int, b: int, r: nat)
    requires a <= b
    ensures a * r <= b * r
  {
    assert (b - a) * r >= 0;
  }

  lemma PushPop(n: nat, r: nat)
    requires r > 0
    ensures Push(High(n, r), r, Low(n, r)) == n
  {}

  lemma QuotientIsUnique(q: int, m: int, x: int, d: int, r: nat)
    requires q * r + m == x * r + d && 0 <= m < r && 0 <= d < r
    ensures q == x && m == d
  {
    if q > x { TimesMonotone(x + 1, q, r); }
    if q < x { TimesMonotone(q + 1, x, r); }
  }

  lemma PopPush(x: nat, r: nat, d: nat)
    requires d < r
    ensures Low(Push(x, r, d), r) == d && High(Push(x, r, d), r) == x
  {
    var n := Push(x, r, d);
    PushPop(n, r);
    QuotientIsUnique(n / r, n % r, x, d, r);
  }

  lemma PushBelow(x: nat, n: nat, r: nat, d: nat)
    requires x < n && d < r
    ensures Push(x, r, d) < Times(n, r)
  {
    TimesMonotone(x + 1, n, r);
  }

  lemma HighBelow(k: nat, n: nat, r: nat)
    requires r > 0 && k < Times(n, r)
    ensures High(k, r) < n
  {
    PushPop(k, r);
    if n <= k / r { TimesMonotone(n, k / r, r); }
  }

  lemma TimesAssociates(a: nat, b: nat, c: nat)
    ensures Times(Times(a, b), c) == Times(a, Times(b, c))
  {}

  lemma TimesAdds(a: nat, b: nat, c: nat)
    ensures Times(a + b, c) == Times(a, c) + Times(b, c)
  {}

  /** Scaling a number scales its digits' places. */
  lemma TimesPush(x: nat, r: nat, d: nat, n: nat)
    ensures Times(Push(x, r, d), n) == Times(x, Times(r, n)) + Times(d, n)
  {
    TimesAssociates(x, r, n);
    TimesAdds(Times(x, r), d, n);
  }

  /** Taking two digits off at once. */
  lemma HighHigh(n: nat, r: nat, q: nat)
    requires r > 0 && q > 0
    ensures Times(q, r) > 0 && High(n, Times(q, r)) == High(High(n, r), q)
  {
    var h := High(n, r);
    PushPop(n, r);
    PushPop(h, q);
    PushBelow(Low(h, q), q, r, Low(n, r));
    TimesPush(High(h, q), q, Low(h, q), r);
    PopPush(High(h, q), Times(q, r), Push(Low(h, q), r, Low(n, r)));
  }

  /** Masking off the low part of `x`, for sizes that are powers of two. */
  function Mask(x: nat, n: nat): nat
    requires n > 0
  {
    Times(High(x, n), n)
  }

  ghost predicate Aligned(x: nat, n: nat) { exists k: nat :: x == Times(k, n) }

  lemma MaskOfSum(x: nat, n: nat, d: nat)
    requires n > 0 && Aligned(x, n)
    ensures Mask(x + d, n) == x + Mask(d, n) && Mask(d, n) <= d
    ensures d < n ==> Mask(d, n) == 0
  {
    var k: nat :| x == Times(k, n);
    PushPop(d, n);
    PopPush(k + High(d, n), n, Low(d, n));
    TimesAdds(k, High(d, n), n);
    if d < n { PopPush(0, n, d); }
  }

  lemma AlignedSum(x: nat, y: nat, n: nat)
    requires Aligned(x, n) && Aligned(y, n)
    ensures Aligned(x + y, n)
  {
    var k: nat, l: nat :| x == Times(k, n) && y == Times(l, n);
    TimesAdds(k, l, n);
  }

  lemma AlignedTransitive(x: nat, y: nat, n: nat)
    requires Aligned(x, y) && Aligned(y, n)
    ensures Aligned(x, n)
  {
    var k: nat, l: nat :| x == Times(k, y) && y == Times(l, n);
    TimesAssociates(k, l, n);
  }
}
