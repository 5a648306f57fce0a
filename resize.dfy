/** The target size of a preview image, computed in the `/list` handler from
    the native size of an origin image before it is handed to the resizer. */
module Resize {

  /** Pixel dimensions of an image as the image library reports them. */
  datatype Size = Size(width: nat, height: nat)

  /** The long-axis and short-axis bounds the divisors are taken against. */
  const LongBound: nat := 800
  const ShortBound: nat := 600

  /** Result of the size computation. `DivideByZero` stands for the integer
      division by a zero divisor, which makes the Go runtime panic. */
  datatype Outcome = Resized(size: Size) | DivideByZero

  function Max(a: nat, b: nat): nat { if a < b then b else a }
  function Min(a: nat, b: nat): nat { if a < b then a else b }

  /** The long axis `x` and the short axis `y` after the conditional swap. */
  function Axes(s: Size): (xy: (nat, nat))
    ensures xy.0 == Max(s.width, s.height) && xy.1 == Min(s.width, s.height)
  {
    var (x, y) := (s.height, s.width);
    if s.width > s.height then (y, x) else (x, y)
  }

  /** The common divisor `a`: the larger of `x / 800` and `y / 600`. */
  function Divisor(s: Size): (a: nat)
    ensures a >= Axes(s).0 / LongBound && a >= Axes(s).1 / ShortBound
    ensures a == Axes(s).0 / LongBound || a == Axes(s).1 / ShortBound
  {
    var (x, y) := Axes(s);
    var (a, b) := (x / LongBound, y / ShortBound);
    if b > a then b else a
  }

  /** Both axes of the native size divided by the same divisor; a zero
      divisor (an image under 800 on its long axis and under 600 on its short
      one) is the division by zero the source performs. */
  function PreviewSize(s: Size): (r: Outcome)
    ensures r.DivideByZero? <==> Axes(s).0 < LongBound && Axes(s).1 < ShortBound
    ensures r.Resized? ==> r.size.width <= s.width && r.size.height <= s.height
  {
    var a := Divisor(s);
    if a == 0 then DivideByZero
    else
      QuotientAtMost(s.width, a);
      QuotientAtMost(s.height, a);
      Resized(Size(s.width / a, s.height / a))
  }

  lemma QuotientAtMost(n: nat, d: nat)
    requires d >= 1
    ensures n / d <= n
  {
    var q := n / d;
    FloorDivision(n, d);
    MulMonotone(1, d, q);
    assert q <= q * d <= n;
  }

  lemma MulMonotone(p: int, q: int, d: int)
    requires d >= 0
    ensures p <= q ==> p * d <= q * d
  {
    assert q * d - p * d == (q - p) * d;
  }

  /** Products by the same positive factor compare as the other factors do. */
  lemma LessFromProducts(p: int, q: int, d: int)
    requires d >= 1 && p * d < q * d
    ensures p < q
  {
    MulMonotone(q, p, d);
  }

  /** The divisor is zero exactly for images under both bounds. */
  lemma DivisorZeroIff(s: Size)
    ensures Divisor(s) == 0 <==> Axes(s).0 < LongBound && Axes(s).1 < ShortBound
  {
  }

  /** Both axes are divided by the one divisor `a >= 1`, rounding down: each
      target axis is the largest whole number whose multiple by `a` fits the
      native axis. */
  lemma {:induction false} PreviewSizeScalesBoth(s: Size)
    requires PreviewSize(s).Resized?
    ensures var t, a := PreviewSize(s).size, Divisor(s);
      a >= 1 &&
      t.width * a <= s.width < (t.width + 1) * a &&
      t.height * a <= s.height < (t.height + 1) * a
  {
    var t, a := PreviewSize(s).size, Divisor(s);
    FloorDivision(s.width, a);
    FloorDivision(s.height, a);
  }

  lemma FloorDivision(n: nat, d: nat)
    requires d >= 1
    ensures (n / d) * d <= n < (n / d + 1) * d
  {
    var q, r := n / d, n % d;
    assert n == q * d + r && r < d;
    assert (q + 1) * d == q * d + d;
  }

  /** Dividing both axes by the same divisor keeps the orientation: a
      landscape image gives a landscape preview and a portrait one a
      portrait preview. */
  lemma {:induction false} PreviewSizeKeepsOrientation(s: Size)
    requires PreviewSize(s).Resized?
    ensures var t := PreviewSize(s).size;
      (s.width >= s.height ==> t.width >= t.height) &&
      (s.width <= s.height ==> t.width <= t.height)
  {
    var a := Divisor(s);
    if s.width >= s.height {
      DivisionMonotone(s.height, s.width, a);
    }
    if s.width <= s.height {
      DivisionMonotone(s.width, s.height, a);
    }
  }

  lemma DivisionMonotone(m: nat, n: nat, d: nat)
    requires m <= n && d >= 1
    ensures m / d <= n / d
  {
    FloorDivision(m, d);
    FloorDivision(n, d);
    LessFromProducts(m / d, n / d + 1, d);
  }

  /** The preview is less than twice the bounds on each axis (long axis under
      1600, short axis under 1200), and reaches at least one of them (long
      axis at least 800 or short axis at least 600). */
  lemma {:induction false} PreviewSizeBounds(s: Size)
    requires PreviewSize(s).Resized?
    ensures var t := PreviewSize(s).size;
      Axes(t).0 < 2 * LongBound && Axes(t).1 < 2 * ShortBound &&
      (Axes(t).0 >= LongBound || Axes(t).1 >= ShortBound)
  {
    var t, a := PreviewSize(s).size, Divisor(s);
    var (x, y) := Axes(s);
    PreviewSizeKeepsOrientation(s);
    // the long and short axes of the preview are those of the image, divided by a
    assert Axes(t) == (x / a, y / a);
    AxisBelowTwiceBound(x, LongBound, a);
    AxisBelowTwiceBound(y, ShortBound, a);
    if a == x / LongBound {
      ReachesBound(x, LongBound, a);
    } else {
      ReachesBound(y, ShortBound, a);
    }
  }

  /** When `a >= n / bound` and `a >= 1`, then `n / a < 2 * bound`. */
  lemma AxisBelowTwiceBound(n: nat, bound: nat, a: nat)
    requires bound >= 1 && a >= 1 && a >= n / bound
    ensures n / a < 2 * bound
  {
    FloorDivision(n, bound);
    FloorDivision(n, a);
    MulMonotone(n / bound + 1, a + 1, bound);
    MulMonotone(1, a, bound);
    assert (a + 1) * bound == a * bound + bound;
    LessFromProducts(n / a, 2 * bound, a);
  }

  /** When `a == n / bound` and `a >= 1`, then `n / a >= bound`. */
  lemma ReachesBound(n: nat, bound: nat, a: nat)
    requires bound >= 1 && a >= 1 && a == n / bound
    ensures n / a >= bound
  {
    FloorDivision(n, bound);
    FloorDivision(n, a);
    LessFromProducts(bound, n / a + 1, a);
  }

  /** Swapping width and height swaps the preview's width and height. */
  lemma {:induction false} PreviewSizeTranspose(w: nat, h: nat)
    ensures Divisor(Size(w, h)) == Divisor(Size(h, w))
    ensures match PreviewSize(Size(w, h))
      case DivideByZero => PreviewSize(Size(h, w)) == DivideByZero
      case Resized(t) => PreviewSize(Size(h, w)) == Resized(Size(t.height, t.width))
  {
    assert Axes(Size(w, h)) == Axes(Size(h, w));
  }

  /** A divisor of one leaves the size as it is: images from 800 to 1599 on
      the long axis and under 1200 on the short one, or from 600 to 1199 on the
      short axis and under 1600 on the long one. */
  lemma {:induction false} DivisorOneKeepsSize(s: Size)
    requires Divisor(s) == 1
    ensures PreviewSize(s) == Resized(s)
    ensures Axes(s).0 < 2 * LongBound && Axes(s).1 < 2 * ShortBound
    ensures Axes(s).0 >= LongBound || Axes(s).1 >= ShortBound
  {
    var (x, y) := Axes(s);
    assert x / LongBound <= 1 && y / ShortBound <= 1;
  }

  /** A 1600 x 1200 photo gets divisor 2 and an 800 x 600 preview, and the
      same photo taken upright gets a 600 x 800 one. */
  lemma ExampleTwiceTheBounds()
    ensures Divisor(Size(1600, 1200)) == 2
    ensures PreviewSize(Size(1600, 1200)) == Resized(Size(800, 600))
    ensures PreviewSize(Size(1200, 1600)) == Resized(Size(600, 800))
  {
  }

  // ---------------------------------------------------------------------
  // The division by zero at the last step.

  /** A 640 x 480 image is under both bounds: its divisor is zero and the
      computation divides by zero. */
  lemma SmallImageDividesByZero()
    ensures Divisor(Size(640, 480)) == 0
    ensures PreviewSize(Size(640, 480)) == DivideByZero
  {
  }

  /** The size computation with the divisor floored at one: images already
      under both bounds keep their size, every other image gets exactly the
      size the source computes. */
  function PreviewSizeFloored(s: Size): (t: Size)
    ensures PreviewSize(s).Resized? ==> PreviewSize(s) == Resized(t)
    ensures PreviewSize(s).DivideByZero? ==> t == s
    ensures t.width <= s.width && t.height <= s.height
  {
    var d := Divisor(s);
    var a := Max(d, 1);
    QuotientAtMost(s.width, a);
    QuotientAtMost(s.height, a);
    var t := Size(s.width / a, s.height / a);
    assert d == 0 ==> t == s by {
      if d == 0 {
        assert a == 1;
      }
    }
    assert d != 0 ==> PreviewSize(s) == Resized(t);
    t
  }

  /** With the divisor floored at one every image gets a preview, and every
      preview is under 1600 on its long axis and under 1200 on its short one. */
  lemma {:induction false} PreviewSizeFlooredFits(s: Size)
    ensures var t := PreviewSizeFloored(s);
      Axes(t).0 < 2 * LongBound && Axes(t).1 < 2 * ShortBound
  {
    if PreviewSize(s).Resized? {
      PreviewSizeBounds(s);
    }
  }
}
