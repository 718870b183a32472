/**
  Colour arithmetic: linear interpolation, the conversion of a shade to a
  byte, the colour maps and the two-anchor Gradient that writes a colour
  into caller-provided storage.  The doubles of color_t are idealised as
  exact reals.
*/
module Colors {

  /** uint8_t / unsigned char: the value of one byte of the image. */
  type Byte = b: int | 0 <= b < 256

  /** x lies between a and b, whichever of the two is smaller. */
  predicate Between(x: real, a: real, b: real)
  {
    (a <= b ==> a <= x <= b) && (b <= a ==> b <= x <= a)
  }

  /** lerp(a, b, t) = (1 - t) a + t b: a at t = 0, b at t = 1, constant when
      the end points agree, and between the end points for t in [0, 1]. */
  function Lerp(a: real, b: real, t: real): (r: real)
    ensures t == 0.0 ==> r == a
    ensures t == 1.0 ==> r == b
    ensures a == b ==> r == a
    ensures 0.0 <= t <= 1.0 ==> Between(r, a, b)
  {
    LerpWithin(a, b, t);
    (1.0 - t) * a + t * b
  }

  /** The convex combination is the start point moved by t times the
      distance to the end point. */
  lemma LerpIsOffset(a: real, b: real, t: real)
    ensures (1.0 - t) * a + t * b == a + t * (b - a)
  {
  }

  /** For t in [0, 1] the convex combination lies between the end points. */
  lemma LerpWithin(a: real, b: real, t: real)
    ensures 0.0 <= t <= 1.0 ==> Between((1.0 - t) * a + t * b, a, b)
  {
    if 0.0 <= t <= 1.0 {
      if a <= b {
        LerpAscending(a, b, t);
      }
      if b <= a {
        LerpDescending(a, b, t);
      }
    }
  }

  lemma LerpAscending(a: real, b: real, t: real)
    requires 0.0 <= t <= 1.0 && a <= b
    ensures a <= (1.0 - t) * a + t * b <= b
  {
    NonNegativeProduct(t, b - a);
    NonNegativeProduct(1.0 - t, b - a);
    assert (1.0 - t) * a + t * b == a + t * (b - a);
    assert (1.0 - t) * a + t * b == b - (1.0 - t) * (b - a);
  }

  lemma LerpDescending(a: real, b: real, t: real)
    requires 0.0 <= t <= 1.0 && b <= a
    ensures b <= (1.0 - t) * a + t * b <= a
  {
    NonNegativeProduct(t, a - b);
    NonNegativeProduct(1.0 - t, a - b);
    assert (1.0 - t) * a + t * b == a - t * (a - b);
    assert (1.0 - t) * a + t * b == b + (1.0 - t) * (a - b);
  }

  lemma NonNegativeProduct(x: real, y: real)
    requires x >= 0.0 && y >= 0.0
    ensures x * y >= 0.0
  {
  }

  /** flatten(x) = (uint8_t) floor(x).  The conversion is defined only when
      floor(x) fits a byte, so the argument must lie in [0, 256). */
  function Flatten(x: real): (b: Byte)
    requires 0.0 <= x < 256.0
    ensures b as real <= x < b as real + 1.0
  {
    x.Floor
  }

  /** A color_t: three channels. */
  datatype Color = Color(r: real, g: real, b: real)

  /** A colormap_t: a name and the two anchor colours of its gradient. */
  datatype Colormap = Colormap(name: string, color1: Color, color2: Color)

  /** Every channel of c lies in the byte range [0, 255]. */
  predicate InByteRange(c: Color)
  {
    0.0 <= c.r <= 255.0 && 0.0 <= c.g <= 255.0 && 0.0 <= c.b <= 255.0
  }

  /** Every channel of c lies between the corresponding channels of a and b. */
  predicate Within(c: Color, a: Color, b: Color)
  {
    Between(c.r, a.r, b.r) && Between(c.g, a.g, b.g) && Between(c.b, a.b, b.b)
  }

  /** The colour maps of the renderer, in table order. */
  const AllColormaps: seq<Colormap> := [
    Colormap("b&w",  Color(0.0, 0.0, 0.0),   Color(190.0, 190.0, 190.0)),
    Colormap("red",  Color(0.0, 20.0, 30.0),  Color(210.0, 0.0, 10.0)),
    Colormap("blue", Color(0.0, 24.0, 104.0), Color(163.0, 255.0, 252.0))
  ]

  /** The table has COLORMAP_COUNT = 3 entries and every channel of every
      anchor is a valid byte shade. */
  lemma ColormapsInByteRange()
    ensures |AllColormaps| == 3
    ensures forall i :: 0 <= i < |AllColormaps| ==>
              InByteRange(AllColormaps[i].color1) && InByteRange(AllColormaps[i].color2)
  {
  }

  /** The older colour maps of the render-settings header, in table order:
      the same names with different anchors. */
  const RenderColormaps: seq<Colormap> := [
    Colormap("b&w",  Color(0.0, 0.0, 0.0),  Color(190.0, 190.0, 190.0)),
    Colormap("red",  Color(0.0, 30.0, 30.0), Color(190.0, 0.0, 0.0)),
    Colormap("blue", Color(0.0, 0.0, 0.0),  Color(0.0, 0.0, 190.0))
  ]

  /** Both tables list b&w, red and blue in that order, and every anchor
      channel of the older table is a valid byte shade too. */
  lemma RenderColormapsInByteRange()
    ensures |RenderColormaps| == 3
    ensures forall i :: 0 <= i < 3 ==> RenderColormaps[i].name == AllColormaps[i].name
    ensures forall i :: 0 <= i < |RenderColormaps| ==>
              InByteRange(RenderColormaps[i].color1) && InByteRange(RenderColormaps[i].color2)
  {
  }

  /** Channel-wise lerp: the colour a fraction t of the way from a to b. */
  function Mix(a: Color, b: Color, t: real): (c: Color)
    ensures t == 0.0 ==> c == a
    ensures t == 1.0 ==> c == b
    ensures 0.0 <= t <= 1.0 ==> Within(c, a, b)
  {
    Color(Lerp(a.r, b.r, t), Lerp(a.g, b.g, t), Lerp(a.b, b.b, t))
  }

  /** A lerp between two lerps of the same end points is itself a lerp of
      those end points, at the lerp of the two fractions. */
  lemma {:induction false} LerpOfLerps(a: real, b: real, t1: real, t2: real, p: real)
    ensures Lerp(Lerp(a, b, t1), Lerp(a, b, t2), p) == Lerp(a, b, Lerp(t1, t2, p))
  {
    var d := b - a;
    LerpIsOffset(a, b, t1);
    LerpIsOffset(a, b, t2);
    LerpIsOffset(t1, t2, p);
    var u, v := a + t1 * d, a + t2 * d;
    LerpIsOffset(u, v, p);
    calc {
      Lerp(u, v, p);
      u + p * (v - u);
      a + t1 * d + p * (t2 * d - t1 * d);
      a + (t1 + p * (t2 - t1)) * d;
      Lerp(a, b, Lerp(t1, t2, p));
    }
  }

  /** Interpolating with weight p between the fractions x/n and (x+1)/n is
      the fraction (x+p)/n. */
  lemma FractionStep(x: real, n: real, p: real)
    requires n != 0.0
    ensures Lerp(x / n, (x + 1.0) / n, p) == (x + p) / n
  {
    LerpIsOffset(x / n, (x + 1.0) / n, p);
    assert (x + 1.0) / n - x / n == 1.0 / n;
    assert x / n + p * (1.0 / n) == (x + p) / n;
  }

  // ---------------------------------------------------------------------
  // The in-place side: colour storage and the gradient

  /** A color_t object that the gradient writes through a pointer. */
  class ColorCell {
    var r: real
    var g: real
    var b: real

    function Value(): Color
      reads this
    {
      Color(r, g, b)
    }

    constructor (c: Color)
      ensures Value() == c
    {
      r, g, b := c.r, c.g, c.b;
    }
  }

  /** The colour that pick(x, n) writes: the anchors mixed at x/n. */
  function Picked(left: Color, right: Color, x: real, n: real): (c: Color)
    requires n != 0.0
    ensures x == 0.0 ==> c == left
    ensures x == n ==> c == right
    ensures 0.0 <= x <= n ==> Within(c, left, right)
  {
    FractionWithin(x, n);
    Mix(left, right, x / n)
  }

  /** An index between 0 and n is a fraction between 0 and 1. */
  lemma FractionWithin(x: real, n: real)
    requires n != 0.0
    ensures 0.0 <= x <= n ==> 0.0 <= x / n <= 1.0
  {
    if 0.0 <= x <= n {
      assert n > 0.0;
      var q := x / n;
      assert q * n == x;
      if q > 1.0 {
        PositiveProduct(q - 1.0, n);
      }
      if q < 0.0 {
        PositiveProduct(-q, n);
      }
    }
  }

  lemma PositiveProduct(a: real, b: real)
    requires a > 0.0 && b > 0.0
    ensures a * b > 0.0
  {
  }

  /** The colour that interp(x, n, p) writes: the picks at x and x + 1
      mixed with weight p.  It equals pick at the fractional index x + p,
      so p = 0 gives pick(x) and p = 1 gives pick(x + 1). */
  function Interpolated(left: Color, right: Color, x: real, n: real, p: real): (c: Color)
    requires n != 0.0
    ensures c == Picked(left, right, x + p, n)
    ensures p == 0.0 ==> c == Picked(left, right, x, n)
    ensures p == 1.0 ==> c == Picked(left, right, x + 1.0, n)
  {
    FractionStep(x, n, p);
    LerpOfLerps(left.r, right.r, x / n, (x + 1.0) / n, p);
    LerpOfLerps(left.g, right.g, x / n, (x + 1.0) / n, p);
    LerpOfLerps(left.b, right.b, x / n, (x + 1.0) / n, p);
    Mix(Mix(left, right, x / n), Mix(left, right, (x + 1.0) / n), p)
  }

  /** The end of one interpolation step is the start of the next. */
  lemma InterpContinuous(left: Color, right: Color, x: real, n: real)
    requires n != 0.0
    ensures Interpolated(left, right, x, n, 1.0) == Interpolated(left, right, x + 1.0, n, 0.0)
  {
  }

  /** The pick formula written out channel by channel, (1 - t) left + t right
      with t = x/n, is the lerp-based pick. */
  lemma InlinePickIsPicked(left: Color, right: Color, x: real, n: real)
    requires n != 0.0
    ensures Picked(left, right, x, n) ==
            Color((1.0 - x / n) * left.r + (x / n) * right.r,
                  (1.0 - x / n) * left.g + (x / n) * right.g,
                  (1.0 - x / n) * left.b + (x / n) * right.b)
  {
  }

  /** A gradient between two anchor colours that are fixed at construction. */
  class Gradient {
    const left: Color
    const right: Color

    constructor (a: Color, b: Color)
      ensures left == a && right == b
    {
      left := a;
      right := b;
    }

    /** reset: all three channels of the storage become 0. */
    method Reset(storage: ColorCell)
      modifies storage
      ensures storage.Value() == Color(0.0, 0.0, 0.0)
    {
      storage.r := 0.0;
      storage.g := 0.0;
      storage.b := 0.0;
    }

    /** pick: colour index x of a palette of n indices. */
    method Pick(x: real, n: real, storage: ColorCell)
      requires n != 0.0
      modifies storage
      ensures storage.Value() == Picked(left, right, x, n)
    {
      var t := x / n;
      storage.r := Lerp(left.r, right.r, t);
      storage.g := Lerp(left.g, right.g, t);
      storage.b := Lerp(left.b, right.b, t);
    }

    /** interp: between colour indices x and x + 1 with weight p. */
    method Interp(x: real, n: real, p: real, storage: ColorCell)
      requires n != 0.0
      modifies storage
      ensures storage.Value() == Interpolated(left, right, x, n, p)
    {
      var t1 := x / n;
      var t2 := (x + 1.0) / n;
      storage.r := Lerp(Lerp(left.r, right.r, t1), Lerp(left.r, right.r, t2), p);
      storage.g := Lerp(Lerp(left.g, right.g, t1), Lerp(left.g, right.g, t2), p);
      storage.b := Lerp(Lerp(left.b, right.b, t1), Lerp(left.b, right.b, t2), p);
    }
  }
}
