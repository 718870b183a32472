/**
  The two renderers of the rendering library: the escape-time loops, the
  image header and the pixel loops that fill the image stream.  Each loop
  is proved against the escape-time specification of module Escape and the
  stream layout of module Netpbm.
*/
module Rendering {
  import opened Complex
  import opened Functions
  import opened Escape
  import opened Colors
  import opened Netpbm
  import opened Viewport
  import opened Resolutions

  /** The comment line create_image writes. */
  const Comment: string := "#This is a comment"

  /** create_image: the header of the image stream for a w by h image. */
  function CreateImage(w: nat, h: nat): (r: string)
    ensures ReadHeader(r) == Some(HeaderInfo(Comment, w, h, |r|))
  {
    CommentIsOneLine();
    Header(Comment, w, h)
  }

  /** The comment is a single line. */
  lemma CommentIsOneLine()
    ensures forall i :: 0 <= i < |Comment| ==> Comment[i] != '\n'
  {
  }

  /** Whatever payload follows it, the header create_image writes reads back
      as that comment and those dimensions, and the payload starts right
      after it. */
  lemma CreateImageReadsBack(w: nat, h: nat, payload: string)
    ensures ReadHeader(CreateImage(w, h) + payload) ==
            Some(HeaderInfo(Comment, w, h, |CreateImage(w, h)|))
  {
    CommentIsOneLine();
    HeaderRoundTrip(Comment, w, h, payload);
  }

  /** iterate_m: z *= z; z += c while length2(z) < 4 and count++ < 255.  The
      count is the escape time of the z^2 + c orbit from z, and z is left at
      the orbit element where the loop stopped (element 255 for a point that
      never escapes).  c is a different object and is only read. */
  method IterateM(z: Cell, c: Cell) returns (count: nat)
    requires z != c
    modifies z
    ensures count == EscapeTime(ZSquared, old(z.Value()), c.Value())
    ensures z.Value() == Orbit(ZSquared, old(z.Value()), c.Value(), if count <= MaxIters then count else count - 1)
    ensures Escaped(old(z.Value())) ==> count == 0 && z.Value() == old(z.Value())
  {
    ghost var z0 := z.Value();
    count := 0;
    while true
      invariant count <= MaxIters
      invariant z.Value() == Orbit(ZSquared, z0, c.Value(), count)
      invariant forall j :: 0 <= j < count ==> !Escaped(Orbit(ZSquared, z0, c.Value(), j))
      decreases MaxIters - count
    {
      if !(Length2(z.Value()) < Threshold) {
        FirstEscapeIsEscapeTime(ZSquared, z0, c.Value(), count);
        return;
      }
      var before := count;
      count := count + 1;
      if !(before < MaxIters) {
        NeverEscapesIsInterior(ZSquared, z0, c.Value());
        return;
      }
      z.MulAssign(z);
      z.AddAssign(c);
    }
  }

  /** iterate_j: z := jf(z, c) under the same loop condition, so the same
      count contract for the recurrence jf. */
  method IterateJ(z: Cell, c: Cell, jf: IterFn) returns (count: nat)
    requires z != c
    modifies z
    ensures count == EscapeTime(jf, old(z.Value()), c.Value())
    ensures z.Value() == Orbit(jf, old(z.Value()), c.Value(), if count <= MaxIters then count else count - 1)
    ensures Escaped(old(z.Value())) ==> count == 0 && z.Value() == old(z.Value())
  {
    ghost var z0 := z.Value();
    count := 0;
    while true
      invariant count <= MaxIters
      invariant z.Value() == Orbit(jf, z0, c.Value(), count)
      invariant forall j :: 0 <= j < count ==> !Escaped(Orbit(jf, z0, c.Value(), j))
      decreases MaxIters - count
    {
      if !(Length2(z.Value()) < Threshold) {
        FirstEscapeIsEscapeTime(jf, z0, c.Value(), count);
        return;
      }
      var before := count;
      count := count + 1;
      if !(before < MaxIters) {
        NeverEscapesIsInterior(jf, z0, c.Value());
        return;
      }
      z.Set(Apply(jf, z.Value(), c.Value()));
    }
  }

  // ---------------------------------------------------------------------
  // From a count to a shade

  /** The precondition of flatten on the count the renderers pass it: the
      floor must fit a byte. */
  predicate FlattenDefined(count: nat)
  {
    0.0 <= count as real < 256.0
  }

  /** In random mode the view is centred on 0, and on every output size of
      the table (all have even dimensions) the pixel at (w/2, h/2) samples
      the origin in exact arithmetic.  The origin never escapes, so
      iterate_m returns 256 there and flatten receives a count outside its
      domain. */
  lemma RandomCentreBreaksFlatten(s: Settings, v: Byte, r: Byte, ir: real, ii: real, z: real, res: Resolution)
    requires r != 0 && s == MakeSettings(v, r, ir, ii, z, res)
    requires res.width % 2 == 0 && res.height % 2 == 0
    ensures PixelCoord(s.frame, res.width / 2, res.height / 2) == Origin
    ensures EscapeTime(ZSquared, Origin, PixelCoord(s.frame, res.width / 2, res.height / 2)) == MaxIters + 1
    ensures !FlattenDefined(EscapeTime(ZSquared, Origin, PixelCoord(s.frame, res.width / 2, res.height / 2)))
  {
    var f := s.frame;
    WalkIsLinear(f.topleftX, f.incRe, res.width / 2);
    WalkIsLinear(f.topleftY, f.incIm, res.height / 2);
    HalfGridIsCentre(f.topleftX, f.botrightX, f.incRe, res.width);
    HalfGridIsCentre(f.topleftY, f.botrightY, f.incIm, res.height);
    var p := PixelCoord(f, res.width / 2, res.height / 2);
    OriginNeverEscapes(Origin, p);
  }

  /** Half of n increments of (hi - lo)/n from lo reach the midpoint. */
  lemma HalfGridIsCentre(lo: real, hi: real, inc: real, n: int)
    requires n > 0 && n % 2 == 0 && lo == -hi && hi >= 0.0
    requires inc * n as real == Abs(lo - hi)
    ensures lo + (n / 2) as real * inc == 0.0
  {
    var m := n / 2;
    assert n as real == 2.0 * m as real;
    assert Abs(lo - hi) == 2.0 * hi;
    assert 2.0 * (m as real * inc) == 2.0 * hi;
  }

  /** The shade written for a count: counts 0..255 become the byte flatten
      computes for them, and the interior value 256, which flatten's cast
      to uint8_t cannot represent, wraps to 0, the byte a modular conversion
      yields. */
  function Shade(count: nat): (b: Byte)
    requires count <= MaxIters + 1
    ensures b == count % 256
    ensures FlattenDefined(count) ==> b == Flatten(count as real)
  {
    if count <= MaxIters then Flatten(count as real) else 0
  }

  // ---------------------------------------------------------------------
  // The pixel loops

  /** What mandelbrot writes for pixel (x, y): z starts at 0, c is the
      pixel's point, and the shade of the escape time goes out three times
      as raw bytes. */
  ghost function MandelPixel(f: Frame): (nat, nat) -> string
  {
    (x: nat, y: nat) => MandelBytes(f, x, y)
  }

  /** The shade of pixel (x, y): the escape time of z^2 + c from z = 0 with
      c the pixel's point, made a byte. */
  ghost function PixelShade(f: Frame, x: nat, y: nat): Byte
  {
    Shade(EscapeTime(ZSquared, Origin, PixelCoord(f, x, y)))
  }

  ghost function MandelBytes(f: Frame, x: nat, y: nat): string
  {
    Triple(PixelShade(f, x, y))
  }

  ghost function JuliaText(f: Frame, x: nat, y: nat): string
  {
    Dec(PixelShade(f, x, y)) + Dec(PixelShade(f, x, y)) + Dec(PixelShade(f, x, y))
  }

  /** What julia writes for pixel (x, y): the same shade, but held in a
      double, so each of the three writes is its decimal text. */
  ghost function JuliaPixel(f: Frame): (nat, nat) -> string
  {
    (x: nat, y: nat) => JuliaText(f, x, y)
  }

  /** mandelbrot: the header, then w h pixels row by row, each the raw
      shade byte written three times.  At the end of each row c goes back
      to the left edge by c.real = init_re; c += ybump. */
  method Mandelbrot(s: Settings) returns (out: string)
    ensures out == CreateImage(s.res.width, s.res.height) +
                   Scan(s.res.width, s.res.height, MandelPixel(s.frame))
  {
    out := MandelbrotRows(s.frame, s.res.width, s.res.height, CreateImage(s.res.width, s.res.height));
  }

  /** The rows of mandelbrot after the header: the cells are set up and the
      rows are written one after the other. */
  method MandelbrotRows(f: Frame, w: nat, h: nat, header: string) returns (out: string)
    ensures out == header + Scan(w, h, MandelPixel(f))
  {
    var initRe, initIm := f.topleftX, f.topleftY;
    var incRe, incIm := f.incRe, f.incIm;
    var z := new Cell.Make(0.0, 0.0);
    var c := new Cell.Make(initRe, initIm);
    var xbump := new Cell.Make(incRe, 0.0);
    var ybump := new Cell.Make(0.0, incIm);
    out := header;
    for y := 0 to h
      invariant c.Value() == PixelCoord(f, 0, y)
      invariant out == header + Scan(w, y, MandelPixel(f))
      invariant xbump.Value() == Cmp(incRe, 0.0) && ybump.Value() == Cmp(0.0, incIm)
      modifies z, c
    {
      out := MandelbrotRow(f, w, y, z, c, xbump, out);
      FinishRow(header, out, w, y, MandelPixel(f));
      NextRow(f, w, y, c, ybump);
    }
  }

  /** The start of each pixel in mandelbrot: z is reset to 0 and iterate_m
      counts against c, the pixel's point. */
  method MandelbrotCount(f: Frame, x: nat, y: nat, z: Cell, c: Cell) returns (i: nat)
    requires z != c && c.Value() == PixelCoord(f, x, y)
    modifies z
    ensures i == EscapeTime(ZSquared, Origin, PixelCoord(f, x, y))
  {
    z.re := 0.0;
    z.im := 0.0;
    i := IterateM(z, c);
  }

  /** The inner loop of mandelbrot, writing row y: z is reset to 0 for every
      pixel and c moves one pixel right by c += xbump. */
  method MandelbrotRow(f: Frame, w: nat, y: nat, z: Cell, c: Cell, xbump: Cell, out: string)
    returns (out': string)
    requires z != c && z != xbump && c != xbump
    requires c.Value() == PixelCoord(f, 0, y) && xbump.Value() == Cmp(f.incRe, 0.0)
    modifies z, c
    ensures out' == out + RowScan(w, y, MandelPixel(f))
    ensures c.Value() == PixelCoord(f, w, y)
  {
    out' := out;
    for x := 0 to w
      invariant c.Value() == PixelCoord(f, x, y)
      invariant out' == out + RowScan(x, y, MandelPixel(f))
    {
      var i := MandelbrotCount(f, x, y, z, c);
      var result := Shade(i);
      var written := [result as char] + [result as char] + [result as char];
      MandelPixelAt(f, x, y, i);
      AppendPixel(out, out', x, y, MandelPixel(f), written);
      out' := out' + written;
      NextColumn(f, x, y, xbump.re);
      c.AddAssign(xbump);
    }
  }

  /** julia: the same walk with the recurrence picked = z^2 + c, each
      pixel's shade written three times as decimal text. */
  method Julia(s: Settings) returns (out: string)
    ensures out == CreateImage(s.res.width, s.res.height) +
                   Scan(s.res.width, s.res.height, JuliaPixel(s.frame))
  {
    out := JuliaRows(s.frame, s.res.width, s.res.height, CreateImage(s.res.width, s.res.height));
  }

  /** The rows of julia after the header. */
  method JuliaRows(f: Frame, w: nat, h: nat, header: string) returns (out: string)
    ensures out == header + Scan(w, h, JuliaPixel(f))
  {
    var initRe, initIm := f.topleftX, f.topleftY;
    var incRe, incIm := f.incRe, f.incIm;
    var z := new Cell.Make(0.0, 0.0);
    var c := new Cell.Make(initRe, initIm);
    var xbump := new Cell.Make(incRe, 0.0);
    var ybump := new Cell.Make(0.0, incIm);
    var picked := ZSquared;
    out := header;
    for y := 0 to h
      invariant c.Value() == PixelCoord(f, 0, y)
      invariant out == header + Scan(w, y, JuliaPixel(f))
      invariant xbump.Value() == Cmp(incRe, 0.0) && ybump.Value() == Cmp(0.0, incIm)
      modifies z, c
    {
      out := JuliaRow(f, w, y, z, c, xbump, picked, out);
      FinishRow(header, out, w, y, JuliaPixel(f));
      NextRow(f, w, y, c, ybump);
    }
  }

  /** The start of each pixel in julia: z is reset to 0 and iterate_j
      counts against c, the pixel's point. */
  method JuliaCount(f: Frame, x: nat, y: nat, z: Cell, c: Cell, picked: IterFn) returns (i: nat)
    requires z != c && c.Value() == PixelCoord(f, x, y) && picked == ZSquared
    modifies z
    ensures i == EscapeTime(ZSquared, Origin, PixelCoord(f, x, y))
  {
    z.re := 0.0;
    z.im := 0.0;
    i := IterateJ(z, c, picked);
  }

  /** The inner loop of julia, writing row y: z is reset to 0 for every
      pixel and c moves one pixel right by c += xbump. */
  method JuliaRow(f: Frame, w: nat, y: nat, z: Cell, c: Cell, xbump: Cell, picked: IterFn, out: string)
    returns (out': string)
    requires z != c && z != xbump && c != xbump
    requires c.Value() == PixelCoord(f, 0, y) && xbump.Value() == Cmp(f.incRe, 0.0) && picked == ZSquared
    modifies z, c
    ensures out' == out + RowScan(w, y, JuliaPixel(f))
    ensures c.Value() == PixelCoord(f, w, y)
  {
    out' := out;
    for x := 0 to w
      invariant c.Value() == PixelCoord(f, x, y)
      invariant out' == out + RowScan(x, y, JuliaPixel(f))
    {
      var i := JuliaCount(f, x, y, z, c, picked);
      var result := Shade(i);
      var written := Dec(result) + Dec(result) + Dec(result);
      JuliaPixelAt(f, x, y, i);
      AppendPixel(out, out', x, y, JuliaPixel(f), written);
      out' := out' + written;
      NextColumn(f, x, y, xbump.re);
      c.AddAssign(xbump);
    }
  }

  /** The bytes of pixel (x, y) for the count iterate_m returns there. */
  lemma MandelPixelAt(f: Frame, x: nat, y: nat, i: nat)
    requires i == EscapeTime(ZSquared, Origin, PixelCoord(f, x, y))
    ensures MandelPixel(f)(x, y) == [Shade(i) as char] + [Shade(i) as char] + [Shade(i) as char]
  {
    assert MandelPixel(f)(x, y) == Triple(Shade(i));
  }

  /** The text of pixel (x, y) for the count iterate_j returns there. */
  lemma JuliaPixelAt(f: Frame, x: nat, y: nat, i: nat)
    requires i == EscapeTime(ZSquared, Origin, PixelCoord(f, x, y))
    ensures JuliaPixel(f)(x, y) == Dec(Shade(i)) + Dec(Shade(i)) + Dec(Shade(i))
  {
  }

  /** One xbump moves the sampled point one pixel to the right. */
  lemma NextColumn(f: Frame, x: nat, y: nat, incRe: real)
    requires incRe == f.incRe
    ensures Add(PixelCoord(f, x, y), Cmp(incRe, 0.0)) == PixelCoord(f, x + 1, y)
  {
  }

  /** The end of each row in both renderers: c.real = init_re; c += ybump
      takes c from the end of row y to the start of row y + 1. */
  method NextRow(f: Frame, w: nat, y: nat, c: Cell, ybump: Cell)
    requires c != ybump && c.Value() == PixelCoord(f, w, y) && ybump.Value() == Cmp(0.0, f.incIm)
    modifies c
    ensures c.Value() == PixelCoord(f, 0, y + 1)
  {
    c.re := f.topleftX;
    c.AddAssign(ybump);
  }

  // ---------------------------------------------------------------------
  // What the streams contain

  /** The mandelbrot stream is the header followed by exactly 3 w h bytes. */
  lemma MandelbrotStreamLength(s: Settings, out: string)
    requires out == CreateImage(s.res.width, s.res.height) + Scan(s.res.width, s.res.height, MandelPixel(s.frame))
    ensures |out| == |CreateImage(s.res.width, s.res.height)| + 3 * (s.res.height * s.res.width)
  {
    var w, h, px := s.res.width, s.res.height, MandelPixel(s.frame);
    forall x', y' | 0 <= x' < w && 0 <= y' < h
      ensures |px(x', y')| == 3
    {
    }
    ScanLength(w, h, px);
    RowStartIsProduct(w, h);
  }

  /** In the mandelbrot stream pixel (x, y) is the three equal bytes of its
      shade, at offset RowStart(w, y) + 3 x = 3 (y w + x) after the header. */
  lemma MandelbrotStreamPixel(s: Settings, out: string, x: nat, y: nat)
    requires out == CreateImage(s.res.width, s.res.height) + Scan(s.res.width, s.res.height, MandelPixel(s.frame))
    requires x < s.res.width && y < s.res.height
    ensures RowStart(s.res.width, y) == 3 * (y * s.res.width)
    ensures var o := |CreateImage(s.res.width, s.res.height)| + RowStart(s.res.width, y) + 3 * x;
            o + 3 <= |out| &&
            out[o..o + 3] == Triple(Shade(EscapeTime(ZSquared, Origin, PixelCoord(s.frame, x, y))))
  {
    var w, h, px := s.res.width, s.res.height, MandelPixel(s.frame);
    forall x', y' | 0 <= x' < w && 0 <= y' < h
      ensures |px(x', y')| == 3
    {
    }
    RowStartIsProduct(w, y);
    var hd := CreateImage(w, h);
    StreamPixel(hd, w, h, px, x, y, |hd| + RowStart(w, y) + 3 * x);
  }

  /** julia shades every pixel exactly as mandelbrot does; it only writes
      the shade b as decimal text instead of a raw byte. */
  lemma JuliaWritesMandelbrotShadesAsText(f: Frame, x: nat, y: nat, b: Byte)
    requires MandelPixel(f)(x, y) == Triple(b)
    ensures JuliaPixel(f)(x, y) == Dec(b) + Dec(b) + Dec(b)
  {
    assert Triple(PixelShade(f, x, y)) == Triple(b);
    assert Triple(b)[0] as int == b;
  }
}
