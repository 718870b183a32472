/**
  The stand-alone renderer: z^3 + c iterated from the fixed start
  z0 = -0.8 + 0.156i for every pixel, c being the pixel's point, with the
  same cap of 255 steps, written as a raw PPM like the library's mandelbrot.
*/
module MandelbrotProgram {
  import opened Complex
  import opened Functions
  import opened Escape
  import opened Colors
  import opened Netpbm
  import opened Viewport
  import opened Rendering

  /** The comment line render_image writes. */
  const Comment: string := "#This is a mandelbrot image"

  /** The start of every orbit: init_zx = -0.8, init_zy = 0.156. */
  const Seed: Cmp := Cmp(-0.8, 0.156)

  /** The header render_image writes for a w by h image. */
  function ImageHeader(w: nat, h: nat): (r: string)
    ensures ReadHeader(r) == Some(HeaderInfo(Comment, w, h, |r|))
  {
    assert forall i :: 0 <= i < |Comment| ==> Comment[i] != '\n';
    Header(Comment, w, h)
  }

  /** The header reads back as that comment and those dimensions, and the
      payload starts right after it. */
  lemma ImageHeaderReadsBack(w: nat, h: nat, payload: string)
    ensures ReadHeader(ImageHeader(w, h) + payload) ==
            Some(HeaderInfo(Comment, w, h, |ImageHeader(w, h)|))
  {
    assert forall i :: 0 <= i < |Comment| ==> Comment[i] != '\n';
    HeaderRoundTrip(Comment, w, h, payload);
  }

  /** iterate: z = (z*z*z) + c while length2(z) < 4 and count++ < 255.  The
      count is the escape time of the z^3 + c orbit from z, and z is left at
      the orbit element where the loop stopped. */
  method Iterate(z: Cell, c: Cell) returns (count: nat)
    requires z != c
    modifies z
    ensures count == EscapeTime(ZCubed, old(z.Value()), c.Value())
    ensures z.Value() == Orbit(ZCubed, old(z.Value()), c.Value(), if count <= MaxIters then count else count - 1)
    ensures Escaped(old(z.Value())) ==> count == 0 && z.Value() == old(z.Value())
  {
    ghost var z0 := z.Value();
    count := 0;
    while true
      invariant count <= MaxIters
      invariant z.Value() == Orbit(ZCubed, z0, c.Value(), count)
      invariant forall j :: 0 <= j < count ==> !Escaped(Orbit(ZCubed, z0, c.Value(), j))
      decreases MaxIters - count
    {
      if !(Length2(z.Value()) < Threshold) {
        FirstEscapeIsEscapeTime(ZCubed, z0, c.Value(), count);
        return;
      }
      var before := count;
      count := count + 1;
      if !(before < MaxIters) {
        NeverEscapesIsInterior(ZCubed, z0, c.Value());
        return;
      }
      z.Set(Add(Mul(Mul(z.Value(), z.Value()), z.Value()), c.Value()));
    }
  }

  /** The shade of pixel (x, y): the escape time of z^3 + c from the seed
      with c the pixel's point, made a byte. */
  ghost function CubicShade(f: Frame, x: nat, y: nat): Byte
  {
    Shade(EscapeTime(ZCubed, Seed, PixelCoord(f, x, y)))
  }

  ghost function CubicBytes(f: Frame, x: nat, y: nat): string
  {
    Triple(CubicShade(f, x, y))
  }

  /** What render_image writes for pixel (x, y): its shade three times as
      raw bytes. */
  ghost function CubicPixel(f: Frame): (nat, nat) -> string
  {
    (x: nat, y: nat) => CubicBytes(f, x, y)
  }

  /** render_image: the header, then w h pixels row by row; at the end of
      each row c goes back to the left edge by c.real = init_re; c += ybump. */
  method RenderImage(s: Settings) returns (out: string)
    ensures out == ImageHeader(s.res.width, s.res.height) +
                   Scan(s.res.width, s.res.height, CubicPixel(s.frame))
  {
    out := RenderRows(s.frame, s.res.width, s.res.height, ImageHeader(s.res.width, s.res.height));
  }

  /** The rows of render_image after the header. */
  method RenderRows(f: Frame, w: nat, h: nat, header: string) returns (out: string)
    ensures out == header + Scan(w, h, CubicPixel(f))
  {
    var initRe, initIm := f.topleftX, f.topleftY;
    var incRe, incIm := f.incRe, f.incIm;
    var z := new Cell.Make(0.0, 0.0);
    var c := new Cell.Make(initRe, initIm);
    var xbump := new Cell.Make(incRe, 0.0);
    var ybump := new Cell.Make(0.0, incIm);
    out := header;
    for y := 0 to h
      invariant c.Value() == PixelCoord(f, 0, y)
      invariant out == header + Scan(w, y, CubicPixel(f))
      invariant xbump.Value() == Cmp(incRe, 0.0) && ybump.Value() == Cmp(0.0, incIm)
      modifies z, c
    {
      out := RenderRow(f, w, y, z, c, xbump, out);
      FinishRow(header, out, w, y, CubicPixel(f));
      NextRow(f, w, y, c, ybump);
    }
  }

  /** The start of each pixel: z is set to the seed and iterate counts
      against c, the pixel's point. */
  method PixelCount(f: Frame, x: nat, y: nat, z: Cell, c: Cell) returns (i: nat)
    requires z != c && c.Value() == PixelCoord(f, x, y)
    modifies z
    ensures i == EscapeTime(ZCubed, Seed, PixelCoord(f, x, y))
  {
    z.re := -0.8;
    z.im := 0.156;
    i := Iterate(z, c);
  }

  /** The inner loop of render_image, writing row y: z restarts from the
      seed for every pixel and c moves one pixel right by c += xbump. */
  method RenderRow(f: Frame, w: nat, y: nat, z: Cell, c: Cell, xbump: Cell, out: string)
    returns (out': string)
    requires z != c && z != xbump && c != xbump
    requires c.Value() == PixelCoord(f, 0, y) && xbump.Value() == Cmp(f.incRe, 0.0)
    modifies z, c
    ensures out' == out + RowScan(w, y, CubicPixel(f))
    ensures c.Value() == PixelCoord(f, w, y)
  {
    out' := out;
    for x := 0 to w
      invariant c.Value() == PixelCoord(f, x, y)
      invariant out' == out + RowScan(x, y, CubicPixel(f))
    {
      var i := PixelCount(f, x, y, z, c);
      var result := Shade(i);
      var written := [result as char] + [result as char] + [result as char];
      CubicPixelAt(f, x, y, i);
      AppendPixel(out, out', x, y, CubicPixel(f), written);
      out' := out' + written;
      NextColumn(f, x, y, xbump.re);
      c.AddAssign(xbump);
    }
  }

  /** The bytes of pixel (x, y) for the count iterate returns there. */
  lemma CubicPixelAt(f: Frame, x: nat, y: nat, i: nat)
    requires i == EscapeTime(ZCubed, Seed, PixelCoord(f, x, y))
    ensures CubicPixel(f)(x, y) == [Shade(i) as char] + [Shade(i) as char] + [Shade(i) as char]
  {
    assert CubicPixel(f)(x, y) == Triple(Shade(i));
  }

  /** The image is the header followed by exactly 3 w h bytes. */
  lemma ImageLength(s: Settings, out: string)
    requires out == ImageHeader(s.res.width, s.res.height) + Scan(s.res.width, s.res.height, CubicPixel(s.frame))
    ensures |out| == |ImageHeader(s.res.width, s.res.height)| + 3 * (s.res.height * s.res.width)
  {
    var w, h, px := s.res.width, s.res.height, CubicPixel(s.frame);
    forall x', y' | 0 <= x' < w && 0 <= y' < h
      ensures |px(x', y')| == 3
    {
    }
    ScanLength(w, h, px);
    RowStartIsProduct(w, h);
  }

  /** Pixel (x, y) of the image is the three equal bytes of its shade, at
      offset RowStart(w, y) + 3 x = 3 (y w + x) after the header. */
  lemma ImagePixel(s: Settings, out: string, x: nat, y: nat)
    requires out == ImageHeader(s.res.width, s.res.height) + Scan(s.res.width, s.res.height, CubicPixel(s.frame))
    requires x < s.res.width && y < s.res.height
    ensures RowStart(s.res.width, y) == 3 * (y * s.res.width)
    ensures var o := |ImageHeader(s.res.width, s.res.height)| + RowStart(s.res.width, y) + 3 * x;
            o + 3 <= |out| &&
            out[o..o + 3] == Triple(Shade(EscapeTime(ZCubed, Seed, PixelCoord(s.frame, x, y))))
  {
    var w, h, px := s.res.width, s.res.height, CubicPixel(s.frame);
    forall x', y' | 0 <= x' < w && 0 <= y' < h
      ensures |px(x', y')| == 3
    {
    }
    RowStartIsProduct(w, y);
    var hd := ImageHeader(w, h);
    StreamPixel(hd, w, h, px, x, y, |hd| + RowStart(w, y) + 3 * x);
  }
}
