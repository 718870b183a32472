/**
  The viewport: from a centre point, a zoom and an output resolution to
  the rectangle of the complex plane that is rendered and the step between
  neighbouring pixels.  Both Settings constructors do this arithmetic; the
  renderer's one also forces a fixed view in random mode, and the
  render-settings one also keeps the gradient anchors of a colour map.
*/
module Viewport {
  import opened Complex
  import opened Colors
  import opened Resolutions

  /** fabs. */
  function Abs(x: real): (r: real)
    ensures r >= 0.0 && (r == x || r == -x)
  {
    if x < 0.0 then -x else x
  }

  /** The viewport fields of a Settings object. */
  datatype Frame = Frame(spanX: real, spanY: real,
                         topleftX: real, topleftY: real,
                         botrightX: real, botrightY: real,
                         incRe: real, incIm: real)

  /** The viewport of centre (cr, ci) at the given zoom for a w by h output.
      The zoom is a divisor, so it must not be zero. */
  function MakeFrame(cr: real, ci: real, zoom: real, res: Resolution): (f: Frame)
    requires zoom != 0.0
    ensures 2.0 * f.spanY == 1.0 / zoom
    ensures f.spanX == (res.width as real / res.height as real) * f.spanY
    ensures f.botrightY - f.topleftY == 1.0 / zoom
    ensures f.botrightX - f.topleftX == (res.width as real / res.height as real) * (f.botrightY - f.topleftY)
    ensures (f.topleftX + f.botrightX) / 2.0 == cr && (f.topleftY + f.botrightY) / 2.0 == ci
    ensures f.incRe * res.width as real == Abs(f.botrightX - f.topleftX)
    ensures f.incIm * res.height as real == Abs(f.botrightY - f.topleftY)
    ensures zoom > 0.0 ==> f.incRe > 0.0 && f.incIm > 0.0
  {
    var w := res.width as real;
    var h := res.height as real;
    var spanX := ((w / h) * 0.5) * (1.0 / zoom);
    var spanY := 0.5 * (1.0 / zoom);
    var topleftX := cr - spanX;
    var topleftY := ci - spanY;
    var botrightX := cr + spanX;
    var botrightY := ci + spanY;
    FrameFacts(w, h, zoom);
    Frame(spanX, spanY, topleftX, topleftY, botrightX, botrightY,
          Abs(topleftX - botrightX) * (1.0 / w), Abs(topleftY - botrightY) * (1.0 / h))
  }

  /** The arithmetic facts behind MakeFrame's contract. */
  lemma FrameFacts(w: real, h: real, zoom: real)
    requires w > 0.0 && h > 0.0 && zoom != 0.0
    ensures 2.0 * (0.5 * (1.0 / zoom)) == 1.0 / zoom
    ensures 2.0 * (((w / h) * 0.5) * (1.0 / zoom)) == (w / h) * (1.0 / zoom)
    ensures (1.0 / w) * w == 1.0 && (1.0 / h) * h == 1.0
    ensures zoom > 0.0 ==> 1.0 / zoom > 0.0 && w / h > 0.0
    ensures zoom > 0.0 ==> ((w / h) * 0.5) * (1.0 / zoom) > 0.0
  {
    if zoom > 0.0 {
      PositiveProduct(w / h, 0.5);
      PositiveProduct((w / h) * 0.5, 1.0 / zoom);
    }
  }

  /** The coordinate reached from start after n steps of inc, in the order
      the renderers add them (one increment per pixel). */
  function Walk(start: real, inc: real, n: nat): real
  {
    if n == 0 then start else Walk(start, inc, n - 1) + inc
  }

  /** With exact arithmetic the n steps add up to n times the increment. */
  lemma {:induction false} WalkIsLinear(start: real, inc: real, n: nat)
    ensures Walk(start, inc, n) == start + n as real * inc
  {
    if n > 0 {
      WalkIsLinear(start, inc, n - 1);
      assert n as real * inc == (n - 1) as real * inc + inc;
    }
  }

  /** The point that pixel (x, y) samples: the top-left corner moved by x
      horizontal and y vertical increments. */
  function PixelCoord(f: Frame, x: nat, y: nat): Cmp
  {
    Cmp(Walk(f.topleftX, f.incRe, x), Walk(f.topleftY, f.incIm, y))
  }

  /** For a positive zoom the pixel grid starts at the top-left corner and
      its far edge, w columns and h rows on, is the bottom-right corner. */
  lemma PixelGridSpansFrame(cr: real, ci: real, zoom: real, res: Resolution)
    requires zoom > 0.0
    ensures PixelCoord(MakeFrame(cr, ci, zoom, res), 0, 0) ==
            Cmp(MakeFrame(cr, ci, zoom, res).topleftX, MakeFrame(cr, ci, zoom, res).topleftY)
    ensures PixelCoord(MakeFrame(cr, ci, zoom, res), res.width, res.height) ==
            Cmp(MakeFrame(cr, ci, zoom, res).botrightX, MakeFrame(cr, ci, zoom, res).botrightY)
  {
    var f := MakeFrame(cr, ci, zoom, res);
    WalkIsLinear(f.topleftX, f.incRe, res.width);
    WalkIsLinear(f.topleftY, f.incIm, res.height);
    assert f.botrightX - f.topleftX > 0.0 by {
      PositiveProduct(res.width as real / res.height as real, f.botrightY - f.topleftY);
    }
  }

  // ---------------------------------------------------------------------
  // The renderer's settings

  /** A Settings object of the renderers. */
  datatype Settings = Settings(verbose: Byte, random: Byte,
                               initReal: real, initImag: real, zoom: real,
                               res: Resolution, frame: Frame)

  /** The renderers' Settings constructor.  In random mode (r != 0) the
      centre is forced to 0 and the zoom to 1, whatever was passed in;
      otherwise the arguments are kept.  The viewport is then computed from
      what was kept. */
  function MakeSettings(v: Byte, r: Byte, ir: real, ii: real, z: real, res: Resolution): (s: Settings)
    requires r != 0 || z != 0.0
    ensures r == 0 ==> s.initReal == ir && s.initImag == ii && s.zoom == z
    ensures r != 0 ==> s.initReal == 0.0 && s.initImag == 0.0 && s.zoom == 1.0
    ensures s.verbose == v && s.random == r && s.res == res
    ensures s.frame == MakeFrame(s.initReal, s.initImag, s.zoom, res)
  {
    var (cr, ci, zoom) := if r == 0 then (ir, ii, z) else (0.0, 0.0, 1.0);
    Settings(v, r, cr, ci, zoom, res, MakeFrame(cr, ci, zoom, res))
  }

  /** In random mode the view does not depend on the centre and zoom given. */
  lemma RandomModeIgnoresView(v: Byte, r: Byte, ir: real, ii: real, z: real,
                              ir': real, ii': real, z': real, res: Resolution)
    requires r != 0
    ensures MakeSettings(v, r, ir, ii, z, res) == MakeSettings(v, r, ir', ii', z', res)
  {
  }

  // ---------------------------------------------------------------------
  // The render-settings variant

  /** A Settings object of the render-settings header: no random override,
      and the two anchors of the colour map its gradient is built from. */
  datatype RenderSettings = RenderSettings(verbose: Byte, random: Byte,
                                           initReal: real, initImag: real, zoom: real,
                                           res: Resolution, left: Color, right: Color,
                                           frame: Frame)

  /** That constructor: the centre and the zoom are stored as given even in
      random mode, and the viewport is computed from them. */
  function MakeRenderSettings(v: Byte, r: Byte, ir: real, ii: real, z: real,
                              res: Resolution, cmap: Colormap): (s: RenderSettings)
    requires z != 0.0
    ensures s.initReal == ir && s.initImag == ii && s.zoom == z
    ensures s.verbose == v && s.random == r && s.res == res
    ensures s.left == cmap.color1 && s.right == cmap.color2
    ensures s.frame == MakeFrame(ir, ii, z, res)
  {
    RenderSettings(v, r, ir, ii, z, res, cmap.color1, cmap.color2, MakeFrame(ir, ii, z, res))
  }

  /** With random mode off the two constructors compute the same view. */
  lemma ConstructorsAgreeWithoutRandom(v: Byte, ir: real, ii: real, z: real,
                                       res: Resolution, cmap: Colormap)
    requires z != 0.0
    ensures MakeSettings(v, 0, ir, ii, z, res).frame == MakeRenderSettings(v, 0, ir, ii, z, res, cmap).frame
  {
  }
}
