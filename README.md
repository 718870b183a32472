# mandelpp in Dafny

This project models mandelpp, a small C++ fractal renderer. mandelpp
samples a rectangle of the complex plane, runs an escape-time iteration at
every pixel and writes the result as a binary Netpbm PPM ("P6") image.
The model covers:

- the complex value class `Cmp`;
- the escape-time iterators `iterate_m`, `iterate_j` and `iterate`;
- the viewport arithmetic of the two `Settings` constructors;
- the pixel loops that build the image stream: `create_image`,
  `mandelbrot` and `julia` of the rendering library, and `render_image`
  of the stand-alone renderer;
- the colour helpers `lerp`, `flatten` and `Gradient`;
- the table of iteration functions;
- the decisions of the three option parsers: name lookup, the zoom check
  and the random-mode override.

C++ `double` is idealised as Dafny `real`, so every property is an exact
identity over the reals. The iteration counter is a `double` in mandelpp.
It only ever holds the integers 0..256, so it is a `nat` here.

How mandelpp's forms are modelled:

- Things mandelpp mutates in place are classes with `modifies` clauses:
  - the fields of `Cmp` under `+= -= *= /=` and assignment (`Complex.Cell`);
  - the colour storage a `Gradient` writes (`Colors.ColorCell`).
- Loops are methods with invariants. Each is proved against a
  specification function:
  - `Escape.EscapeTime` for the iterators;
  - `Netpbm.Scan` for the pixel loops;
  - `Options.Run` for the getopt loops.
- Pure code is datatypes, functions and lemmas.

The output stream is a `string`, and each raw byte is a `char` in 0..255.

Modules:

- `Complex`: `Cmp` values and the in-place `Cell`.
- `Functions`: the recurrences z^2 + c and z^3 + c, and their table.
- `Escape`: orbits, and the escape time a capped loop reports.
- `Colors`: lerp, flatten, the colour maps and `Gradient`.
- `Resolutions`: the 23 output sizes.
- `Viewport`: the `Settings` constructors.
- `Netpbm`: decimal text, the header and its reader, and the layout of the
  pixel payload.
- `Rendering`: `create_image`, `iterate_m`, `iterate_j`, `mandelbrot` and
  `julia`.
- `MandelbrotProgram`: `iterate` and `render_image` of the stand-alone
  renderer.
- `Options`: the parsers `mparse`, `jparse` and `get_render_settings`.

Pixel coordinates are defined by repeated addition (`Viewport.Walk`), the
way the loops compute them with `c += xbump` and `c += ybump`.
`Viewport.WalkIsLinear` shows that over the reals this equals the closed
form `topleft + n * inc`.

## Model

| member | source | states |
|---|---|---|
| Complex.Length2 | src/complex.cpp:253-256 | length2 is nonnegative and zero exactly at (0, 0) |
| Complex.Add | src/complex.cpp:142-149 | (0, 0) is the identity of + on either side |
| Complex.Sub | src/complex.cpp:151-157 | a - b is (0, 0) if and only if a = b |
| Complex.SubUndoesAdd | src/complex.cpp:142-157 | componentwise - undoes + |
| Complex.AddUndoesSub | src/complex.cpp:142-157 | componentwise + undoes - |
| Complex.MulByOne | src/complex.cpp:163-169 | (1, 0) is the identity of * on either side |
| Complex.MulByOrigin | src/complex.cpp:163-169 | (0, 0) annihilates under * on either side |
| Complex.MulSelf | src/complex.cpp:163-169 | z * z = (re^2 - im^2, 2 re im) |
| Complex.Length2OfMul | src/complex.cpp:163-169 | the product formula is multiplicative in length2: length2(a b) = length2(a) length2(b) |
| Complex.Div | src/complex.cpp:176-183 | for b != 0, (a / b) * b = a: division by the denominator re^2 + im^2 inverts multiplication; a value divided by itself is (1, 0) |
| Complex.Conjugate | src/complex.cpp:238-244 | z + conjugate(z) = (0, 0) |
| Complex.ConjugateIsNegation | src/complex.cpp:238-244 | conjugate negates both parts: it is the additive inverse, is its own inverse, keeps length2, and (for re != 0) differs from the true conjugate |
| Complex.Cell.Default | src/complex.cpp:110-115 | Cmp() holds (0, 0) |
| Complex.Cell.Splat | src/complex.cpp:121-125 | Cmp(v) holds (v, v) |
| Complex.Cell.Make | src/complex.cpp:130-134 | Cmp(r, i) holds (r, i) |
| Complex.Cell.Set | src/rendering.cpp:67 | assignment z = v leaves z holding v |
| Complex.Cell.AddAssign | src/complex.cpp:189-194 | z += w leaves z holding old z + old w, also when w is z |
| Complex.Cell.SubAssign | src/complex.cpp:200-205 | z -= w leaves z holding old z - old w, also when w is z |
| Complex.Cell.MulAssign | src/complex.cpp:211-218 | z *= w equals z * w on the old values, including z *= z, because the new real part is staged |
| Complex.Cell.DivAssign | src/complex.cpp:224-232 | z /= w equals z / w on the old values, and z /= z gives (1, 0) |
| Functions.SquaredClosedForm | src/functions.cpp:9-12 | _z_squared(z, c) = (re^2 - im^2 + c.re, 2 re im + c.im) |
| Functions.CubedClosedForm | src/functions.cpp:15-18 | _z_cubed(z, c) = (re^3 - 3 re im^2 + c.re, 3 re^2 im - im^3 + c.im) |
| Functions.Squared | src/functions.cpp:9-12 | _z_squared started at z = 0 returns c |
| Functions.Cubed | src/functions.cpp:15-18 | _z_cubed started at z = 0 returns c |
| Functions.Apply | src/functions.cpp:9-24 | a call through either table entry started at z = 0 returns c |
| Functions.TableOrder | src/functions.cpp:20-24 | the table `all` has two entries: index 0 is z^2 + c and index 1 is z^3 + c |
| Escape.EscapeTime | src/rendering.cpp:48-53 | the reported count is at most 256; a count k <= 255 is the first orbit index that escapes; 256 exactly when none of indices 0..255 escapes |
| Escape.FirstEscapeIsEscapeTime | src/rendering.cpp:48-53 | conversely, the first escaping index k <= 255 is the count |
| Escape.NeverEscapesIsInterior | src/rendering.cpp:48-53 | conversely, an orbit with no escape among indices 0..255 gives 256 |
| Escape.EscapedStartGivesZero | src/rendering.cpp:48 | a start value with length2 >= 4 gives count 0 |
| Escape.OriginIsFixed | src/functions.cpp:9-12 | with z = 0 and c = 0, every z^2 + c orbit element is 0 |
| Escape.OriginNeverEscapes | src/rendering.cpp:48-53 | z = 0, c = 0 never escapes and gives 256 |
| Colors.Lerp | src/include/colors.h:50-53 | lerp(a, b, 0) = a, lerp(a, b, 1) = b, lerp(a, a, t) = a, and for t in [0, 1] the result lies between a and b (the same formula as src/colors.cpp:29-32 and src/include/utils.h:145-148) |
| Colors.LerpWithin | src/include/colors.h:50-53 | for t in [0, 1], (1 - t) a + t b lies between a and b, in either order |
| Colors.Flatten | src/include/colors.h:58-61 | for 0 <= x < 256, flatten(x) is the byte floor(x): flatten(x) <= x < flatten(x) + 1 (also src/colors.cpp:38-41 and src/include/utils.h:434-437) |
| Colors.ColormapsInByteRange | src/include/colors.h:39-44 | the table has COLORMAP_COUNT = 3 entries, and every anchor channel is in [0, 255] |
| Colors.RenderColormapsInByteRange | src/include/utils.h:63-67 | the older table has the same three names in the same order, and every anchor channel is in [0, 255] |
| Colors.Mix | src/include/colors.h:91-93 | the channel-wise lerp is the first colour at t = 0 and the second at t = 1, and lies between them channel by channel for t in [0, 1] |
| Colors.LerpOfLerps | src/include/colors.h:104-106 | a lerp between two lerps of the same end points is the lerp of those end points at the lerp of the fractions |
| Colors.FractionStep | src/include/colors.h:102-103 | mixing x/n and (x+1)/n with weight p gives (x+p)/n |
| Colors.Picked | src/include/colors.h:88-94 | pick(0, n) = left, pick(n, n) = right, and for 0 <= x <= n the colour lies between the anchors |
| Colors.Interpolated | src/include/colors.h:100-107 | interp(x, n, p) is the pick at index x + p: pick(x) for p = 0 and pick(x + 1) for p = 1 |
| Colors.InterpContinuous | src/include/colors.h:100-107 | interp at (x, p = 1) equals interp at (x + 1, p = 0) |
| Colors.InlinePickIsPicked | src/include/utils.h:176-182 | the inline formula of the render-settings Gradient::pick is the lerp-based pick |
| Colors.Gradient.constructor | src/include/colors.h:76 | the gradient keeps the two anchors it is given |
| Colors.Gradient.Reset | src/include/colors.h:78-83 | reset sets all three channels of the storage to 0 |
| Colors.Gradient.Pick | src/include/colors.h:88-94 | pick writes Picked(left, right, x, n) into the storage and nothing else; the anchors stay as they were |
| Colors.Gradient.Interp | src/include/colors.h:100-107 | interp writes Interpolated(left, right, x, n, p) into the storage and nothing else |
| Resolutions.TableIsLandscape | src/resolutions.cpp:12-44 | the table has RESOLUTION_COUNT = 23 entries, each wider than it is tall |
| Viewport.Abs | src/opts.cpp:143-144 | fabs(x) is nonnegative and is x or -x |
| Viewport.MakeFrame | src/opts.cpp:135-144 | span_y = 0.5/zoom and span_x = (w/h) span_y; vertical extent 1/zoom; horizontal extent w/h times the vertical one; corners centred on the point; inc_re w and inc_im h equal the extents; both increments positive for zoom > 0 |
| Viewport.WalkIsLinear | src/rendering.cpp:109-112 | n repeated additions of inc reach start + n inc |
| Viewport.PixelGridSpansFrame | src/opts.cpp:139-144 | for zoom > 0, pixel (0, 0) samples the top-left corner and pixel (w, h) the bottom-right corner |
| Viewport.MakeSettings | src/opts.cpp:115-145 | random == 0 keeps the given centre and zoom; random != 0 forces centre (0, 0) and zoom 1; the viewport is computed from what was kept |
| Viewport.RandomModeIgnoresView | src/opts.cpp:121-133 | in random mode the Settings do not depend on the centre and zoom passed in |
| Viewport.MakeRenderSettings | src/include/utils.h:221-245 | the render-settings constructor stores centre and zoom unconditionally, keeps the colour map's two anchors, and computes the same viewport |
| Viewport.ConstructorsAgreeWithoutRandom | src/include/utils.h:224-244 | with random mode off, both constructors compute the same viewport |
| Netpbm.Dec | src/rendering.cpp:37 | the ostream text of an unsigned integer is a nonempty digit string without a leading zero |
| Netpbm.DecRoundTrip | src/rendering.cpp:37 | reading back the decimal text of n gives n |
| Netpbm.DecInjective | src/rendering.cpp:37 | distinct numbers have distinct decimal text |
| Netpbm.ReadHeader | src/rendering.cpp:35-38 | a header reader, the partner of the writers: a successful read starts with "P6\n" and ends within its input |
| Netpbm.Header | src/rendering.cpp:35-38 | for a one-line comment, the header reads back as that comment, w and h, with the payload at its end |
| Netpbm.HeaderRoundTrip | src/rendering.cpp:35-38 | for any one-line comment, the header "P6\n" comment "\n" w " " h "\n255\n" followed by any payload reads back as that comment, w and h, with the payload starting right after the header |
| Netpbm.HeaderTextRoundTrip | src/rendering.cpp:35-38 | the same round trip for any nonempty digit strings as the dimensions |
| Netpbm.Triple | src/rendering.cpp:108 | a pixel is three equal bytes, each the shade |
| Netpbm.AppendPixel | src/rendering.cpp:108 | writing pixel x after the first x pixels of a row gives the first x + 1 pixels |
| Netpbm.FinishRow | src/rendering.cpp:98-113 | a completed row appended to the first y rows gives the first y + 1 rows |
| Netpbm.RowStartIsProduct | src/rendering.cpp:98-113 | row y starts 3 y w bytes into the payload |
| Netpbm.RowScanLayout | src/rendering.cpp:100-110 | a row of 3-byte pixels has 3 w bytes, with pixel x at bytes 3x..3x+2 |
| Netpbm.ScanLength | src/rendering.cpp:98-113 | a payload of h rows of 3-byte pixels has 3 w h bytes |
| Netpbm.ScanPixel | src/rendering.cpp:98-113 | in row-major order, pixel (x, y) sits at bytes 3 (y w + x)..+2 of the payload |
| Netpbm.StreamPixel | src/rendering.cpp:98-113 | the same after any header |
| Rendering.CommentIsOneLine | src/rendering.cpp:36 | the comment create_image writes contains no newline |
| Rendering.CreateImage | src/rendering.cpp:30-41 | the header create_image writes reads back as "#This is a comment" and the dimensions w and h |
| Rendering.CreateImageReadsBack | src/rendering.cpp:30-41 | the header create_image writes reads back as its comment and the image dimensions, with the payload starting right after it |
| Rendering.IterateM | src/rendering.cpp:43-57 | iterate_m returns the escape time of z^2 + c from z; z ends at the orbit element where the loop stopped (element 255 for interior points); an already escaped z returns 0 and is left untouched |
| Rendering.IterateJ | src/rendering.cpp:59-73 | iterate_j has the same contract for the recurrence jf |
| Rendering.Shade | src/rendering.cpp:107 | the corrected shade is count mod 256: flatten(count) for 0..255, and 0 for the interior value 256 |
| Rendering.RandomCentreBreaksFlatten | src/rendering.cpp:105-107 | in random mode on an even-sized output, pixel (w/2, h/2) samples the origin in exact arithmetic, and iterate_m returns 256 there, outside flatten's domain |
| Rendering.Mandelbrot | src/rendering.cpp:81-117 | the stream is the create_image header followed by the w h pixels in row-major order; each pixel is the shade of the escape time from z = 0 at the pixel's point, written as three raw bytes |
| Rendering.MandelbrotRows | src/rendering.cpp:85-113 | after the header, the loops write the w h pixels in row-major order |
| Rendering.MandelbrotCount | src/rendering.cpp:102-105 | resetting z to 0 and calling iterate_m gives the escape time at the pixel's point |
| Rendering.MandelbrotRow | src/rendering.cpp:100-110 | the inner loop appends row y, and moves c from the row's first point to its point w |
| Rendering.NextColumn | src/rendering.cpp:109 | c += xbump moves the sampled point from pixel x to pixel x + 1 |
| Rendering.NextRow | src/rendering.cpp:111-112 | c.real = init_re; c += ybump moves c from the end of row y to the start of row y + 1 |
| Rendering.MandelPixelAt | src/rendering.cpp:107-108 | the three bytes written for the count iterate_m returns are the pixel of the specification |
| Rendering.MandelbrotStreamLength | src/rendering.cpp:98-113 | the mandelbrot stream is the header plus exactly 3 w h bytes |
| Rendering.MandelbrotStreamPixel | src/rendering.cpp:98-113 | byte offset header + 3 (y w + x) holds three equal bytes: the shade of pixel (x, y) |
| Rendering.Julia | src/rendering.cpp:125-166 | the julia stream is the same header followed by w h pixels in row-major order, each the shade written three times as decimal text |
| Rendering.JuliaRows | src/rendering.cpp:131-159 | after the header, the loops write the w h decimal-text pixels in row-major order |
| Rendering.JuliaCount | src/rendering.cpp:151-154 | resetting z to 0 and calling iterate_j with the picked z^2 + c gives the escape time at the pixel's point |
| Rendering.JuliaRow | src/rendering.cpp:149-159 | the inner loop appends row y as decimal text, and moves c across the row |
| Rendering.JuliaPixelAt | src/rendering.cpp:156-157 | the text written for the count iterate_j returns is the pixel of the specification |
| Rendering.JuliaWritesMandelbrotShadesAsText | src/rendering.cpp:145-157 | julia shades every pixel as mandelbrot does; because result is a double, it writes the decimal text of the byte mandelbrot writes raw |
| MandelbrotProgram.ImageHeader | src/mandelbrot.cpp:61-64 | the header render_image writes reads back as "#This is a mandelbrot image" and the dimensions w and h |
| MandelbrotProgram.ImageHeaderReadsBack | src/mandelbrot.cpp:61-64 | the render_image header reads back as its comment and the image dimensions |
| MandelbrotProgram.Iterate | src/mandelbrot.cpp:22-36 | iterate returns the escape time of z^3 + c from z, with the same stop state as iterate_m |
| MandelbrotProgram.PixelCount | src/mandelbrot.cpp:77-80 | setting z to (-0.8, 0.156) and calling iterate gives the z^3 + c escape time from that seed at the pixel's point |
| MandelbrotProgram.RenderRow | src/mandelbrot.cpp:75-85 | the inner loop appends row y of raw pixels, and moves c across the row |
| MandelbrotProgram.CubicPixelAt | src/mandelbrot.cpp:82-83 | the three bytes written for the count iterate returns are the pixel of the specification |
| MandelbrotProgram.RenderImage | src/mandelbrot.cpp:42-93 | the stream is the "#This is a mandelbrot image" header followed by w h raw pixels in row-major order, each the shade of the z^3 + c escape time from the seed |
| MandelbrotProgram.RenderRows | src/mandelbrot.cpp:50-88 | after the header, the loops write the w h raw pixels in row-major order |
| MandelbrotProgram.ImageLength | src/mandelbrot.cpp:73-88 | the image is the header plus exactly 3 w h bytes |
| MandelbrotProgram.ImagePixel | src/mandelbrot.cpp:73-88 | byte offset header + 3 (y w + x) holds the three equal bytes of pixel (x, y) |
| Options.LastMatch | src/opts.cpp:244-253 | the linear search leaves the last index whose name equals the argument; None exactly when no name does |
| Options.Search | src/opts.cpp:245-253 | the search loop: found is whether some name matches; then the selection is the last match, otherwise the old selection is kept |
| Options.Step | src/opts.cpp:218-314 | one switch case: exit status 0 exactly for -h; a valid state (positive zoom, valid table indices) stays valid |
| Options.Run | src/opts.cpp:217-314 | the cases applied in order until one exits keep the state valid |
| Options.ParseLoop | src/opts.cpp:199-314 | the getopt loop computes Run from the defaults, and a parse that does not exit has valid locals |
| Options.MParse | src/opts.cpp:199-322 | mparse (and jparse, the same code) is the loop followed by the Settings constructor on the selected table entry; an exit is passed through |
| Options.GetRenderSettings | src/include/utils.h:294-428 | get_render_settings is the loop with the colour option, followed by the render-settings constructor on the selected resolution and colour map |
| Options.LastSizeWins | src/opts.cpp:214-260 | a parse that does not exit selects the last table entry named by the last -s, and keeps index 0 when there is no -s |
| Options.DoneMeansChecked | src/opts.cpp:236-302 | a parse that does not exit has found every -s name in the table and has a positive value for every -z; with the colour option, every -c name is in the colour-map table too |
| Options.StepDoneChecked | src/opts.cpp:236-302 | a case that does not exit has found its -s name, has a positive -z value, and with the colour option has found its -c name |
| Options.LastColorWins | src/include/utils.h:310-372 | a render-settings parse that does not exit selects the last colour map named by the last -c, and keeps index 0 when there is no -c |
| Options.NoOptionsGiveRenderDefaults | src/include/utils.h:302-310 | with no options the render settings are built from the first resolution and the first colour map, centre (-0.7, 0) and zoom 0.5 |
| Options.NoOptionsGiveDefaults | src/opts.cpp:207-214 | with no options the Settings are built from index 0, centre (-0.7, 0) and zoom 0.5 |
| Options.HelpExitsAtOnce | src/opts.cpp:225-229 | -h exits with status 0 whatever follows it |
| Options.RandomModeSticks | src/opts.cpp:231-234 | once -r is seen, random mode stays on |
| Options.RandomParseForcesView | src/opts.cpp:121-133 | a renderer parse with -r that does not exit yields centre (0, 0) and zoom 1, whatever -x, -y and -z said |

## Left out

- File and console I/O is not modelled: the stream is the returned
  `string`. Left out are opening and closing the `ofstream`, the file
  names, `display_info`, the `print_*` helpers, the ASCII art and the help
  text.
- `getopt_long`, `atof`, `strcmp`, `exit` and `srand`/`rand` are library
  calls:
  - getopt's output is a sequence of options;
  - atof's value travels with each numeric option;
  - strcmp is string equality;
  - exit is the `Exit` outcome, with its status and the first error line.
  - `reso::print_all` after an unknown size is not modelled.
  - The `RANDOM` macro of src/include/opts.h:28 is unused and not modelled.
- Only option forms that carry their value are modelled: `-s 480p` and
  `--size=480p`. The long options are declared with `has_arg` 2
  (`optional_argument`) in src/opts.cpp:50-55 and 84-90 and in
  src/include/utils.h:120-125, although the comment beside them reads
  "arg required". With an optional argument, getopt_long takes a value
  only after `=`. So `--size 480p` leaves `optarg` NULL, and the
  `strlen(optarg)` that follows dereferences NULL, which is undefined
  behaviour. The sites are src/opts.cpp:238, 265, 277, 289, 306, 367,
  394, 406, 418 and 436, and src/include/utils.h:331, 353, 375, 384, 393
  and 407. Every `Options.Opt` case that takes a value carries its text,
  so the model has no NULL argument.
- IEEE-754 arithmetic is not modelled: rounding, overflow to infinity or
  NaN, and the drift that repeated `c += xbump` accumulates. All results
  are exact over the reals.
- Complex.Div: requires a nonzero divisor, which operator/ does not
  check. Over the reals a zero denominator has no value, whereas IEEE
  arithmetic would produce infinities or NaN.
- Complex.Cell.DivAssign: requires a nonzero divisor, for the same reason.
- Colors.Picked: requires n != 0, which pick does not check; the division
  x / n has no real value otherwise.
- Colors.Interpolated: requires n != 0, for the same reason.
- Colors.Gradient.Pick: requires n != 0, for the same reason.
- Colors.Gradient.Interp: requires n != 0, for the same reason.
- Viewport.MakeFrame: requires zoom != 0, because of the divisor
  1.0 / zoom. The parsers reject zoom <= 0 before the constructor runs.
- Viewport.MakeSettings: requires zoom != 0 or random mode, for the same
  reason.
- Viewport.MakeRenderSettings: requires zoom != 0, for the same reason.
- In src/mandelbrot.cpp:63, `render_image` streams w and h as doubles.
  Default ostream formatting prints an integer-valued double below 10^6 as
  its decimal digits. Every table size is below that, so the header uses
  the same decimal text as `create_image`.
- The floating-point iteration counter is modelled as a `nat`.
- `flatten`'s conversion of a double to `uint8_t` is modelled only on
  [0, 256), where C++ defines it.
- The `DGMP` branches are not modelled: the GMP stubs of src/complex.cpp
  and the `#ifdef DGMP` blocks of the iterators.
- Smooth colouring is not modelled: `LOG2` is defined but unused, and no
  renderer calls `Gradient`.
- The render-settings constructor allocates a `Gradient` with `new`. The
  model keeps its two anchors instead.
- Colors.Gradient: `left` and `right` are `const color_t&` members
  (src/include/colors.h:74-76, src/include/utils.h:162-164). The model
  stores the two colours as values. A change to the referenced colours
  after construction, or a dangling reference, is therefore not modelled.
- src/utils.h is not part of this model: it is an older CLI-only Settings
  with duplicated static tables and no viewport math.
- The entry points src/main.cpp and src/julia.cpp are not part of this
  model. src/main.cpp calls `opts::parse`, which does not exist.
- src/include/functions.h declares the iteration functions as returning
  `void`, while src/functions.cpp returns `Cmp`. The model follows
  src/functions.cpp.
- `julia`'s `std::function` vector and lambda are replaced by the
  `Functions.IterFn` value `ZSquared`, the function the lambda computes.
- `jparse` passes the Mandelbrot option tables to getopt
  (src/opts.cpp:346), so `-f` never reaches it. The model is therefore the
  same loop as `mparse`, and no `-f` case is modelled.
- `Settings::seed_zr`, `seed_zi`, `seed_cr` and `seed_ci` are declared but
  never set or read, so they are not modelled.

## Findings

| source | as written | input that shows it | evidently intended | confidence | as-written member | corrected member |
|---|---|---|---|---|---|---|
| src/rendering.cpp:107 | `iterate_m` returns 256 for a point that never escapes, and that count goes to `flatten`. `(uint8_t)floor(256.0)` is outside the byte range, which is undefined behaviour in C++. The same happens in src/rendering.cpp:156 and src/mandelbrot.cpp:82. | Random mode (`-r`) at any table size: the view is centred on 0 at zoom 1, so pixel (w/2, h/2) samples c = 0 in exact arithmetic, and z^2 + 0 from z = 0 never escapes. | Interior points get an in-range shade: 0, the value a modular byte conversion gives, with counts 0..255 unchanged. | not executed | Rendering.RandomCentreBreaksFlatten | Rendering.Shade |

All three renderers (`Rendering.Mandelbrot`, `Rendering.Julia` and
`MandelbrotProgram.RenderImage`) use the corrected `Rendering.Shade`.
