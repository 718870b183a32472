/**
  The decisions of command-line handling.  getopt_long is outside the
  model: its output is given as the sequence of options it reports, each
  carrying the text of its argument and, for the numeric options, the value
  atof reads from that text.  The getopt loop applies one switch case per
  option to the parser's locals; a case that calls exit() ends the parse
  with that status and the text written to the error stream.
*/
module Options {
  import opened Netpbm
  import opened Colors
  import opened Resolutions
  import opened Viewport

  /** One option as getopt_long reports it. */
  datatype Opt =
    | Verbose                          // -v
    | Help                             // -h
    | RandomMode                       // -r
    | Size(arg: string)                // -s
    | RealPart(arg: string, value: real)   // -x
    | ImagPart(arg: string, value: real)   // -y
    | ZoomLevel(arg: string, value: real)  // -z
    | OutputPath(arg: string)          // -o
    | ColorScheme(arg: string)         // -c
    | Unhandled                        // anything no case of the switch names

  /** How a parse ends: with a value, or by exit() with a status and the
      message written to the error stream. */
  datatype Outcome<T> = Done(value: T) | Exit(status: int, message: string)

  /** The locals of the getopt loop; the selected resolution and colour map
      are indices into their tables. */
  datatype Locals = Locals(verbose: Byte, random: Byte,
                           initReal: real, initImag: real, zoom: real,
                           reso: nat, cmap: nat)

  /** DEFAULT_RE, DEFAULT_IM and DEFAULT_ZOOM, with the first table entries. */
  const Defaults: Locals := Locals(0, 0, -0.7, 0.0, 0.5, 0, 0)

  /** What the loop keeps true of its locals: a positive zoom and valid
      table indices. */
  predicate Valid(loc: Locals)
  {
    loc.zoom > 0.0 && loc.reso < |Resolutions.All| && loc.cmap < |RenderColormaps|
  }

  /** The names of the colour table, in table order. */
  function ColormapNames(): seq<string>
  {
    seq(|RenderColormaps|, i requires 0 <= i < |RenderColormaps| => RenderColormaps[i].name)
  }

  // ---------------------------------------------------------------------
  // Name lookup

  /** The index a linear search over the whole table leaves selected when it
      overwrites the selection at every match: the last index whose name
      equals arg, or None when no name does. */
  function LastMatch(names: seq<string>, arg: string): (r: Option<nat>)
    ensures r.None? <==> forall i :: 0 <= i < |names| ==> names[i] != arg
    ensures r.Some? ==> r.value < |names| && names[r.value] == arg &&
                        forall j :: r.value < j < |names| ==> names[j] != arg
  {
    if |names| == 0 then None
    else if names[|names| - 1] == arg then Some(|names| - 1)
    else LastMatch(names[..|names| - 1], arg)
  }

  /** The search loop: every index whose name matches overwrites the
      selection, and found records whether any did. */
  method Search(names: seq<string>, arg: string, selected: nat) returns (sel: nat, found: bool)
    ensures found <==> LastMatch(names, arg).Some?
    ensures found ==> sel == LastMatch(names, arg).value
    ensures !found ==> sel == selected
  {
    sel, found := selected, false;
    for ri := 0 to |names|
      invariant found <==> exists i :: 0 <= i < ri && names[i] == arg
      invariant found ==> sel < ri && names[sel] == arg &&
                          forall j :: sel < j < ri ==> names[j] != arg
      invariant !found ==> sel == selected
    {
      if names[ri] == arg {
        sel, found := ri, true;
      }
    }
  }

  // ---------------------------------------------------------------------
  // The getopt loop

  /** One case of the switch.  With colormaps false the colour option has
      no case (the renderer parsers); with colormaps true it selects a
      colour map (the render-settings parser).  A valid state stays valid. */
  function Step(loc: Locals, opt: Opt, colormaps: bool): (r: Outcome<Locals>)
    ensures Valid(loc) && r.Done? ==> Valid(r.value)
    ensures r.Exit? && r.status == 0 <==> opt == Help
  {
    match opt
    case Verbose => Done(loc.(verbose := 1))
    case Help => Exit(0, "")
    case RandomMode => Done(loc.(random := 1))
    case Size(a) =>
      if |a| == 0 then Exit(1, "No size given")
      else (
        match LastMatch(Resolutions.Names(), a)
        case None => Exit(1, "Error: given resolution not supported")
        case Some(i) => Done(loc.(reso := i)))
    case RealPart(a, v) =>
      if |a| == 0 then Exit(1, "Error: no real number supplied") else Done(loc.(initReal := v))
    case ImagPart(a, v) =>
      if |a| == 0 then Exit(1, "Error: no imaginary number supplied") else Done(loc.(initImag := v))
    case ZoomLevel(a, v) =>
      if |a| == 0 then Exit(1, "Error: no zoom value given")
      else if v <= 0.0 then Exit(1, "Error: negative or invalid zoom given")
      else Done(loc.(zoom := v))
    case OutputPath(a) =>
      if |a| == 0 then Exit(1, "Error: no file path supplied") else Done(loc)
    case ColorScheme(a) =>
      if !colormaps then Done(loc)
      else if |a| == 0 then Exit(1, "No color given")
      else (
        match LastMatch(ColormapNames(), a)
        case None => Exit(1, "Error: given color scheme not supported")
        case Some(i) => Done(loc.(cmap := i)))
    case Unhandled => Done(loc)
  }

  /** The whole loop: the cases applied in order until one exits. */
  function Run(loc: Locals, opts: seq<Opt>, colormaps: bool): (r: Outcome<Locals>)
    ensures Valid(loc) && r.Done? ==> Valid(r.value)
    decreases |opts|
  {
    if |opts| == 0 then Done(loc)
    else
      match Step(loc, opts[0], colormaps)
      case Exit(status, message) => Exit(status, message)
      case Done(next) => Run(next, opts[1..], colormaps)
  }

  /** The getopt loop of the parsers, on the options getopt reports. */
  method ParseLoop(opts: seq<Opt>, colormaps: bool) returns (r: Outcome<Locals>)
    ensures r == Run(Defaults, opts, colormaps)
    ensures r.Done? ==> Valid(r.value)
  {
    var loc := Defaults;
    var i := 0;
    while i < |opts|
      invariant 0 <= i <= |opts|
      invariant Valid(loc)
      invariant Run(Defaults, opts, colormaps) == Run(loc, opts[i..], colormaps)
      decreases |opts| - i
    {
      assert opts[i..][1..] == opts[i + 1..];
      match opts[i] {
      case Verbose =>
        loc := loc.(verbose := 1);
      case Help =>
        return Exit(0, "");
      case RandomMode =>
        loc := loc.(random := 1);
      case Size(a) =>
        if |a| == 0 {
          return Exit(1, "No size given");
        }
        var sel, found := Search(Resolutions.Names(), a, loc.reso);
        if !found {
          return Exit(1, "Error: given resolution not supported");
        }
        loc := loc.(reso := sel);
      case RealPart(a, v) =>
        if |a| == 0 {
          return Exit(1, "Error: no real number supplied");
        }
        loc := loc.(initReal := v);
      case ImagPart(a, v) =>
        if |a| == 0 {
          return Exit(1, "Error: no imaginary number supplied");
        }
        loc := loc.(initImag := v);
      case ZoomLevel(a, v) =>
        if |a| == 0 {
          return Exit(1, "Error: no zoom value given");
        }
        if v <= 0.0 {
          return Exit(1, "Error: negative or invalid zoom given");
        }
        loc := loc.(zoom := v);
      case OutputPath(a) =>
        if |a| == 0 {
          return Exit(1, "Error: no file path supplied");
        }
      case ColorScheme(a) =>
        if colormaps {
          if |a| == 0 {
            return Exit(1, "No color given");
          }
          var sel, found := Search(ColormapNames(), a, loc.cmap);
          if !found {
            return Exit(1, "Error: given color scheme not supported");
          }
          loc := loc.(cmap := sel);
        }
      case Unhandled =>
      }
      i := i + 1;
    }
    return Done(loc);
  }

  /** The renderers' parser (mparse; jparse is the same code): the loop,
      then the Settings constructor on the resolution selected. */
  method MParse(opts: seq<Opt>) returns (r: Outcome<Settings>)
    ensures r == FinishSettings(Run(Defaults, opts, false))
  {
    var loc := ParseLoop(opts, false);
    match loc
    case Exit(status, message) =>
      r := Exit(status, message);
    case Done(l) =>
      r := Done(MakeSettings(l.verbose, l.random, l.initReal, l.initImag, l.zoom,
                             Resolutions.All[l.reso]));
  }

  function FinishSettings(o: Outcome<Locals>): (r: Outcome<Settings>)
    requires o.Done? ==> Valid(o.value)
  {
    match o
    case Exit(status, message) => Exit(status, message)
    case Done(l) =>
      Done(MakeSettings(l.verbose, l.random, l.initReal, l.initImag, l.zoom, Resolutions.All[l.reso]))
  }

  /** The render-settings parser: the loop with the colour option, then that
      Settings constructor on the resolution and colour map selected. */
  method GetRenderSettings(opts: seq<Opt>) returns (r: Outcome<RenderSettings>)
    ensures r == FinishRenderSettings(Run(Defaults, opts, true))
  {
    var loc := ParseLoop(opts, true);
    match loc
    case Exit(status, message) =>
      r := Exit(status, message);
    case Done(l) =>
      r := Done(MakeRenderSettings(l.verbose, l.random, l.initReal, l.initImag, l.zoom,
                                   Resolutions.All[l.reso], RenderColormaps[l.cmap]));
  }

  function FinishRenderSettings(o: Outcome<Locals>): (r: Outcome<RenderSettings>)
    requires o.Done? ==> Valid(o.value)
  {
    match o
    case Exit(status, message) => Exit(status, message)
    case Done(l) =>
      Done(MakeRenderSettings(l.verbose, l.random, l.initReal, l.initImag, l.zoom,
                              Resolutions.All[l.reso], RenderColormaps[l.cmap]))
  }

  // ---------------------------------------------------------------------
  // Properties of the loop

  /** The argument of the last size option, if any. */
  function LastSize(opts: seq<Opt>): Option<string>
  {
    if |opts| == 0 then None
    else if LastSize(opts[1..]).Some? then LastSize(opts[1..])
    else if opts[0].Size? then Some(opts[0].arg)
    else None
  }

  /** A parse that does not exit selects the resolution named by the last
      size option (the last table entry of that name), and keeps the
      initial selection when there is no size option. */
  lemma {:induction false} LastSizeWins(loc: Locals, opts: seq<Opt>, colormaps: bool)
    requires Run(loc, opts, colormaps).Done?
    ensures LastSize(opts).None? ==> Run(loc, opts, colormaps).value.reso == loc.reso
    ensures LastSize(opts).Some? ==>
              LastMatch(Resolutions.Names(), LastSize(opts).value).Some? &&
              Run(loc, opts, colormaps).value.reso == LastMatch(Resolutions.Names(), LastSize(opts).value).value
    decreases |opts|
  {
    if |opts| > 0 {
      var next := Step(loc, opts[0], colormaps).value;
      LastSizeWins(next, opts[1..], colormaps);
    }
  }

  /** A parse that does not exit has checked every option: each size names a
      table entry and each zoom is positive. */
  lemma {:induction false} DoneMeansChecked(loc: Locals, opts: seq<Opt>, colormaps: bool)
    requires Run(loc, opts, colormaps).Done?
    ensures forall i :: 0 <= i < |opts| && opts[i].Size? ==>
              LastMatch(Resolutions.Names(), opts[i].arg).Some?
    ensures forall i :: 0 <= i < |opts| && opts[i].ZoomLevel? ==> opts[i].value > 0.0
    ensures colormaps ==> forall i :: 0 <= i < |opts| && opts[i].ColorScheme? ==>
              LastMatch(ColormapNames(), opts[i].arg).Some?
    decreases |opts|
  {
    if |opts| > 0 {
      var next := Step(loc, opts[0], colormaps).value;
      StepDoneChecked(loc, opts[0], colormaps);
      DoneMeansChecked(next, opts[1..], colormaps);
      assert forall i :: 1 <= i < |opts| ==> opts[i] == opts[1..][i - 1];
    }
  }

  /** One case that does not exit has checked its option. */
  lemma StepDoneChecked(loc: Locals, opt: Opt, colormaps: bool)
    requires Step(loc, opt, colormaps).Done?
    ensures opt.Size? ==> LastMatch(Resolutions.Names(), opt.arg).Some?
    ensures opt.ZoomLevel? ==> opt.value > 0.0
    ensures colormaps && opt.ColorScheme? ==> LastMatch(ColormapNames(), opt.arg).Some?
  {
  }

  /** The argument of the last colour option, if any. */
  function LastColor(opts: seq<Opt>): Option<string>
  {
    if |opts| == 0 then None
    else if LastColor(opts[1..]).Some? then LastColor(opts[1..])
    else if opts[0].ColorScheme? then Some(opts[0].arg)
    else None
  }

  /** A render-settings parse that does not exit selects the colour map
      named by the last colour option, and keeps the initial selection when
      there is none. */
  lemma {:induction false} LastColorWins(loc: Locals, opts: seq<Opt>)
    requires Run(loc, opts, true).Done?
    ensures LastColor(opts).None? ==> Run(loc, opts, true).value.cmap == loc.cmap
    ensures LastColor(opts).Some? ==>
              LastMatch(ColormapNames(), LastColor(opts).value).Some? &&
              Run(loc, opts, true).value.cmap == LastMatch(ColormapNames(), LastColor(opts).value).value
    decreases |opts|
  {
    if |opts| > 0 {
      var next := Step(loc, opts[0], true).value;
      LastColorWins(next, opts[1..]);
    }
  }

  /** Without options the defaults are used: index 0 of the tables, centre
      (-0.7, 0) and zoom 0.5. */
  lemma NoOptionsGiveDefaults()
    ensures FinishSettings(Run(Defaults, [], false)) ==
            Done(MakeSettings(0, 0, -0.7, 0.0, 0.5, Resolutions.All[0]))
  {
  }

  /** The same for the render-settings parser, whose colour map defaults to
      the first entry of its table. */
  lemma NoOptionsGiveRenderDefaults()
    ensures FinishRenderSettings(Run(Defaults, [], true)) ==
            Done(MakeRenderSettings(0, 0, -0.7, 0.0, 0.5, Resolutions.All[0], RenderColormaps[0]))
  {
  }

  /** -h exits with status 0 as soon as it is reached, whatever follows. */
  lemma HelpExitsAtOnce(loc: Locals, rest: seq<Opt>, colormaps: bool)
    ensures Run(loc, [Help] + rest, colormaps) == Exit(0, "")
  {
  }

  /** Once -r is seen, random mode stays on for the rest of the parse. */
  lemma {:induction false} RandomModeSticks(loc: Locals, opts: seq<Opt>, colormaps: bool)
    requires Run(loc, opts, colormaps).Done?
    requires loc.random == 1 || RandomMode in opts
    ensures Run(loc, opts, colormaps).value.random == 1
    decreases |opts|
  {
    if |opts| > 0 {
      var next := Step(loc, opts[0], colormaps).value;
      if opts[0] != RandomMode {
        assert RandomMode in opts[1..] || next.random == 1;
      }
      RandomModeSticks(next, opts[1..], colormaps);
    }
  }

  /** So a successful renderer parse given -r renders centre 0 at zoom 1,
      whatever -x, -y and -z said. */
  lemma RandomParseForcesView(opts: seq<Opt>)
    requires Run(Defaults, opts, false).Done?
    requires RandomMode in opts
    ensures FinishSettings(Run(Defaults, opts, false)).value.initReal == 0.0
    ensures FinishSettings(Run(Defaults, opts, false)).value.initImag == 0.0
    ensures FinishSettings(Run(Defaults, opts, false)).value.zoom == 1.0
  {
    RandomModeSticks(Defaults, opts, false);
  }
}
