/**
 * What the two dynamic-reconfigure callbacks send to the device: for each
 * camera variant, the exact command sequence a configuration produces, and
 * the guards, clamps and ordering that sequence obeys.
 */
module ConfigCallbacks {
  import opened Device
  import opened Constants

  /** The R200 reconfiguration record (the fields its callback reads). */
  datatype R200Config = R200Config(
    enableDepth: bool,
    colorBacklightCompensation: int, colorBrightness: int, colorContrast: int,
    colorGain: int, colorGamma: int, colorHue: int, colorSaturation: int, colorSharpness: int,
    colorEnableAutoWhiteBalance: int, colorWhiteBalance: int,
    r200LrAutoExposureEnabled: int, r200LrExposure: int, r200LrGain: int, r200EmitterEnabled: int,
    r200AutoExposureTopEdge: int, r200AutoExposureBottomEdge: int,
    r200AutoExposureLeftEdge: int, r200AutoExposureRightEdge: int,
    r200DcPreset: int)

  /** The ZR300 reconfiguration record (the fields its callback reads). */
  datatype ZR300Config = ZR300Config(
    enableDepth: bool,
    colorBacklightCompensation: int, colorBrightness: int, colorContrast: int, colorExposure: int,
    colorGain: int, colorGamma: int, colorHue: int, colorSaturation: int, colorSharpness: int,
    colorEnableAutoWhiteBalance: int, colorWhiteBalance: int, colorEnableAutoExposure: int,
    r200LrAutoExposureEnabled: int, r200LrExposure: int, r200LrGain: int, r200EmitterEnabled: int,
    r200DepthClampMin: int, r200DepthClampMax: int,
    r200DcPreset: int,
    fisheyeExposure: int, fisheyeGain: int, fisheyeEnableAutoExposure: int,
    fisheyeAutoExposureMode: int, fisheyeAutoExposureAntiflickerRate: int,
    fisheyeAutoExposurePixelSampleRate: int, fisheyeAutoExposureSkipFrames: int,
    framesQueueSize: int, hardwareLoggerEnabled: int)

  /** An auto-exposure window edge as the callback sends it: lowered to `dim - 1` when it reaches `dim`. */
  function ClampEdge(edge: int, dim: int): (r: int)
    ensures r <= dim - 1 && r <= edge
    ensures r == edge || r == dim - 1
  {
    if edge >= dim then dim - 1 else edge
  }

  lemma ClampEdgeProperties(edge: int, dim: int)
    ensures edge < dim ==> ClampEdge(edge, dim) == edge
    ensures ClampEdge(ClampEdge(edge, dim), dim) == ClampEdge(edge, dim)
  {
  }

  /** With the default geometry, a top edge of 400 is lowered to 359, one below the depth height, and a left edge of 400 is kept. */
  lemma DefaultGeometryClamp()
    ensures ClampEdge(400, DepthHeight) == DepthHeight - 1 == 359
    ensures ClampEdge(400, DepthWidth) == 400
  {
  }

  /** The configuration with its four window edges clamped against the depth stream's geometry. */
  function ClampEdges(c: R200Config, depthWidth: int, depthHeight: int): (k: R200Config)
    ensures k.r200AutoExposureTopEdge < depthHeight && k.r200AutoExposureBottomEdge < depthHeight
    ensures k.r200AutoExposureLeftEdge < depthWidth && k.r200AutoExposureRightEdge < depthWidth
    ensures k.(r200AutoExposureTopEdge := c.r200AutoExposureTopEdge,
               r200AutoExposureBottomEdge := c.r200AutoExposureBottomEdge,
               r200AutoExposureLeftEdge := c.r200AutoExposureLeftEdge,
               r200AutoExposureRightEdge := c.r200AutoExposureRightEdge) == c
  {
    c.(r200AutoExposureTopEdge := ClampEdge(c.r200AutoExposureTopEdge, depthHeight),
       r200AutoExposureBottomEdge := ClampEdge(c.r200AutoExposureBottomEdge, depthHeight),
       r200AutoExposureLeftEdge := ClampEdge(c.r200AutoExposureLeftEdge, depthWidth),
       r200AutoExposureRightEdge := ClampEdge(c.r200AutoExposureRightEdge, depthWidth))
  }

  /** Clamping is idempotent, and a window already inside the depth image is left as it is. */
  lemma ClampEdgesProperties(c: R200Config, depthWidth: int, depthHeight: int)
    ensures var k := ClampEdges(c, depthWidth, depthHeight); ClampEdges(k, depthWidth, depthHeight) == k
    ensures c.r200AutoExposureTopEdge < depthHeight && c.r200AutoExposureBottomEdge < depthHeight
         && c.r200AutoExposureLeftEdge < depthWidth && c.r200AutoExposureRightEdge < depthWidth
         ==> ClampEdges(c, depthWidth, depthHeight) == c
  {
  }

  /** The options of the multi-option write, in the order the driver lists them. */
  const EdgeOptions: seq<RsOption> :=
    [R200AutoExposureLeftEdge, R200AutoExposureTopEdge, R200AutoExposureRightEdge, R200AutoExposureBottomEdge]

  /** The four edge values paired with their options: left, top, right, bottom. */
  function EdgeWrites(c: R200Config): (ws: seq<OptionValue>)
    ensures |ws| == |EdgeOptions| && forall i :: 0 <= i < |ws| ==> ws[i].option == EdgeOptions[i]
  {
    [OptionValue(R200AutoExposureLeftEdge, c.r200AutoExposureLeftEdge as real),
     OptionValue(R200AutoExposureTopEdge, c.r200AutoExposureTopEdge as real),
     OptionValue(R200AutoExposureRightEdge, c.r200AutoExposureRightEdge as real),
     OptionValue(R200AutoExposureBottomEdge, c.r200AutoExposureBottomEdge as real)]
  }

  // ---- option families and what a stretch of commands may write ----

  /** The families the device options fall into, after the prefixes of their names. */
  datatype OptionGroup = ColorGroup | LrGroup | EdgeGroup | DepthClampGroup | FisheyeGroup | StreamingGroup

  function Group(o: RsOption): OptionGroup {
    match o
    case ColorBacklightCompensation | ColorBrightness | ColorContrast | ColorExposure
       | ColorGain | ColorGamma | ColorHue | ColorSaturation | ColorSharpness
       | ColorEnableAutoWhiteBalance | ColorWhiteBalance | ColorEnableAutoExposure => ColorGroup
    case R200LrAutoExposureEnabled | R200LrExposure | R200LrGain | R200EmitterEnabled => LrGroup
    case R200AutoExposureLeftEdge | R200AutoExposureTopEdge
       | R200AutoExposureRightEdge | R200AutoExposureBottomEdge => EdgeGroup
    case R200DepthClampMin | R200DepthClampMax => DepthClampGroup
    case FisheyeExposure | FisheyeGain | FisheyeEnableAutoExposure | FisheyeAutoExposureMode
       | FisheyeAutoExposureAntiflickerRate | FisheyeAutoExposurePixelSampleRate
       | FisheyeAutoExposureSkipFrames => FisheyeGroup
    case FramesQueueSize | HardwareLoggerEnabled => StreamingGroup
  }

  /** A command that is neither a multi-write nor a preset, and writes, if anything, an option of `gs`. */
  predicate Within(cmd: Command, gs: set<OptionGroup>) {
    !cmd.SetOptions? && !cmd.ApplyDepthControlPreset? && (cmd.SetOption? ==> Group(cmd.option) in gs)
  }

  ghost predicate AllWithin(cmds: seq<Command>, gs: set<OptionGroup>) {
    forall i :: 0 <= i < |cmds| ==> Within(cmds[i], gs)
  }

  lemma AllWithinConcat(a: seq<Command>, b: seq<Command>, gs: set<OptionGroup>)
    requires AllWithin(a, gs) && AllWithin(b, gs)
    ensures AllWithin(a + b, gs)
  {
    forall i | 0 <= i < |a + b| ensures Within((a + b)[i], gs) {
      if i >= |a| {
        assert (a + b)[i] == b[i - |a|];
      }
    }
  }

  /** Such a stretch holds no multi-write and no preset, and writes options of `gs` only. */
  lemma AllWithinWrites(cmds: seq<Command>, gs: set<OptionGroup>)
    requires AllWithin(cmds, gs)
    ensures forall cmd :: cmd in cmds ==> !cmd.SetOptions? && !cmd.ApplyDepthControlPreset?
    ensures forall o :: Writes(cmds, o) ==> Group(o) in gs
  {
    forall o | Writes(cmds, o) ensures Group(o) in gs {
      var cmd :| cmd in cmds && o in WrittenBy(cmd);
      var i :| 0 <= i < |cmds| && cmds[i] == cmd;
      assert Within(cmds[i], gs);
    }
  }

  lemma WritesConcat(a: seq<Command>, b: seq<Command>, o: RsOption)
    ensures Writes(a + b, o) <==> Writes(a, o) || Writes(b, o)
  {
    if Writes(a + b, o) {
      var cmd :| cmd in a + b && o in WrittenBy(cmd);
      assert cmd in a || cmd in b;
    }
    if Writes(a, o) {
      var cmd :| cmd in a && o in WrittenBy(cmd);
      assert cmd in a + b;
    }
    if Writes(b, o) {
      var cmd :| cmd in b && o in WrittenBy(cmd);
      assert cmd in a + b;
    }
  }

  // ---- R200 ----

  function R200ColorCommands(c: R200Config): seq<Command> {
    [SetOption(ColorBacklightCompensation, c.colorBacklightCompensation as real),
     SetOption(ColorBrightness, c.colorBrightness as real),
     SetOption(ColorContrast, c.colorContrast as real),
     SetOption(ColorGain, c.colorGain as real),
     SetOption(ColorGamma, c.colorGamma as real),
     SetOption(ColorHue, c.colorHue as real),
     SetOption(ColorSaturation, c.colorSaturation as real),
     SetOption(ColorSharpness, c.colorSharpness as real)]
  }

  function R200WhiteBalanceCommands(c: R200Config): seq<Command> {
    [SetOption(ColorEnableAutoWhiteBalance, c.colorEnableAutoWhiteBalance as real)]
    + (if c.colorEnableAutoWhiteBalance == 0 then [SetOption(ColorWhiteBalance, c.colorWhiteBalance as real)] else [])
  }

  function R200LrCommands(c: R200Config): seq<Command> {
    [SetOption(R200LrAutoExposureEnabled, c.r200LrAutoExposureEnabled as real)]
    + (if c.r200LrAutoExposureEnabled == 0 then [SetOption(R200LrExposure, c.r200LrExposure as real)] else [])
    + [SetOption(R200LrGain, c.r200LrGain as real),
       SetOption(R200EmitterEnabled, c.r200EmitterEnabled as real)]
  }

  function R200EdgeCommands(c: R200Config, depthWidth: int, depthHeight: int): seq<Command> {
    if c.r200LrAutoExposureEnabled == 1 then [SetOptions(EdgeWrites(ClampEdges(c, depthWidth, depthHeight)))]
    else []
  }

  /**
   * What the R200 callback sends before the edge write: the depth enable,
   * then single-option writes only, with one extra write for each of the two
   * manual settings whose automatic mode is off.
   */
  function R200Settings(c: R200Config): (r: seq<Command>)
    ensures |r| == 13 + (if c.colorEnableAutoWhiteBalance == 0 then 1 else 0)
                      + (if c.r200LrAutoExposureEnabled == 0 then 1 else 0)
    ensures r[0] == SetDepthEnable(c.enableDepth)
    ensures forall i :: 1 <= i < |r| ==> r[i].SetOption?
  {
    [SetDepthEnable(c.enableDepth)] + R200ColorCommands(c) + R200WhiteBalanceCommands(c) + R200LrCommands(c)
  }

  /**
   * The R200 callback's commands, in order: depth enable, the colour options,
   * the white balance, the left/right-imager options, the edge write, the
   * depth-control preset.
   */
  function R200Commands(c: R200Config, depthWidth: int, depthHeight: int): (r: seq<Command>)
    ensures |r| == |R200Settings(c)| + (if c.r200LrAutoExposureEnabled == 1 then 2 else 1)
    ensures r[0] == SetDepthEnable(c.enableDepth)
    ensures r[|r| - 1] == ApplyDepthControlPreset(c.r200DcPreset)
    ensures forall i :: 0 <= i < |r| - 1 ==> !r[i].ApplyDepthControlPreset?
  {
    R200Settings(c) + R200EdgeCommands(c, depthWidth, depthHeight) + [ApplyDepthControlPreset(c.r200DcPreset)]
  }

  /** Before the edge write the R200 callback writes colour and left/right-imager options only. */
  lemma R200SettingsWithin(c: R200Config)
    ensures AllWithin(R200Settings(c), {ColorGroup, LrGroup})
  {
    var gs := {ColorGroup, LrGroup};
    assert AllWithin([SetDepthEnable(c.enableDepth)], gs);
    assert AllWithin(R200ColorCommands(c), gs);
    assert AllWithin(R200WhiteBalanceCommands(c), gs);
    assert AllWithin(R200LrCommands(c), gs);
    AllWithinConcat([SetDepthEnable(c.enableDepth)], R200ColorCommands(c), gs);
    AllWithinConcat([SetDepthEnable(c.enableDepth)] + R200ColorCommands(c), R200WhiteBalanceCommands(c), gs);
    AllWithinConcat([SetDepthEnable(c.enableDepth)] + R200ColorCommands(c) + R200WhiteBalanceCommands(c),
      R200LrCommands(c), gs);
  }

  /** The manual white balance is written exactly when automatic white balance is off. */
  lemma R200WhiteBalanceGuard(c: R200Config, depthWidth: int, depthHeight: int)
    ensures Writes(R200Commands(c, depthWidth, depthHeight), ColorWhiteBalance)
        <==> c.colorEnableAutoWhiteBalance == 0
  {
    if c.colorEnableAutoWhiteBalance == 0 {
      var w := SetOption(ColorWhiteBalance, c.colorWhiteBalance as real);
      assert w in R200WhiteBalanceCommands(c);
      assert w in R200Commands(c, depthWidth, depthHeight) && ColorWhiteBalance in WrittenBy(w);
    }
  }

  /** The manual left/right exposure is written exactly when left/right auto-exposure is off. */
  lemma R200LrExposureGuard(c: R200Config, depthWidth: int, depthHeight: int)
    ensures Writes(R200Commands(c, depthWidth, depthHeight), R200LrExposure)
        <==> c.r200LrAutoExposureEnabled == 0
  {
    if c.r200LrAutoExposureEnabled == 0 {
      var w := SetOption(R200LrExposure, c.r200LrExposure as real);
      assert w in R200LrCommands(c);
      assert w in R200Commands(c, depthWidth, depthHeight) && R200LrExposure in WrittenBy(w);
    }
  }

  /** The multi-option write the R200 callback issues: left, top, right, bottom, each clamped. */
  function ExpectedEdgeWrite(c: R200Config, depthWidth: int, depthHeight: int): Command {
    SetOptions([
      OptionValue(R200AutoExposureLeftEdge, ClampEdge(c.r200AutoExposureLeftEdge, depthWidth) as real),
      OptionValue(R200AutoExposureTopEdge, ClampEdge(c.r200AutoExposureTopEdge, depthHeight) as real),
      OptionValue(R200AutoExposureRightEdge, ClampEdge(c.r200AutoExposureRightEdge, depthWidth) as real),
      OptionValue(R200AutoExposureBottomEdge, ClampEdge(c.r200AutoExposureBottomEdge, depthHeight) as real)])
  }

  /** The edge stretch of the R200 callback is that write when left/right auto-exposure is 1, and empty otherwise. */
  lemma R200EdgeCommandsAre(c: R200Config, depthWidth: int, depthHeight: int)
    ensures R200EdgeCommands(c, depthWidth, depthHeight)
         == if c.r200LrAutoExposureEnabled == 1 then [ExpectedEdgeWrite(c, depthWidth, depthHeight)] else []
  {
  }

  /** A multi-write between two stretches free of multi-writes occurs once, if at all, and is the only one. */
  lemma FramedMultiWrite(prefix: seq<Command>, w: Command, tail: seq<Command>, on: bool)
    requires forall cmd :: cmd in prefix ==> !cmd.SetOptions?
    requires forall cmd :: cmd in tail ==> !cmd.SetOptions?
    requires w.SetOptions?
    ensures var cmds := prefix + (if on then [w] else []) + tail;
      && (on ==> multiset(cmds)[w] == 1)
      && (forall cmd :: cmd in cmds && cmd.SetOptions? ==> on && cmd == w)
  {
    var e := if on then [w] else [];
    assert w !in prefix && w !in tail;
    assert multiset(prefix + e + tail)[w] == multiset(prefix)[w] + multiset(e)[w] + multiset(tail)[w];
  }

  /**
   * With left/right auto-exposure at 1 the callback issues the edge write
   * exactly once; it issues no other multi-option write, and none at all
   * otherwise.
   */
  lemma R200EdgeWriteOnce(c: R200Config, depthWidth: int, depthHeight: int)
    ensures var cmds := R200Commands(c, depthWidth, depthHeight);
      var expected := ExpectedEdgeWrite(c, depthWidth, depthHeight);
      && (c.r200LrAutoExposureEnabled == 1 ==> multiset(cmds)[expected] == 1)
      && (forall cmd :: cmd in cmds && cmd.SetOptions? ==> c.r200LrAutoExposureEnabled == 1 && cmd == expected)
  {
    R200EdgeCommandsAre(c, depthWidth, depthHeight);
    R200SettingsWithin(c);
    AllWithinWrites(R200Settings(c), {ColorGroup, LrGroup});
    FramedMultiWrite(R200Settings(c), ExpectedEdgeWrite(c, depthWidth, depthHeight),
      [ApplyDepthControlPreset(c.r200DcPreset)], c.r200LrAutoExposureEnabled == 1);
  }

  /** One window edge is written exactly when left/right auto-exposure is 1. */
  lemma R200EdgeOptionWritten(c: R200Config, depthWidth: int, depthHeight: int, o: RsOption)
    requires Group(o) == EdgeGroup
    ensures Writes(R200Commands(c, depthWidth, depthHeight), o) <==> c.r200LrAutoExposureEnabled == 1
  {
    var prefix := R200Settings(c);
    var tail := [ApplyDepthControlPreset(c.r200DcPreset)];
    var e := R200EdgeCommands(c, depthWidth, depthHeight);
    var w := ExpectedEdgeWrite(c, depthWidth, depthHeight);
    R200EdgeCommandsAre(c, depthWidth, depthHeight);
    R200SettingsWithin(c);
    AllWithinWrites(prefix, {ColorGroup, LrGroup});
    WritesConcat(prefix + e, tail, o);
    WritesConcat(prefix, e, o);
    assert !Writes(tail, o);
    if c.r200LrAutoExposureEnabled == 1 {
      assert o in WrittenBy(w);
      assert w in e;
    }
  }

  /** Each window edge is written exactly when left/right auto-exposure is 1. */
  lemma R200EdgeOptionsWritten(c: R200Config, depthWidth: int, depthHeight: int)
    ensures forall o :: Group(o) == EdgeGroup ==>
      (Writes(R200Commands(c, depthWidth, depthHeight), o) <==> c.r200LrAutoExposureEnabled == 1)
  {
    forall o | Group(o) == EdgeGroup
      ensures Writes(R200Commands(c, depthWidth, depthHeight), o) <==> c.r200LrAutoExposureEnabled == 1
    {
      R200EdgeOptionWritten(c, depthWidth, depthHeight, o);
    }
  }

  /** Depth enable is the first command and the depth-control preset the last, applied once. */
  lemma R200Order(c: R200Config, depthWidth: int, depthHeight: int)
    ensures var cmds := R200Commands(c, depthWidth, depthHeight);
      && |cmds| >= 2
      && cmds[0] == SetDepthEnable(c.enableDepth)
      && cmds[|cmds| - 1] == ApplyDepthControlPreset(c.r200DcPreset)
      && forall i :: 0 <= i < |cmds| - 1 ==> !cmds[i].ApplyDepthControlPreset?
  {
    var cmds := R200Commands(c, depthWidth, depthHeight);
    var body := R200Settings(c) + R200EdgeCommands(c, depthWidth, depthHeight);
    assert cmds == body + [ApplyDepthControlPreset(c.r200DcPreset)];
    R200SettingsWithin(c);
    forall i | 0 <= i < |cmds| - 1 ensures !cmds[i].ApplyDepthControlPreset? {
      assert cmds[i] == body[i];
      if i < |R200Settings(c)| {
        assert body[i] == R200Settings(c)[i];
      }
    }
  }

  /** WriteAll with pairwise distinct options leaves each named option at its written value. */
  lemma {:induction false} WriteAllDistinct(options: map<RsOption, real>, ws: seq<OptionValue>, i: nat)
    requires i < |ws|
    requires forall j, k :: 0 <= j < k < |ws| ==> ws[j].option != ws[k].option
    ensures ws[i].option in WriteAll(options, ws) && WriteAll(options, ws)[ws[i].option] == ws[i].value
    decreases |ws|
  {
    var next := options[ws[0].option := ws[0].value];
    if i == 0 {
      WriteAllUntouched(next, ws[1..], ws[0].option);
    } else {
      WriteAllDistinct(next, ws[1..], i - 1);
    }
  }

  /** A multi-write followed by commands that leave its options alone: the device ends with its values. */
  lemma MultiWriteSurvives(s: DeviceState, prefix: seq<Command>, ws: seq<OptionValue>, tail: seq<Command>, i: nat)
    requires i < |ws|
    requires forall j, k :: 0 <= j < k < |ws| ==> ws[j].option != ws[k].option
    requires !Writes(tail, ws[i].option)
    ensures var after := Run(s, prefix + [SetOptions(ws)] + tail).options;
      ws[i].option in after && after[ws[i].option] == ws[i].value
  {
    var mid := prefix + [SetOptions(ws)];
    RunAppend(s, mid, tail);
    RunAppend(s, prefix, [SetOptions(ws)]);
    assert [SetOptions(ws)][..0] == [];
    WriteAllDistinct(Run(s, prefix).options, ws, i);
    RunOptionUntouched(Run(s, mid), tail, ws[i].option);
  }

  /**
   * After the R200 callback with left/right auto-exposure at 1, the device
   * holds the clamped edges, whatever it held before.
   */
  lemma R200DeviceHoldsClampedEdges(s: DeviceState, c: R200Config, depthWidth: int, depthHeight: int)
    requires c.r200LrAutoExposureEnabled == 1
    ensures var after := Run(s, R200Commands(c, depthWidth, depthHeight)).options;
      && R200AutoExposureTopEdge in after && R200AutoExposureBottomEdge in after
      && R200AutoExposureLeftEdge in after && R200AutoExposureRightEdge in after
      && after[R200AutoExposureTopEdge] == ClampEdge(c.r200AutoExposureTopEdge, depthHeight) as real
      && after[R200AutoExposureBottomEdge] == ClampEdge(c.r200AutoExposureBottomEdge, depthHeight) as real
      && after[R200AutoExposureLeftEdge] == ClampEdge(c.r200AutoExposureLeftEdge, depthWidth) as real
      && after[R200AutoExposureRightEdge] == ClampEdge(c.r200AutoExposureRightEdge, depthWidth) as real
  {
    var prefix := R200Settings(c);
    var ws := EdgeWrites(ClampEdges(c, depthWidth, depthHeight));
    var tail := [ApplyDepthControlPreset(c.r200DcPreset)];
    assert R200Commands(c, depthWidth, depthHeight) == prefix + [SetOptions(ws)] + tail;
    assert forall o :: !Writes(tail, o);
    MultiWriteSurvives(s, prefix, ws, tail, 0);
    MultiWriteSurvives(s, prefix, ws, tail, 1);
    MultiWriteSurvives(s, prefix, ws, tail, 2);
    MultiWriteSurvives(s, prefix, ws, tail, 3);
  }

  // ---- ZR300 ----

  function ZR300ColorCommands(c: ZR300Config): seq<Command> {
    [SetOption(ColorBacklightCompensation, c.colorBacklightCompensation as real),
     SetOption(ColorBrightness, c.colorBrightness as real),
     SetOption(ColorContrast, c.colorContrast as real),
     SetOption(ColorExposure, c.colorExposure as real),
     SetOption(ColorGain, c.colorGain as real),
     SetOption(ColorGamma, c.colorGamma as real),
     SetOption(ColorHue, c.colorHue as real),
     SetOption(ColorSaturation, c.colorSaturation as real),
     SetOption(ColorSharpness, c.colorSharpness as real)]
  }

  function ZR300ColorModeCommands(c: ZR300Config): seq<Command> {
    [SetOption(ColorEnableAutoWhiteBalance, c.colorEnableAutoWhiteBalance as real)]
    + (if c.colorEnableAutoWhiteBalance == 0 then [SetOption(ColorWhiteBalance, c.colorWhiteBalance as real)] else [])
    + [SetOption(ColorEnableAutoExposure, c.colorEnableAutoExposure as real)]
  }

  function ZR300LrCommands(c: ZR300Config): seq<Command> {
    [SetOption(R200LrAutoExposureEnabled, c.r200LrAutoExposureEnabled as real)]
    + (if c.r200LrAutoExposureEnabled == 0 then [SetOption(R200LrExposure, c.r200LrExposure as real)] else [])
    + [SetOption(R200LrGain, c.r200LrGain as real),
       SetOption(R200EmitterEnabled, c.r200EmitterEnabled as real)]
  }

  function ZR300DepthClampCommands(c: ZR300Config): seq<Command> {
    [SetOption(R200DepthClampMin, c.r200DepthClampMin as real),
     SetOption(R200DepthClampMax, c.r200DepthClampMax as real)]
  }

  function ZR300FisheyeCommands(c: ZR300Config): seq<Command> {
    [SetOption(FisheyeExposure, c.fisheyeExposure as real),
     SetOption(FisheyeGain, c.fisheyeGain as real),
     SetOption(FisheyeEnableAutoExposure, c.fisheyeEnableAutoExposure as real),
     SetOption(FisheyeAutoExposureMode, c.fisheyeAutoExposureMode as real),
     SetOption(FisheyeAutoExposureAntiflickerRate, c.fisheyeAutoExposureAntiflickerRate as real),
     SetOption(FisheyeAutoExposurePixelSampleRate, c.fisheyeAutoExposurePixelSampleRate as real),
     SetOption(FisheyeAutoExposureSkipFrames, c.fisheyeAutoExposureSkipFrames as real)]
  }

  function ZR300StreamingCommands(c: ZR300Config): seq<Command> {
    [SetOption(FramesQueueSize, c.framesQueueSize as real),
     SetOption(HardwareLoggerEnabled, c.hardwareLoggerEnabled as real)]
  }

  /**
   * The ZR300 commands before the preset: depth enable, colour, left/right
   * imager, depth clamp. After the depth enable all are single-option writes,
   * with one extra write for each manual setting whose automatic mode is off.
   */
  function ZR300Settings(c: ZR300Config): (r: seq<Command>)
    ensures |r| == 17 + (if c.colorEnableAutoWhiteBalance == 0 then 1 else 0)
                      + (if c.r200LrAutoExposureEnabled == 0 then 1 else 0)
    ensures r[0] == SetDepthEnable(c.enableDepth)
    ensures forall i :: 1 <= i < |r| ==> r[i].SetOption?
  {
    [SetDepthEnable(c.enableDepth)] + ZR300ColorCommands(c) + ZR300ColorModeCommands(c)
    + ZR300LrCommands(c) + ZR300DepthClampCommands(c)
  }

  /** The ZR300 commands after the preset: fisheye options, frame queue size, hardware logger. */
  function ZR300LateCommands(c: ZR300Config): seq<Command> {
    ZR300FisheyeCommands(c) + ZR300StreamingCommands(c)
  }

  /**
   * The ZR300 callback's commands, in order. The preset is applied exactly
   * once, after the settings and before the nine fisheye and streaming writes.
   */
  function ZR300Commands(c: ZR300Config): (r: seq<Command>)
    ensures |r| == |ZR300Settings(c)| + 10
    ensures r[0] == SetDepthEnable(c.enableDepth)
    ensures r[|ZR300Settings(c)|] == ApplyDepthControlPreset(c.r200DcPreset)
    ensures forall i :: 0 <= i < |r| && i != |ZR300Settings(c)| ==> !r[i].ApplyDepthControlPreset?
  {
    ZR300Settings(c) + [ApplyDepthControlPreset(c.r200DcPreset)] + ZR300LateCommands(c)
  }

  const EarlyGroups: set<OptionGroup> := {ColorGroup, LrGroup, DepthClampGroup}
  const LateGroups: set<OptionGroup> := {FisheyeGroup, StreamingGroup}

  /** The manual white balance is written exactly when automatic white balance is off. */
  lemma ZR300WhiteBalanceGuard(c: ZR300Config)
    ensures Writes(ZR300Commands(c), ColorWhiteBalance) <==> c.colorEnableAutoWhiteBalance == 0
  {
    if c.colorEnableAutoWhiteBalance == 0 {
      var w := SetOption(ColorWhiteBalance, c.colorWhiteBalance as real);
      assert w in ZR300ColorModeCommands(c);
      assert w in ZR300Commands(c) && ColorWhiteBalance in WrittenBy(w);
    }
  }

  /** The manual left/right exposure is written exactly when left/right auto-exposure is off. */
  lemma ZR300LrExposureGuard(c: ZR300Config)
    ensures Writes(ZR300Commands(c), R200LrExposure) <==> c.r200LrAutoExposureEnabled == 0
  {
    if c.r200LrAutoExposureEnabled == 0 {
      var w := SetOption(R200LrExposure, c.r200LrExposure as real);
      assert w in ZR300LrCommands(c);
      assert w in ZR300Commands(c) && R200LrExposure in WrittenBy(w);
    }
  }

  /** Before its preset the ZR300 callback writes colour, left/right-imager and depth-clamp options only. */
  lemma ZR300SettingsWithin(c: ZR300Config)
    ensures AllWithin(ZR300Settings(c), EarlyGroups)
  {
    var gs := EarlyGroups;
    var a := [SetDepthEnable(c.enableDepth)];
    assert AllWithin(a, gs);
    assert AllWithin(ZR300ColorCommands(c), gs);
    assert AllWithin(ZR300ColorModeCommands(c), gs);
    assert AllWithin(ZR300LrCommands(c), gs);
    assert AllWithin(ZR300DepthClampCommands(c), gs);
    AllWithinConcat(a, ZR300ColorCommands(c), gs);
    AllWithinConcat(a + ZR300ColorCommands(c), ZR300ColorModeCommands(c), gs);
    AllWithinConcat(a + ZR300ColorCommands(c) + ZR300ColorModeCommands(c), ZR300LrCommands(c), gs);
    AllWithinConcat(a + ZR300ColorCommands(c) + ZR300ColorModeCommands(c) + ZR300LrCommands(c),
      ZR300DepthClampCommands(c), gs);
  }

  /** The fisheye stretch writes every fisheye option. */
  lemma ZR300FisheyeWritesAll(c: ZR300Config, o: RsOption)
    requires Group(o) == FisheyeGroup
    ensures Writes(ZR300FisheyeCommands(c), o)
  {
    var f := ZR300FisheyeCommands(c);
    var i := match o
      case FisheyeExposure => 0
      case FisheyeGain => 1
      case FisheyeEnableAutoExposure => 2
      case FisheyeAutoExposureMode => 3
      case FisheyeAutoExposureAntiflickerRate => 4
      case FisheyeAutoExposurePixelSampleRate => 5
      case _ => 6;
    assert f[i] in f && o in WrittenBy(f[i]);
  }

  /** The streaming stretch writes both streaming options. */
  lemma ZR300StreamingWritesAll(c: ZR300Config, o: RsOption)
    requires Group(o) == StreamingGroup
    ensures Writes(ZR300StreamingCommands(c), o)
  {
    var s := ZR300StreamingCommands(c);
    var i := if o == FramesQueueSize then 0 else 1;
    assert s[i] in s && o in WrittenBy(s[i]);
  }

  /** After its preset the ZR300 callback writes every fisheye and streaming option, and nothing else. */
  lemma ZR300LateCommandsWriteLateOptions(c: ZR300Config)
    ensures AllWithin(ZR300LateCommands(c), LateGroups)
    ensures forall o :: Writes(ZR300LateCommands(c), o) <==> Group(o) in LateGroups
  {
    var f := ZR300FisheyeCommands(c);
    var s := ZR300StreamingCommands(c);
    assert AllWithin(f, LateGroups);
    assert AllWithin(s, LateGroups);
    AllWithinConcat(f, s, LateGroups);
    AllWithinWrites(f + s, LateGroups);
    forall o | Group(o) in LateGroups ensures Writes(f + s, o) {
      WritesConcat(f, s, o);
      if Group(o) == FisheyeGroup {
        ZR300FisheyeWritesAll(c, o);
      } else {
        ZR300StreamingWritesAll(c, o);
      }
    }
  }

  /** The ZR300 callback never issues a multi-option write, and never writes a window edge. */
  lemma ZR300NoEdgeWrite(c: ZR300Config)
    ensures forall cmd :: cmd in ZR300Commands(c) ==> !cmd.SetOptions?
    ensures forall o :: Group(o) == EdgeGroup ==> !Writes(ZR300Commands(c), o)
  {
    var gs := EarlyGroups + LateGroups;
    var p := [ApplyDepthControlPreset(c.r200DcPreset)];
    ZR300SettingsWithin(c);
    ZR300LateCommandsWriteLateOptions(c);
    AllWithinWrites(ZR300Settings(c), EarlyGroups);
    AllWithinWrites(ZR300LateCommands(c), LateGroups);
    forall o | Group(o) == EdgeGroup ensures !Writes(ZR300Commands(c), o) {
      WritesConcat(ZR300Settings(c) + p, ZR300LateCommands(c), o);
      WritesConcat(ZR300Settings(c), p, o);
      assert !Writes(p, o);
    }
  }

  /** The only preset is the one between the settings and the late commands. */
  lemma PresetSplits(early: seq<Command>, p: Command, late: seq<Command>)
    requires forall cmd :: cmd in early ==> !cmd.ApplyDepthControlPreset?
    requires forall cmd :: cmd in late ==> !cmd.ApplyDepthControlPreset?
    ensures var cmds := early + [p] + late;
      && cmds[|early|] == p && cmds[..|early|] == early && cmds[|early| + 1..] == late
      && forall i :: 0 <= i < |cmds| && i != |early| ==> !cmds[i].ApplyDepthControlPreset?
  {
    var cmds := early + [p] + late;
    assert cmds[..|early|] == early;
    assert cmds[|early| + 1..] == late;
    forall i | 0 <= i < |cmds| && i != |early| ensures !cmds[i].ApplyDepthControlPreset? {
      if i < |early| {
        assert cmds[i] == early[i] && early[i] in early;
      } else {
        assert cmds[i] == late[i - |early| - 1] && late[i - |early| - 1] in late;
      }
    }
  }

  /**
   * The ZR300 preset is applied once, at position k: before it come depth
   * enable and colour, left/right-imager and depth-clamp writes (the depth
   * clamps among them), after it exactly the fisheye and streaming writes.
   */
  lemma ZR300Order(c: ZR300Config)
    ensures var cmds := ZR300Commands(c);
      var k := |ZR300Settings(c)|;
      && 0 < k < |cmds|
      && cmds[0] == SetDepthEnable(c.enableDepth)
      && cmds[k] == ApplyDepthControlPreset(c.r200DcPreset)
      && (forall i :: 0 <= i < |cmds| && i != k ==> !cmds[i].ApplyDepthControlPreset?)
      && (forall o :: Writes(cmds[..k], o) ==> Group(o) in EarlyGroups)
      && Writes(cmds[..k], R200DepthClampMin) && Writes(cmds[..k], R200DepthClampMax)
      && (forall o :: Writes(cmds[k + 1..], o) <==> Group(o) in LateGroups)
  {
    var early := ZR300Settings(c);
    var late := ZR300LateCommands(c);
    ZR300SettingsWithin(c);
    ZR300LateCommandsWriteLateOptions(c);
    AllWithinWrites(early, EarlyGroups);
    AllWithinWrites(late, LateGroups);
    PresetSplits(early, ApplyDepthControlPreset(c.r200DcPreset), late);
    var clamp := ZR300DepthClampCommands(c);
    var before := [SetDepthEnable(c.enableDepth)] + ZR300ColorCommands(c) + ZR300ColorModeCommands(c) + ZR300LrCommands(c);
    assert early == before + clamp;
    WritesConcat(before, clamp, R200DepthClampMin);
    WritesConcat(before, clamp, R200DepthClampMax);
    assert clamp[0] in clamp && clamp[1] in clamp;
    assert R200DepthClampMin in WrittenBy(clamp[0]) && R200DepthClampMax in WrittenBy(clamp[1]);
  }
}
