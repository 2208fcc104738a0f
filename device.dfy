/**
 * The camera device as the drivers see it: a map from device option to value
 * plus a few switches, driven by a log of commands (single option writes,
 * the atomic multi-option write, depth-control presets, depth enable and the
 * motion-tracking commands).
 */
module Device {
  import opened Wrappers

  /** The device options the two configuration callbacks write. */
  datatype RsOption =
    | ColorBacklightCompensation | ColorBrightness | ColorContrast | ColorExposure
    | ColorGain | ColorGamma | ColorHue | ColorSaturation | ColorSharpness
    | ColorEnableAutoWhiteBalance | ColorWhiteBalance | ColorEnableAutoExposure
    | R200LrAutoExposureEnabled | R200LrExposure | R200LrGain | R200EmitterEnabled
    | R200AutoExposureLeftEdge | R200AutoExposureTopEdge
    | R200AutoExposureRightEdge | R200AutoExposureBottomEdge
    | R200DepthClampMin | R200DepthClampMax
    | FisheyeExposure | FisheyeGain | FisheyeEnableAutoExposure | FisheyeAutoExposureMode
    | FisheyeAutoExposureAntiflickerRate | FisheyeAutoExposurePixelSampleRate
    | FisheyeAutoExposureSkipFrames | FramesQueueSize | HardwareLoggerEnabled

  /** One (option, value) pair of a multi-option write. */
  datatype OptionValue = OptionValue(option: RsOption, value: real)

  /** A command issued to the device, in the order the driver issues them. */
  datatype Command =
    | SetDepthEnable(enabled: bool)
    | SetOption(option: RsOption, value: real)
    | SetOptions(writes: seq<OptionValue>)
    | ApplyDepthControlPreset(preset: int)
    | EnableMotionTracking
    | StopMotionSource
    | DisableMotionTracking

  /** What the device holds. The effect of a preset on individual options is the device's own business. */
  datatype DeviceState = DeviceState(
    options: map<RsOption, real>,
    depthEnabled: bool,
    preset: Option<int>,
    motionTracking: bool)

  /** Performs the writes of a multi-option write, left to right. */
  function WriteAll(options: map<RsOption, real>, writes: seq<OptionValue>): (r: map<RsOption, real>)
    ensures r.Keys == options.Keys + (set w | w in writes :: w.option)
    decreases |writes|
  {
    if writes == [] then options
    else WriteAll(options[writes[0].option := writes[0].value], writes[1..])
  }

  /**
   * The state after one command. An option write adds or overwrites exactly
   * the options it names and touches no switch; any other command leaves
   * every option as it was.
   */
  function Step(s: DeviceState, c: Command): (r: DeviceState)
    ensures !c.SetOption? && !c.SetOptions? ==> r.options == s.options
    ensures c.SetOption? || c.SetOptions? ==> r.(options := s.options) == s
  {
    match c
    case SetDepthEnable(b) => s.(depthEnabled := b)
    case SetOption(o, v) => s.(options := s.options[o := v])
    case SetOptions(ws) => s.(options := WriteAll(s.options, ws))
    case ApplyDepthControlPreset(p) => s.(preset := Some(p))
    case EnableMotionTracking => s.(motionTracking := true)
    case StopMotionSource => s
    case DisableMotionTracking => s.(motionTracking := false)
  }

  /** The state after a command sequence. No option is ever removed (`RunOptionUntouched` says which ones are added). */
  function Run(s: DeviceState, cmds: seq<Command>): (r: DeviceState)
    ensures s.options.Keys <= r.options.Keys
    decreases |cmds|
  {
    if cmds == [] then s
    else
      var init, last := cmds[..|cmds| - 1], cmds[|cmds| - 1];
      Step(Run(s, init), last)
  }

  lemma {:induction false} RunAppend(s: DeviceState, a: seq<Command>, b: seq<Command>)
    ensures Run(s, a + b) == Run(Run(s, a), b)
    decreases |b|
  {
    if b == [] {
      assert a + b == a;
    } else {
      assert (a + b)[..|a + b| - 1] == a + b[..|b| - 1];
      RunAppend(s, a, b[..|b| - 1]);
    }
  }

  /**
   * The net effect of a command sequence: the last value written to each
   * option, and the last setting of each switch it touched.
   */
  datatype Patch = Patch(
    options: map<RsOption, real>,
    depthEnabled: Option<bool>,
    preset: Option<int>,
    motionTracking: Option<bool>)

  function Overlay(s: DeviceState, p: Patch): DeviceState {
    DeviceState(
      s.options + p.options,
      p.depthEnabled.GetOr(s.depthEnabled),
      if p.preset.Some? then p.preset else s.preset,
      p.motionTracking.GetOr(s.motionTracking))
  }

  function Effect(cmds: seq<Command>): Patch
    decreases |cmds|
  {
    if cmds == [] then Patch(map[], None, None, None)
    else
      var p := Effect(cmds[..|cmds| - 1]);
      match cmds[|cmds| - 1]
      case SetDepthEnable(b) => p.(depthEnabled := Some(b))
      case SetOption(o, v) => p.(options := p.options[o := v])
      case SetOptions(ws) => p.(options := WriteAll(p.options, ws))
      case ApplyDepthControlPreset(q) => p.(preset := Some(q))
      case EnableMotionTracking => p.(motionTracking := Some(true))
      case StopMotionSource => p
      case DisableMotionTracking => p.(motionTracking := Some(false))
  }

  lemma {:induction false} WriteAllOverlay(base: map<RsOption, real>, patch: map<RsOption, real>, ws: seq<OptionValue>)
    ensures WriteAll(base + patch, ws) == base + WriteAll(patch, ws)
    decreases |ws|
  {
    if ws != [] {
      assert (base + patch)[ws[0].option := ws[0].value] == base + patch[ws[0].option := ws[0].value];
      WriteAllOverlay(base, patch[ws[0].option := ws[0].value], ws[1..]);
    }
  }

  /** Running commands from any state is laying their net effect over that state. */
  lemma {:induction false} RunIsOverlay(s: DeviceState, cmds: seq<Command>)
    ensures Run(s, cmds) == Overlay(s, Effect(cmds))
    decreases |cmds|
  {
    if cmds != [] {
      var init := cmds[..|cmds| - 1];
      RunIsOverlay(s, init);
      var p := Effect(init);
      match cmds[|cmds| - 1]
      case SetOption(o, v) =>
        assert (s.options + p.options)[o := v] == s.options + p.options[o := v];
      case SetOptions(ws) =>
        WriteAllOverlay(s.options, p.options, ws);
      case _ =>
    }
  }

  /**
   * Applying the same command sequence twice in succession leaves the device
   * as applying it once does: every command overwrites, none accumulates.
   */
  lemma RunIdempotent(s: DeviceState, cmds: seq<Command>)
    ensures Run(Run(s, cmds), cmds) == Run(s, cmds)
  {
    RunIsOverlay(s, cmds);
    RunIsOverlay(Run(s, cmds), cmds);
    var p := Effect(cmds);
    assert (s.options + p.options) + p.options == s.options + p.options;
  }

  /** The options a command writes. */
  function WrittenBy(c: Command): set<RsOption> {
    match c
    case SetOption(o, _) => {o}
    case SetOptions(ws) => set w | w in ws :: w.option
    case _ => {}
  }

  /** Whether some command of `cmds` writes option `o`. */
  predicate Writes(cmds: seq<Command>, o: RsOption) {
    exists c :: c in cmds && o in WrittenBy(c)
  }

  /** A command that writes nothing leaves every option alone, and a write sets exactly what it names. */
  lemma {:induction false} RunOptionUntouched(s: DeviceState, cmds: seq<Command>, o: RsOption)
    requires !Writes(cmds, o)
    ensures (o in Run(s, cmds).options) == (o in s.options)
    ensures o in s.options ==> Run(s, cmds).options[o] == s.options[o]
    decreases |cmds|
  {
    if cmds != [] {
      var init := cmds[..|cmds| - 1];
      var last := cmds[|cmds| - 1];
      assert !Writes(init, o) by {
        forall c | c in init ensures o !in WrittenBy(c) {
          assert c in cmds;
        }
      }
      assert last in cmds;
      RunOptionUntouched(s, init, o);
      if last.SetOptions? {
        WriteAllUntouched(Run(s, init).options, last.writes, o);
      }
    }
  }

  lemma {:induction false} WriteAllUntouched(options: map<RsOption, real>, ws: seq<OptionValue>, o: RsOption)
    requires forall w :: w in ws ==> w.option != o
    ensures (o in WriteAll(options, ws)) == (o in options)
    ensures o in options ==> WriteAll(options, ws)[o] == options[o]
    decreases |ws|
  {
    if ws != [] {
      assert ws[0] in ws;
      WriteAllUntouched(options[ws[0].option := ws[0].value], ws[1..], o);
    }
  }

  /**
   * The device, a map from option to value plus switches, with the log of
   * every command issued to it. Its state is always the initial state run
   * through the log.
   */
  class Device {
    var options: map<RsOption, real>
    var depthEnabled: bool
    var preset: Option<int>
    var motionTracking: bool
    var log: seq<Command>
    ghost const initial: DeviceState

    function State(): DeviceState
      reads this
    {
      DeviceState(options, depthEnabled, preset, motionTracking)
    }

    ghost predicate Valid()
      reads this
    {
      State() == Run(initial, log)
    }

    constructor (options0: map<RsOption, real>)
      ensures Valid() && log == []
      ensures State() == DeviceState(options0, false, None, false)
    {
      options, depthEnabled, preset, motionTracking := options0, false, None, false;
      log := [];
      initial := DeviceState(options0, false, None, false);
    }

    /** Records `c` and performs it. */
    method Execute(c: Command)
      requires Valid()
      modifies this
      ensures Valid()
      ensures log == old(log) + [c]
      ensures State() == Step(old(State()), c)
    {
      match c {
        case SetDepthEnable(b) => depthEnabled := b;
        case SetOption(o, v) => options := options[o := v];
        case SetOptions(ws) => options := WriteAll(options, ws);
        case ApplyDepthControlPreset(p) => preset := Some(p);
        case EnableMotionTracking => motionTracking := true;
        case StopMotionSource =>
        case DisableMotionTracking => motionTracking := false;
      }
      log := log + [c];
      assert log[..|log| - 1] == old(log);
    }

    /** rs_set_device_option. */
    method SetDeviceOption(o: RsOption, value: real)
      requires Valid()
      modifies this
      ensures Valid() && log == old(log) + [SetOption(o, value)]
      ensures options == old(options)[o := value]
    {
      Execute(SetOption(o, value));
    }

    /** rs_set_device_options: the atomic multi-option write. */
    method SetDeviceOptions(writes: seq<OptionValue>)
      requires Valid()
      modifies this
      ensures Valid() && log == old(log) + [SetOptions(writes)]
      ensures options == WriteAll(old(options), writes)
    {
      Execute(SetOptions(writes));
    }

    /** rs_apply_depth_control_preset. */
    method ApplyPreset(p: int)
      requires Valid()
      modifies this
      ensures Valid() && log == old(log) + [ApplyDepthControlPreset(p)]
      ensures preset == Some(p) && options == old(options)
    {
      Execute(ApplyDepthControlPreset(p));
    }

    /** The driver's depth enable, recorded as one command. */
    method SetDepth(enabled: bool)
      requires Valid()
      modifies this
      ensures Valid() && log == old(log) + [SetDepthEnable(enabled)]
      ensures depthEnabled == enabled && options == old(options)
    {
      Execute(SetDepthEnable(enabled));
    }
  }
}
