/**
 * The two camera drivers as objects: the R200 driver (device, stream
 * tables, colour-to-IR2 extrinsic) and the ZR300 driver built on it (fisheye
 * and IMU extrinsics, the IMU aggregator and its publishing thread).
 */
module Nodelet {
  import opened Wrappers
  import opened Constants
  import opened Device
  import opened ConfigCallbacks
  import opened Transforms
  import opened Streams
  import opened Imu

  /** A transform broadcaster: the edges sent so far, oldest first. */
  class Broadcaster {
    var sent: seq<Edge>

    constructor ()
      ensures sent == []
    {
      sent := [];
    }

    method SendTransform(e: Edge)
      modifies this
      ensures sent == old(sent) + [e]
    {
      sent := sent + [e];
    }
  }

  lemma Split<T>(s: seq<T>, a: seq<T>, k: nat)
    requires k <= |a|
    ensures s + a[..k] + a[k..] == s + a
  {
    assert a[..k] + a[k..] == a;
  }

  lemma Concat2<T>(s: seq<T>, a: seq<T>, b: seq<T>)
    ensures s + a + b == s + (a + b)
  {
  }

  lemma Concat3<T>(s: seq<T>, a: seq<T>, b: seq<T>, c: seq<T>)
    ensures s + a + b + c == s + (a + b + c)
  {
  }

  lemma Concat4<T>(s: seq<T>, a: seq<T>, b: seq<T>, c: seq<T>, d: seq<T>)
    ensures s + a + b + c + d == s + (a + b + c + d)
  {
  }

  lemma Concat5<T>(s: seq<T>, a: seq<T>, b: seq<T>, c: seq<T>, d: seq<T>, e: seq<T>)
    ensures s + a + b + c + d + e == s + (a + b + c + d + e)
  {
  }

  /**
   * The in-place clamp of the callback: each edge at or beyond the depth
   * stream's height (top, bottom) or width (left, right) is lowered to that
   * bound minus one.
   */
  method ClampWindow(config: R200Config, depthWidth: int, depthHeight: int) returns (applied: R200Config)
    ensures applied == ClampEdges(config, depthWidth, depthHeight)
  {
    applied := config;
    if applied.r200AutoExposureTopEdge >= depthHeight {
      applied := applied.(r200AutoExposureTopEdge := depthHeight - 1);
    }
    if applied.r200AutoExposureBottomEdge >= depthHeight {
      applied := applied.(r200AutoExposureBottomEdge := depthHeight - 1);
    }
    if applied.r200AutoExposureLeftEdge >= depthWidth {
      applied := applied.(r200AutoExposureLeftEdge := depthWidth - 1);
    }
    if applied.r200AutoExposureRightEdge >= depthWidth {
      applied := applied.(r200AutoExposureRightEdge := depthWidth - 1);
    }
  }

  /** The R200 driver. */
  class R200Nodelet {
    const device: Device
    const streams: StreamTable
    const baseFrameId: string
    var color2ir2: Extrinsics

    ghost predicate Valid()
      reads this, device
    {
      device.Valid() && streams.Valid()
    }

    constructor (device: Device, streams: StreamTable, baseFrameId: string, color2ir2: Extrinsics)
      requires device.Valid() && streams.Valid()
      ensures Valid()
      ensures this.device == device && this.streams == streams && this.baseFrameId == baseFrameId
      ensures this.color2ir2 == color2ir2
    {
      this.device := device;
      this.streams := streams;
      this.baseFrameId := baseFrameId;
      this.color2ir2 := color2ir2;
    }

    /** The first four R200 colour options: backlight compensation, brightness, contrast, gain. */
    method SendColorImage(c: R200Config)
      requires device.Valid()
      modifies device
      ensures device.Valid() && device.log == old(device.log) + R200ColorCommands(c)[..4]
    {
      device.SetDeviceOption(ColorBacklightCompensation, c.colorBacklightCompensation as real);
      device.SetDeviceOption(ColorBrightness, c.colorBrightness as real);
      device.SetDeviceOption(ColorContrast, c.colorContrast as real);
      device.SetDeviceOption(ColorGain, c.colorGain as real);
    }

    /** The remaining R200 colour options: gamma, hue, saturation, sharpness. */
    method SendColorTone(c: R200Config)
      requires device.Valid()
      modifies device
      ensures device.Valid() && device.log == old(device.log) + R200ColorCommands(c)[4..]
    {
      device.SetDeviceOption(ColorGamma, c.colorGamma as real);
      device.SetDeviceOption(ColorHue, c.colorHue as real);
      device.SetDeviceOption(ColorSaturation, c.colorSaturation as real);
      device.SetDeviceOption(ColorSharpness, c.colorSharpness as real);
    }

    /** The colour options, in the order the callback writes them. */
    method SendColor(c: R200Config)
      requires Valid()
      modifies device
      ensures Valid() && device.log == old(device.log) + R200ColorCommands(c)
    {
      ghost var log0 := device.log;
      SendColorImage(c);
      SendColorTone(c);
      Split(log0, R200ColorCommands(c), 4);
    }

    /** The automatic white balance, then the manual one only when the automatic one is off. */
    method SendWhiteBalance(c: R200Config)
      requires device.Valid()
      modifies device
      ensures device.Valid() && device.log == old(device.log) + R200WhiteBalanceCommands(c)
    {
      device.SetDeviceOption(ColorEnableAutoWhiteBalance, c.colorEnableAutoWhiteBalance as real);
      if c.colorEnableAutoWhiteBalance == 0 {
        device.SetDeviceOption(ColorWhiteBalance, c.colorWhiteBalance as real);
      }
    }

    /** The left/right imager: auto-exposure, manual exposure only without it, gain, emitter. */
    method SendLr(c: R200Config)
      requires device.Valid()
      modifies device
      ensures device.Valid() && device.log == old(device.log) + R200LrCommands(c)
    {
      device.SetDeviceOption(R200LrAutoExposureEnabled, c.r200LrAutoExposureEnabled as real);
      if c.r200LrAutoExposureEnabled == 0 {
        device.SetDeviceOption(R200LrExposure, c.r200LrExposure as real);
      }
      device.SetDeviceOption(R200LrGain, c.r200LrGain as real);
      device.SetDeviceOption(R200EmitterEnabled, c.r200EmitterEnabled as real);
    }

    /**
     * The edge step of the callback: with left/right auto-exposure at 1, each
     * edge at or beyond the depth stream's height (top, bottom) or width
     * (left, right) is lowered to that bound minus one, in place, and the
     * four are sent in one multi-option write.
     */
    method SendEdges(config: R200Config) returns (applied: R200Config)
      requires Valid()
      modifies device
      ensures Valid()
      ensures var w := streams.width[StreamIndex(Depth)]; var h := streams.height[StreamIndex(Depth)];
        && device.log == old(device.log) + R200EdgeCommands(config, w, h)
        && applied == if config.r200LrAutoExposureEnabled == 1 then ClampEdges(config, w, h) else config
    {
      applied := config;
      if applied.r200LrAutoExposureEnabled == 1 {
        applied := ClampWindow(applied, streams.width[StreamIndex(Depth)], streams.height[StreamIndex(Depth)]);
        device.SetDeviceOptions(EdgeWrites(applied));
      }
    }

    /**
     * The dynamic-reconfigure callback. It sends the configuration to the
     * device and returns the configuration as the callback leaves it: with
     * left/right auto-exposure at 1 the four edges are clamped in place
     * against the depth stream's width and height.
     */
    method ConfigCallback(config: R200Config) returns (applied: R200Config)
      requires Valid()
      modifies device
      ensures Valid()
      ensures var w := streams.width[StreamIndex(Depth)]; var h := streams.height[StreamIndex(Depth)];
        && device.log == old(device.log) + R200Commands(config, w, h)
        && applied == if config.r200LrAutoExposureEnabled == 1 then ClampEdges(config, w, h) else config
    {
      ghost var log0 := device.log;
      device.SetDepth(config.enableDepth);
      SendColor(config);
      SendWhiteBalance(config);
      SendLr(config);
      Concat4(log0, [SetDepthEnable(config.enableDepth)], R200ColorCommands(config),
        R200WhiteBalanceCommands(config), R200LrCommands(config));
      applied := SendEdges(config);
      device.ApplyPreset(config.r200DcPreset);
      Concat3(log0, R200Settings(config), R200EdgeCommands(config, streams.width[StreamIndex(Depth)],
        streams.height[StreamIndex(Depth)]), [ApplyDepthControlPreset(config.r200DcPreset)]);
    }

    /** The IR2 query of the extrinsics step: the colour-to-IR2 extrinsic the device reports. */
    method GetCameraExtrinsics(ir2: Extrinsics)
      modifies this
      ensures color2ir2 == ir2
    {
      color2ir2 := ir2;
    }

    /** The two IR2 edges: base to IR2, IR2 to its optical frame. */
    function Ir2Edges(): seq<Edge>
      requires Valid()
      reads this, device, streams.frameId, streams.opticalFrameId
    {
      var i := StreamIndex(Infrared2);
      StreamEdges(baseFrameId, streams.frameId[i], streams.opticalFrameId[i], color2ir2)
    }

    /** Static publication of the IR2 edges, each message filled field by field. */
    method PublishStaticTransforms(b: Broadcaster)
      requires Valid()
      modifies b
      ensures b.sent == old(b.sent) + Ir2Edges()
    {
      var i := StreamIndex(Infrared2);
      var t := color2ir2.translation;
      b.SendTransform(Edge(baseFrameId, streams.frameId[i], Vector3(t[2], -t[0], -t[1]), Quaternion(0.0, 0.0, 0.0, 1.0)));
      b.SendTransform(Edge(streams.frameId[i], streams.opticalFrameId[i], Vector3(0.0, 0.0, 0.0), OpticalRotation));
    }

    /** Dynamic publication of the IR2 edges: the same two edges, built as transforms. */
    method PublishDynamicTransforms(b: Broadcaster)
      requires Valid()
      modifies b
      ensures b.sent == old(b.sent) + Ir2Edges()
    {
      var i := StreamIndex(Infrared2);
      b.SendTransform(BaseEdge(baseFrameId, streams.frameId[i], color2ir2));
      b.SendTransform(OpticalEdge(streams.frameId[i], streams.opticalFrameId[i]));
    }
  }

  /** Where the device streams from: the cameras, the motion module, or both. */
  datatype Source = VideoSource | MotionSource | AllSources

  /** The ZR300 driver: the R200 driver plus fisheye, IMU and the IMU publishing thread. */
  class ZR300Nodelet {
    const r200: R200Nodelet
    const imu: ImuAggregator
    const enableImu: bool
    const imuFrameId: string
    const imuOpticalFrameId: string
    var color2fisheye: Extrinsics
    var color2imu: Extrinsics
    var rsErrorPending: bool
    var rsSource: Source
    var imuThreadStarted: bool
    var imuThreadJoined: bool

    ghost predicate Valid()
      reads this, r200, r200.device, imu
    {
      r200.Valid() && imu.Valid()
    }

    constructor (r200: R200Nodelet, imu: ImuAggregator, enableImu: bool, imuFrameId: string,
      imuOpticalFrameId: string, source: Source, color2fisheye: Extrinsics, color2imu: Extrinsics)
      requires r200.Valid() && imu.Valid()
      ensures Valid()
      ensures this.r200 == r200 && this.imu == imu && this.enableImu == enableImu
      ensures this.imuFrameId == imuFrameId && this.imuOpticalFrameId == imuOpticalFrameId
      ensures rsSource == source && !imuThreadStarted && !imuThreadJoined && !rsErrorPending
      ensures this.color2fisheye == color2fisheye && this.color2imu == color2imu
    {
      this.r200 := r200;
      this.imu := imu;
      this.enableImu := enableImu;
      this.imuFrameId := imuFrameId;
      this.imuOpticalFrameId := imuOpticalFrameId;
      this.color2fisheye := color2fisheye;
      this.color2imu := color2imu;
      rsErrorPending := false;
      rsSource := source;
      imuThreadStarted := false;
      imuThreadJoined := false;
    }

    /**
     * Initialisation: the fisheye layout, then the R200's layouts, then the
     * IMU publishing thread when the IMU is enabled. The thread starts by
     * forgetting any previous emission.
     */
    method OnInit()
      requires Valid()
      modifies r200.streams.format, r200.streams.encoding, r200.streams.stepSize, this, imu
      ensures Valid()
      ensures forall k :: r200.streams.LayoutOf(k) == ZR300Layout(k).value
      ensures imuThreadStarted == (old(imuThreadStarted) || enableImu)
      ensures enableImu ==> imu.State() == old(imu.State()).(prevTs := -1.0)
      ensures !enableImu ==> imu.State() == old(imu.State())
    {
      r200.streams.ZR300FisheyeLayout();
      r200.streams.R200OnInit();
      if enableImu {
        imuThreadStarted := true;
        imu.StartPublishing();
      }
    }

    /** Stream set-up: with the IMU enabled, motion tracking is switched on and the source becomes all sources. */
    method SetStreams()
      requires Valid()
      modifies this, r200.device
      ensures Valid()
      ensures r200.device.log == old(r200.device.log) + (if enableImu then [EnableMotionTracking] else [])
      ensures rsSource == if enableImu then AllSources else old(rsSource)
      ensures enableImu ==> r200.device.motionTracking
    {
      if enableImu {
        r200.device.Execute(EnableMotionTracking);
        rsSource := AllSources;
      }
    }

    /** Stops the motion source, then disables motion tracking. */
    method StopImu()
      requires Valid()
      modifies r200.device
      ensures Valid()
      ensures r200.device.log == old(r200.device.log) + [StopMotionSource, DisableMotionTracking]
      ensures !r200.device.motionTracking && r200.device.options == old(r200.device.options)
    {
      r200.device.Execute(StopMotionSource);
      r200.device.Execute(DisableMotionTracking);
    }

    /**
     * One pass of the IMU publisher's loop: a message is emitted exactly as
     * `OnPublish` says, and it is stamped with the IMU optical frame.
     */
    method PublishImu(subscribers: nat) returns (msg: Option<ImuMessage>)
      requires Valid()
      modifies imu
      ensures Valid()
      ensures (imu.State(), msg) == OnPublish(old(imu.State()), subscribers, imuOpticalFrameId)
      ensures msg.Some? ==> msg.value.frameId == imuOpticalFrameId
    {
      msg := imu.PublishStep(subscribers, imuOpticalFrameId);
    }

    /** The motion handler installed with the IMU callbacks: one atomic update of the shared IMU state. */
    method MotionHandler(e: MotionEvent)
      requires Valid()
      modifies imu, imu.angularVel, imu.linearAccel, imu.angularVelCov, imu.linearAccelCov
      ensures Valid()
      ensures imu.State() == OnMotion(old(imu.State()), e)
    {
      imu.HandleMotion(e);
    }

    /** Teardown: with the IMU enabled, stop it and then join its thread; otherwise do nothing. */
    method Destroy()
      requires Valid()
      modifies this, r200.device
      ensures Valid()
      ensures r200.device.log == old(r200.device.log) + (if enableImu then [StopMotionSource, DisableMotionTracking] else [])
      ensures imuThreadJoined == (old(imuThreadJoined) || enableImu)
    {
      if enableImu {
        StopImu();
        imuThreadJoined := true;
      }
    }

    /** The first four ZR300 colour options: backlight compensation, brightness, contrast, exposure. */
    method SendColorImage(c: ZR300Config)
      requires r200.device.Valid()
      modifies r200.device
      ensures r200.device.Valid() && r200.device.log == old(r200.device.log) + ZR300ColorCommands(c)[..4]
    {
      var d := r200.device;
      d.SetDeviceOption(ColorBacklightCompensation, c.colorBacklightCompensation as real);
      d.SetDeviceOption(ColorBrightness, c.colorBrightness as real);
      d.SetDeviceOption(ColorContrast, c.colorContrast as real);
      d.SetDeviceOption(ColorExposure, c.colorExposure as real);
    }

    /** The remaining ZR300 colour options: gain, gamma, hue, saturation, sharpness. */
    method SendColorTone(c: ZR300Config)
      requires r200.device.Valid()
      modifies r200.device
      ensures r200.device.Valid() && r200.device.log == old(r200.device.log) + ZR300ColorCommands(c)[4..]
    {
      var d := r200.device;
      d.SetDeviceOption(ColorGain, c.colorGain as real);
      d.SetDeviceOption(ColorGamma, c.colorGamma as real);
      d.SetDeviceOption(ColorHue, c.colorHue as real);
      d.SetDeviceOption(ColorSaturation, c.colorSaturation as real);
      d.SetDeviceOption(ColorSharpness, c.colorSharpness as real);
    }

    /** The ZR300's colour options, exposure included, in the order the callback writes them. */
    method SendColor(c: ZR300Config)
      requires Valid()
      modifies r200.device
      ensures Valid() && r200.device.log == old(r200.device.log) + ZR300ColorCommands(c)
    {
      ghost var log0 := r200.device.log;
      SendColorImage(c);
      SendColorTone(c);
      Split(log0, ZR300ColorCommands(c), 4);
    }

    /** White balance (the manual one only without the automatic one), then colour auto-exposure. */
    method SendColorMode(c: ZR300Config)
      requires r200.device.Valid()
      modifies r200.device
      ensures r200.device.Valid() && r200.device.log == old(r200.device.log) + ZR300ColorModeCommands(c)
    {
      var d := r200.device;
      d.SetDeviceOption(ColorEnableAutoWhiteBalance, c.colorEnableAutoWhiteBalance as real);
      if c.colorEnableAutoWhiteBalance == 0 {
        d.SetDeviceOption(ColorWhiteBalance, c.colorWhiteBalance as real);
      }
      d.SetDeviceOption(ColorEnableAutoExposure, c.colorEnableAutoExposure as real);
    }

    /** The left/right imager, as the R200 sends it. */
    method SendLr(c: ZR300Config)
      requires r200.device.Valid()
      modifies r200.device
      ensures r200.device.Valid() && r200.device.log == old(r200.device.log) + ZR300LrCommands(c)
    {
      var d := r200.device;
      d.SetDeviceOption(R200LrAutoExposureEnabled, c.r200LrAutoExposureEnabled as real);
      if c.r200LrAutoExposureEnabled == 0 {
        d.SetDeviceOption(R200LrExposure, c.r200LrExposure as real);
      }
      d.SetDeviceOption(R200LrGain, c.r200LrGain as real);
      d.SetDeviceOption(R200EmitterEnabled, c.r200EmitterEnabled as real);
    }

    /** The two depth-clamp bounds, minimum then maximum. */
    method SendDepthClamp(c: ZR300Config)
      requires r200.device.Valid()
      modifies r200.device
      ensures r200.device.Valid() && r200.device.log == old(r200.device.log) + ZR300DepthClampCommands(c)
    {
      r200.device.SetDeviceOption(R200DepthClampMin, c.r200DepthClampMin as real);
      r200.device.SetDeviceOption(R200DepthClampMax, c.r200DepthClampMax as real);
    }

    /** Depth enable, colour, left/right imager and depth clamp: everything before the preset. */
    method SendSettings(c: ZR300Config)
      requires Valid()
      modifies r200.device
      ensures Valid() && r200.device.log == old(r200.device.log) + ZR300Settings(c)
    {
      ghost var log0 := r200.device.log;
      r200.device.SetDepth(c.enableDepth);
      SendColor(c);
      SendColorMode(c);
      SendLr(c);
      SendDepthClamp(c);
      Concat5(log0, [SetDepthEnable(c.enableDepth)], ZR300ColorCommands(c), ZR300ColorModeCommands(c),
        ZR300LrCommands(c), ZR300DepthClampCommands(c));
    }

    /** The first four fisheye options: exposure, gain, auto-exposure enable and mode. */
    method SendFisheyeExposure(c: ZR300Config)
      requires r200.device.Valid()
      modifies r200.device
      ensures r200.device.Valid() && r200.device.log == old(r200.device.log) + ZR300FisheyeCommands(c)[..4]
    {
      var d := r200.device;
      d.SetDeviceOption(FisheyeExposure, c.fisheyeExposure as real);
      d.SetDeviceOption(FisheyeGain, c.fisheyeGain as real);
      d.SetDeviceOption(FisheyeEnableAutoExposure, c.fisheyeEnableAutoExposure as real);
      d.SetDeviceOption(FisheyeAutoExposureMode, c.fisheyeAutoExposureMode as real);
    }

    /** The fisheye auto-exposure tuning: antiflicker rate, pixel sample rate, skipped frames. */
    method SendFisheyeTuning(c: ZR300Config)
      requires r200.device.Valid()
      modifies r200.device
      ensures r200.device.Valid() && r200.device.log == old(r200.device.log) + ZR300FisheyeCommands(c)[4..]
    {
      var d := r200.device;
      d.SetDeviceOption(FisheyeAutoExposureAntiflickerRate, c.fisheyeAutoExposureAntiflickerRate as real);
      d.SetDeviceOption(FisheyeAutoExposurePixelSampleRate, c.fisheyeAutoExposurePixelSampleRate as real);
      d.SetDeviceOption(FisheyeAutoExposureSkipFrames, c.fisheyeAutoExposureSkipFrames as real);
    }

    /** The fisheye options, frame queue size and hardware logger: everything after the preset. */
    method SendLate(c: ZR300Config)
      requires Valid()
      modifies r200.device
      ensures Valid() && r200.device.log == old(r200.device.log) + ZR300LateCommands(c)
    {
      ghost var log0 := r200.device.log;
      SendFisheyeExposure(c);
      SendFisheyeTuning(c);
      Split(log0, ZR300FisheyeCommands(c), 4);
      r200.device.SetDeviceOption(FramesQueueSize, c.framesQueueSize as real);
      r200.device.SetDeviceOption(HardwareLoggerEnabled, c.hardwareLoggerEnabled as real);
      Concat2(log0, ZR300FisheyeCommands(c), ZR300StreamingCommands(c));
    }

    /** The ZR300 dynamic-reconfigure callback: settings, the depth-control preset, then the late options. */
    method ConfigCallback(config: ZR300Config)
      requires Valid()
      modifies r200.device
      ensures Valid() && r200.device.log == old(r200.device.log) + ZR300Commands(config)
    {
      ghost var log0 := r200.device.log;
      SendSettings(config);
      r200.device.ApplyPreset(config.r200DcPreset);
      SendLate(config);
      Concat3(log0, ZR300Settings(config), [ApplyDepthControlPreset(config.r200DcPreset)], ZR300LateCommands(config));
    }

    /**
     * The extrinsics step: the R200's IR2 query, the fisheye query, then the
     * IMU query. When the IMU query fails the error is discarded and the
     * hardcoded IMU translation used instead.
     */
    method GetCameraExtrinsics(ir2: Extrinsics, fisheye: Extrinsics, imuQuery: Option<Extrinsics>)
      requires Valid()
      modifies this, r200
      ensures Valid()
      ensures r200.color2ir2 == ir2 && color2fisheye == fisheye
      ensures color2imu == if imuQuery.Some? then imuQuery.value else ImuFallback(old(color2imu))
      ensures rsErrorPending == (old(rsErrorPending) && imuQuery.Some?)
    {
      r200.GetCameraExtrinsics(ir2);
      color2fisheye := fisheye;
      if imuQuery.Some? {
        color2imu := imuQuery.value;
      } else {
        rsErrorPending := false;
        color2imu := color2imu.(translation := [-0.07, 0.0, 0.0]);
      }
    }

    /** The fisheye's two edges. */
    function FisheyeEdges(): seq<Edge>
      requires Valid()
      reads this, r200, r200.device, imu, r200.streams.frameId, r200.streams.opticalFrameId
    {
      var i := StreamIndex(Fisheye);
      StreamEdges(r200.baseFrameId, r200.streams.frameId[i], r200.streams.opticalFrameId[i], color2fisheye)
    }

    /** The IMU's two edges. */
    function ImuEdges(): seq<Edge>
      reads this, r200
    {
      StreamEdges(r200.baseFrameId, imuFrameId, imuOpticalFrameId, color2imu)
    }

    /** Every edge the ZR300 driver publishes: IR2's, then the fisheye's, then the IMU's. */
    function AllEdges(): seq<Edge>
      requires Valid()
      reads this, r200, r200.device, imu, r200.streams.frameId, r200.streams.opticalFrameId
    {
      r200.Ir2Edges() + FisheyeEdges() + ImuEdges()
    }

    /** Static publication, each message filled field by field. */
    method PublishStaticTransforms(b: Broadcaster)
      requires Valid()
      modifies b
      ensures b.sent == old(b.sent) + AllEdges()
    {
      r200.PublishStaticTransforms(b);
      var i := StreamIndex(Fisheye);
      var f := color2fisheye.translation;
      var frame := r200.streams.frameId[i];
      b.SendTransform(Edge(r200.baseFrameId, frame, Vector3(f[2], -f[0], -f[1]), Quaternion(0.0, 0.0, 0.0, 1.0)));
      b.SendTransform(Edge(frame, r200.streams.opticalFrameId[i], Vector3(0.0, 0.0, 0.0), OpticalRotation));
      var t := color2imu.translation;
      b.SendTransform(Edge(r200.baseFrameId, imuFrameId, Vector3(t[2], -t[0], -t[1]), Quaternion(0.0, 0.0, 0.0, 1.0)));
      b.SendTransform(Edge(imuFrameId, imuOpticalFrameId, Vector3(0.0, 0.0, 0.0), OpticalRotation));
    }

    /** Dynamic publication: the same six edges, built as transforms. */
    method PublishDynamicTransforms(b: Broadcaster)
      requires Valid()
      modifies b
      ensures b.sent == old(b.sent) + AllEdges()
    {
      r200.PublishDynamicTransforms(b);
      var i := StreamIndex(Fisheye);
      b.SendTransform(BaseEdge(r200.baseFrameId, r200.streams.frameId[i], color2fisheye));
      b.SendTransform(OpticalEdge(r200.streams.frameId[i], r200.streams.opticalFrameId[i]));
      b.SendTransform(BaseEdge(r200.baseFrameId, imuFrameId, color2imu));
      b.SendTransform(OpticalEdge(imuFrameId, imuOpticalFrameId));
    }
  }
}
