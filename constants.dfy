/**
 * The driver's compile-time defaults: stream names and count, default
 * geometry and enables, default frame ids, the identity rotation and the
 * camera-name to validated-firmware table.
 */
module Constants {

  /** The five streams, in the order librealsense numbers them (rs_stream). */
  datatype StreamKind = Depth | Color | Infrared | Infrared2 | Fisheye

  const StreamCount: nat := 5

  /** The index a stream has in the driver's per-stream arrays. */
  function StreamIndex(k: StreamKind): nat {
    match k
    case Depth => 0
    case Color => 1
    case Infrared => 2
    case Infrared2 => 3
    case Fisheye => 4
  }

  /** The stream stored at index `i` of a per-stream array. */
  function StreamAt(i: nat): (k: StreamKind)
    requires i < StreamCount
    ensures StreamIndex(k) == i
  {
    if i == 0 then Depth
    else if i == 1 then Color
    else if i == 2 then Infrared
    else if i == 3 then Infrared2
    else Fisheye
  }

  /** Every stream has its own slot, and the slots are exactly 0 .. StreamCount-1. */
  lemma StreamIndexBijective(a: StreamKind, b: StreamKind)
    ensures StreamIndex(a) < StreamCount
    ensures StreamAt(StreamIndex(a)) == a
    ensures StreamIndex(a) == StreamIndex(b) <==> a == b
  {
  }

  /** Human-readable stream names, one per slot. */
  const StreamDesc: seq<string> := ["Depth", "RGB", "IR", "IR2", "Fisheye"]

  lemma StreamDescShape()
    ensures |StreamDesc| == StreamCount
    ensures StreamDesc[StreamIndex(Depth)] == "Depth"
    ensures StreamDesc[StreamIndex(Color)] == "RGB"
    ensures StreamDesc[StreamIndex(Infrared)] == "IR"
    ensures StreamDesc[StreamIndex(Infrared2)] == "IR2"
    ensures StreamDesc[StreamIndex(Fisheye)] == "Fisheye"
  {
  }

  // Default geometry (pixels and frames per second).
  const DepthWidth: int := 480
  const DepthHeight: int := 360
  const ColorWidth: int := 640
  const ColorHeight: int := 480
  const FisheyeWidth: int := 640
  const FisheyeHeight: int := 480
  const DepthFps: int := 60
  const ColorFps: int := 60
  const FisheyeFps: int := 60

  // Default enables.
  const EnableDepth: bool := true
  const EnableColor: bool := true
  const EnableIr: bool := false
  const EnableIr2: bool := false
  const EnableFisheye: bool := true
  const EnableImu: bool := true
  const EnablePointCloud: bool := false
  const EnableTf: bool := true
  const EnableTfDynamic: bool := false

  /** Whether a stream is enabled when no parameter overrides it. */
  function DefaultEnable(k: StreamKind): bool {
    match k
    case Depth => EnableDepth
    case Color => EnableColor
    case Infrared => EnableIr
    case Infrared2 => EnableIr2
    case Fisheye => EnableFisheye
  }

  lemma DefaultEnables()
    ensures DefaultEnable(Depth) && DefaultEnable(Color) && DefaultEnable(Fisheye)
    ensures !DefaultEnable(Infrared) && !DefaultEnable(Infrared2)
    ensures EnableImu && EnableTf && !EnablePointCloud && !EnableTfDynamic
  {
  }

  // Default frame ids.
  const DefaultBaseFrameId: string := "camera_link"
  const DefaultDepthFrameId: string := "camera_depth_frame"
  const DefaultColorFrameId: string := "camera_rgb_frame"
  const DefaultIrFrameId: string := "camera_ir_frame"
  const DefaultDepthOpticalFrameId: string := "camera_depth_optical_frame"
  const DefaultColorOpticalFrameId: string := "camera_rgb_optical_frame"
  const DefaultIrOpticalFrameId: string := "camera_ir_optical_frame"
  const DefaultIr2FrameId: string := "camera_ir2_frame"
  const DefaultIr2OpticalFrameId: string := "camera_ir2_optical_frame"
  const DefaultFisheyeFrameId: string := "camera_fisheye_frame"
  const DefaultImuFrameId: string := "camera_imu_frame"
  const DefaultFisheyeOpticalFrameId: string := "camera_fisheye_optical_frame"
  const DefaultImuOpticalFrameId: string := "camera_imu_optical_frame"

  /** The labels the IMU information service starts its two frame ids from. */
  const ImuAccelLabel: string := "IMU_ACCEL"
  const ImuGyroLabel: string := "IMU_GYRO"

  /** The default body frame of each stream. */
  function DefaultFrameId(k: StreamKind): string {
    match k
    case Depth => DefaultDepthFrameId
    case Color => DefaultColorFrameId
    case Infrared => DefaultIrFrameId
    case Infrared2 => DefaultIr2FrameId
    case Fisheye => DefaultFisheyeFrameId
  }

  /** The default optical frame of each stream. */
  function DefaultOpticalFrameId(k: StreamKind): string {
    match k
    case Depth => DefaultDepthOpticalFrameId
    case Color => DefaultColorOpticalFrameId
    case Infrared => DefaultIrOpticalFrameId
    case Infrared2 => DefaultIr2OpticalFrameId
    case Fisheye => DefaultFisheyeOpticalFrameId
  }

  /** Every default frame id: the base, then body and optical frame per stream, then the IMU's two. */
  function AllDefaultFrameIds(): (ids: seq<string>)
    ensures |ids| == 3 + 2 * StreamCount
    ensures ids[0] == DefaultBaseFrameId
    ensures forall k :: ids[1 + StreamIndex(k)] == DefaultFrameId(k)
    ensures forall k :: ids[1 + StreamCount + StreamIndex(k)] == DefaultOpticalFrameId(k)
    ensures ids[|ids| - 2] == DefaultImuFrameId && ids[|ids| - 1] == DefaultImuOpticalFrameId
  {
    [DefaultBaseFrameId,
     DefaultDepthFrameId, DefaultColorFrameId, DefaultIrFrameId, DefaultIr2FrameId, DefaultFisheyeFrameId,
     DefaultDepthOpticalFrameId, DefaultColorOpticalFrameId, DefaultIrOpticalFrameId,
     DefaultIr2OpticalFrameId, DefaultFisheyeOpticalFrameId,
     DefaultImuFrameId, DefaultImuOpticalFrameId]
  }

  ghost predicate Distinct<T>(s: seq<T>) {
    forall i, j :: 0 <= i < j < |s| ==> s[i] != s[j]
  }

  /** No two default frames share an id; in particular no optical frame is its body frame. */
  lemma DefaultFrameIdsDistinct(k: StreamKind)
    ensures DefaultOpticalFrameId(k) != DefaultFrameId(k)
    ensures DefaultImuOpticalFrameId != DefaultImuFrameId
    ensures Distinct(AllDefaultFrameIds())
  {
  }

  /** ROTATION_IDENTITY: a 3x3 rotation stored row-major in 9 slots. */
  const RotationIdentity: seq<real> := [1.0, 0.0, 0.0, 0.0, 1.0, 0.0, 0.0, 0.0, 1.0]

  /** Entry (row, col) of a row-major 3x3 matrix. */
  function MatrixEntry(m: seq<real>, row: nat, col: nat): real
    requires |m| == 9 && row < 3 && col < 3
  {
    m[3 * row + col]
  }

  lemma RotationIdentityIsIdentity()
    ensures |RotationIdentity| == 9
    ensures forall row: nat, col: nat | row < 3 && col < 3 ::
      MatrixEntry(RotationIdentity, row, col) == if row == col then 1.0 else 0.0
  {
  }

  const R200CameraFwVersion: string := "1.0.72.06"
  const F200CameraFwVersion: string := "2.60.0.0"
  const SR300CameraFwVersion: string := "3.10.10.0"
  const ZR300CameraFwVersion: string := "2.0.71.26"
  const ZR300AdapterFwVersion: string := "1.28.0.0"
  const ZR300MotionModuleFwVersion: string := "1.25.0.0"

  /** MAP_START_VALUES: camera name paired with its validated firmware version. */
  const MapStartValues: seq<(string, string)> := [
    ("Intel RealSense R200_camera", R200CameraFwVersion),
    ("Intel RealSense F200_camera", F200CameraFwVersion),
    ("Intel RealSense SR300_camera", SR300CameraFwVersion),
    ("Intel RealSense ZR300_camera", ZR300CameraFwVersion),
    ("Intel RealSense ZR300_adapter", ZR300AdapterFwVersion),
    ("Intel RealSense ZR300_motion_module", ZR300MotionModuleFwVersion)
  ]

  /** MAP_START_VALUES_SIZE: the element count of the table. */
  const MapStartValuesSize: nat := 6

  /** The camera names of a table, in order. */
  function Names(table: seq<(string, string)>): (names: seq<string>)
    ensures |names| == |table|
    ensures forall i :: 0 <= i < |table| ==> names[i] == table[i].0
  {
    if table == [] then [] else [table[0].0] + Names(table[1..])
  }

  /**
   * The name-to-firmware map built from a table by inserting its rows in order;
   * as with a map built by insertion, the first row of a repeated name wins.
   */
  function TableToMap(table: seq<(string, string)>): (m: map<string, string>)
    ensures forall name :: name in m <==> name in Names(table)
  {
    if table == [] then map[]
    else TableToMap(table[1..])[table[0].0 := table[0].1]
  }

  /** With pairwise distinct names, the built map keeps every row, so it has one key per row. */
  lemma {:induction false} TableToMapKeepsEveryRow(table: seq<(string, string)>)
    requires Distinct(Names(table))
    ensures |TableToMap(table)| == |table|
    ensures forall i :: 0 <= i < |table| ==> TableToMap(table)[table[i].0] == table[i].1
  {
    if table != [] {
      var rest := table[1..];
      assert Names(rest) == Names(table)[1..];
      TableToMapKeepsEveryRow(rest);
      assert table[0].0 !in Names(rest);
    }
  }

  /** No camera name appears twice in the table: the letter after "Intel RealSense " and the length tell them apart. */
  lemma MapStartNamesDistinct()
    ensures Distinct(Names(MapStartValues))
  {
    var names := Names(MapStartValues);
    forall i, j | 0 <= i < j < |names| ensures names[i] != names[j] {
      var a, b := MapStartValues[i].0, MapStartValues[j].0;
      assert a[16] != b[16] || |a| != |b|;
    }
  }

  lemma MapStartValuesShape()
    ensures |MapStartValues| == MapStartValuesSize
    ensures Distinct(Names(MapStartValues))
    ensures |TableToMap(MapStartValues)| == MapStartValuesSize
  {
    MapStartNamesDistinct();
    TableToMapKeepsEveryRow(MapStartValues);
  }
}
