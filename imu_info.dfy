/**
 * The IMU information service: the accelerometer's and the gyro's
 * calibration, each a 3x4 matrix flattened row-major into twelve slots plus
 * per-axis noise and bias variances, under a lower-cased frame id.
 */
module ImuInfo {
  import opened Constants

  type Row = s: seq<real> | |s| == 4 witness [0.0, 0.0, 0.0, 0.0]
  const ZeroRow: Row := [0.0, 0.0, 0.0, 0.0]
  type Matrix34 = m: seq<Row> | |m| == 3 witness [ZeroRow, ZeroRow, ZeroRow]
  type Axes = s: seq<real> | |s| == 3 witness [0.0, 0.0, 0.0]

  /** One motion device's calibration as the device reports it. */
  datatype MotionDeviceIntrinsic = MotionDeviceIntrinsic(data: Matrix34, noiseVariances: Axes, biasVariances: Axes)

  /** The calibration of both motion devices. */
  datatype MotionIntrinsics = MotionIntrinsics(acc: MotionDeviceIntrinsic, gyro: MotionDeviceIntrinsic)

  /** One half of the service's answer. */
  datatype ImuInfoMessage = ImuInfoMessage(
    stamp: real, frameId: string, data: seq<real>, noiseVariances: seq<real>, biasVariances: seq<real>)

  /** The character the C library's `tolower` gives in the default locale. */
  function ToLowerChar(c: char): char {
    if 'A' <= c <= 'Z' then (c as int + 32) as char else c
  }

  /** Lower-cases every character. */
  function ToLower(s: string): (r: string)
    ensures |r| == |s|
    ensures forall i :: 0 <= i < |s| ==> r[i] == ToLowerChar(s[i])
  {
    if s == [] then [] else [ToLowerChar(s[0])] + ToLower(s[1..])
  }

  /** Lower-casing changes only capitals, leaves no capital behind, and a second pass changes nothing. */
  lemma ToLowerProperties(s: string)
    ensures forall i :: 0 <= i < |s| && !('A' <= s[i] <= 'Z') ==> ToLower(s)[i] == s[i]
    ensures forall i :: 0 <= i < |s| ==> !('A' <= ToLower(s)[i] <= 'Z')
    ensures ToLower(ToLower(s)) == ToLower(s)
  {
  }

  /** The accelerometer's frame id: its label lower-cased. */
  lemma ImuAccelFrameId()
    ensures ToLower(ImuAccelLabel) == "imu_accel"
  {
    assert ToLower(ImuAccelLabel)[..] == "imu_accel";
  }

  /** The gyro's frame id: its label lower-cased. */
  lemma ImuGyroFrameId()
    ensures ToLower(ImuGyroLabel) == "imu_gyro"
  {
    assert ToLower(ImuGyroLabel)[..] == "imu_gyro";
  }

  /**
   * Builds one half of the answer: `data[4*i + j]` is row i, column j of the
   * calibration matrix, the variances are copied axis by axis, and the frame
   * id is `prefix` lower-cased.
   */
  method BuildInfo(stamp: real, prefix: string, m: MotionDeviceIntrinsic) returns (info: ImuInfoMessage)
    ensures info.stamp == stamp && info.frameId == ToLower(prefix)
    ensures |info.data| == 12 && |info.noiseVariances| == 3 && |info.biasVariances| == 3
    ensures forall i, j :: 0 <= i < 3 && 0 <= j < 4 ==> info.data[4 * i + j] == m.data[i][j]
    ensures info.noiseVariances == m.noiseVariances && info.biasVariances == m.biasVariances
  {
    var data := new real[12];
    var noise := new real[3];
    var bias := new real[3];
    var index := 0;
    for i := 0 to 3
      invariant index == 4 * i
      invariant forall r, c :: 0 <= r < i && 0 <= c < 4 ==> data[4 * r + c] == m.data[r][c]
      invariant forall r :: 0 <= r < i ==> noise[r] == m.noiseVariances[r] && bias[r] == m.biasVariances[r]
    {
      for j := 0 to 4
        invariant index == 4 * i + j
        invariant forall r, c :: 0 <= r < i && 0 <= c < 4 ==> data[4 * r + c] == m.data[r][c]
        invariant forall c :: 0 <= c < j ==> data[4 * i + c] == m.data[i][c]
        modifies data
      {
        data[index] := m.data[i][j];
        index := index + 1;
      }
      noise[i] := m.noiseVariances[i];
      bias[i] := m.biasVariances[i];
    }
    assert noise[..] == m.noiseVariances && bias[..] == m.biasVariances;
    info := ImuInfoMessage(stamp, ToLower(prefix), data[..], noise[..], bias[..]);
  }

  /** The service: the accelerometer half, then the gyro half, both stamped with the same time. */
  method GetImuInfo(stamp: real, intrinsics: MotionIntrinsics) returns (accel: ImuInfoMessage, gyro: ImuInfoMessage)
    ensures accel.frameId == "imu_accel" && gyro.frameId == "imu_gyro"
    ensures accel.stamp == stamp && gyro.stamp == stamp
    ensures |accel.data| == 12 && |gyro.data| == 12
    ensures forall i, j :: 0 <= i < 3 && 0 <= j < 4 ==>
      accel.data[4 * i + j] == intrinsics.acc.data[i][j] && gyro.data[4 * i + j] == intrinsics.gyro.data[i][j]
    ensures accel.noiseVariances == intrinsics.acc.noiseVariances && accel.biasVariances == intrinsics.acc.biasVariances
    ensures gyro.noiseVariances == intrinsics.gyro.noiseVariances && gyro.biasVariances == intrinsics.gyro.biasVariances
  {
    ImuAccelFrameId();
    ImuGyroFrameId();
    accel := BuildInfo(stamp, ImuAccelLabel, intrinsics.acc);
    gyro := BuildInfo(stamp, ImuGyroLabel, intrinsics.gyro);
  }
}
