/**
 * Transform-tree edges the drivers publish for the IR2, fisheye and IMU
 * frames: a base-to-stream edge re-based from the colour-to-stream
 * extrinsic, and a stream-to-optical edge with a fixed rotation.
 */
module Transforms {

  /** The three entries of an extrinsic translation. */
  type Triple = s: seq<real> | |s| == 3 witness [0.0, 0.0, 0.0]

  /** The nine entries of an extrinsic rotation, row-major. */
  type Matrix3 = s: seq<real> | |s| == 9 witness [0.0, 0.0, 0.0, 0.0, 0.0, 0.0, 0.0, 0.0, 0.0]

  datatype Vector3 = Vector3(x: real, y: real, z: real)

  datatype Quaternion = Quaternion(x: real, y: real, z: real, w: real)

  /** A colour-to-stream extrinsic as the device reports it. */
  datatype Extrinsics = Extrinsics(rotation: Matrix3, translation: Triple)

  /** One edge of the transform tree: parent frame, child frame, translation, rotation. */
  datatype Edge = Edge(parent: string, child: string, translation: Vector3, rotation: Quaternion)

  const IdentityQuaternion: Quaternion := Quaternion(0.0, 0.0, 0.0, 1.0)

  const ZeroVector: Vector3 := Vector3(0.0, 0.0, 0.0)

  /**
   * The rotation from a stream's body frame to its optical frame: roll -pi/2,
   * pitch 0, yaw -pi/2, whose exact value is (-1/2, 1/2, -1/2, 1/2).
   */
  const OpticalRotation: Quaternion := Quaternion(-0.5, 0.5, -0.5, 0.5)

  /** A camera-frame vector (x right, y down, z forward) back in the colour extrinsic's own axes. */
  function Unrebase(v: Vector3): Triple {
    [-v.y, -v.z, v.x]
  }

  /** The colour-to-stream translation in the base frame's axes (x forward, y left, z up). */
  function Rebase(t: Triple): (v: Vector3)
    ensures Unrebase(v) == t
  {
    Vector3(t[2], -t[0], -t[1])
  }

  /** Re-basing loses nothing: it and its inverse undo each other. */
  lemma RebaseRoundTrip(t: Triple, v: Vector3)
    ensures Unrebase(Rebase(t)) == t
    ensures Rebase(Unrebase(v)) == v
  {
  }

  /** Re-basing is a signed permutation: it keeps the squared length of the translation. */
  lemma RebaseKeepsLength(t: Triple)
    ensures var v := Rebase(t); v.x * v.x + v.y * v.y + v.z * v.z == t[0] * t[0] + t[1] * t[1] + t[2] * t[2]
  {
  }

  /** The base-to-stream edge: the re-based translation with no rotation. */
  function BaseEdge(base: string, frame: string, ext: Extrinsics): (e: Edge)
    ensures e.parent == base && e.child == frame
    ensures e.rotation == IdentityQuaternion
    ensures Unrebase(e.translation) == ext.translation
  {
    Edge(base, frame, Rebase(ext.translation), IdentityQuaternion)
  }

  /** The stream-to-optical edge: no translation and the optical rotation. */
  function OpticalEdge(frame: string, optical: string): (e: Edge)
    ensures e.parent == frame && e.child == optical
    ensures e.translation == ZeroVector && e.rotation == OpticalRotation
  {
    Edge(frame, optical, ZeroVector, OpticalRotation)
  }

  /** Both edges of one stream: base to stream, stream to its optical frame. */
  function StreamEdges(base: string, frame: string, optical: string, ext: Extrinsics): (es: seq<Edge>)
    ensures |es| == 2 && es[0].child == es[1].parent
    ensures es[0].parent == base && es[1].child == optical
  {
    [BaseEdge(base, frame, ext), OpticalEdge(frame, optical)]
  }

  /** The optical rotation is a unit quaternion and differs from the identity. */
  lemma OpticalRotationIsUnit()
    ensures var q := OpticalRotation; q.x * q.x + q.y * q.y + q.z * q.z + q.w * q.w == 1.0
    ensures OpticalRotation != IdentityQuaternion
  {
  }

  /** The translation used for the IMU when the device cannot report one. */
  const ImuFallbackTranslation: Triple := [-0.07, 0.0, 0.0]

  /**
   * The colour-to-IMU extrinsic after a failed query: the hardcoded
   * translation, and whatever rotation the extrinsic held before.
   */
  function ImuFallback(prior: Extrinsics): (e: Extrinsics)
    ensures e.translation == ImuFallbackTranslation && e.rotation == prior.rotation
  {
    prior.(translation := ImuFallbackTranslation)
  }

  /** With the fallback, the IMU sits 7 cm to the left of the base frame, unrotated. */
  lemma ImuFallbackEdge(base: string, imu: string, prior: Extrinsics)
    ensures BaseEdge(base, imu, ImuFallback(prior)).translation == Vector3(0.0, 0.07, 0.0)
    ensures BaseEdge(base, imu, ImuFallback(prior)).rotation == IdentityQuaternion
  {
  }
}
