/**
 * The ZR300 IMU aggregator: a motion handler that records the latest gyro or
 * accelerometer sample in shared state, and a publish step that turns that
 * state into an IMU message whenever its timestamp has changed since the
 * last message. The two run in different threads under one mutex; here each
 * call is one atomic step and the calls interleave arbitrarily.
 */
module Imu {
  import opened Wrappers
  import opened Transforms

  /** Three axis values. */
  type Triad = s: seq<real> | |s| == 3 witness [0.0, 0.0, 0.0]

  /** A 3x3 covariance, row-major. */
  type Covariance = s: seq<real> | |s| == 9 witness [0.0, 0.0, 0.0, 0.0, 0.0, 0.0, 0.0, 0.0, 0.0]

  const ZeroTriad: Triad := [0.0, 0.0, 0.0]

  /** The sources a motion event can come from. */
  datatype EventSource = ImuAccel | ImuGyro | ImuDepthCam | ImuMotionCam | G0Sync | G1Sync | G2Sync

  /** One motion sample: its source, its timestamp and its three axis values. */
  datatype MotionEvent = MotionEvent(source: EventSource, timestamp: real, axes: Triad)

  /** The state the handler and the publish step share. */
  datatype ImuState = ImuState(
    angularVel: Triad, linearAccel: Triad,
    angularVelCov: Covariance, linearAccelCov: Covariance,
    ts: real, prevTs: real)

  /** The IMU message: no orientation (flagged by covariance -1), the latest triads and their covariances. */
  datatype ImuMessage = ImuMessage(
    frameId: string, timestamp: real,
    orientation: Quaternion, orientationCovariance: Covariance,
    angularVelocity: Vector3, linearAcceleration: Vector3,
    angularVelocityCovariance: Covariance, linearAccelerationCovariance: Covariance)

  const NoOrientation: Quaternion := Quaternion(0.0, 0.0, 0.0, 0.0)
  const UnknownOrientationCovariance: Covariance := [-1.0, 0.0, 0.0, 0.0, 0.0, 0.0, 0.0, 0.0, 0.0]

  /** `c` with its first entry replaced by `v`. */
  function SetFirst(c: Covariance, v: real): (r: Covariance)
    ensures r[0] == v && r[1..] == c[1..]
  {
    [v] + c[1..]
  }

  /**
   * The state after a motion event: it takes the event's timestamp, leaves
   * the publisher's timestamp and every covariance entry but the first alone,
   * and after a gyro or accelerometer sample exactly one triad is live.
   */
  function OnMotion(s: ImuState, e: MotionEvent): (r: ImuState)
    ensures r.ts == e.timestamp && r.prevTs == s.prevTs
    ensures r.angularVelCov[1..] == s.angularVelCov[1..] && r.linearAccelCov[1..] == s.linearAccelCov[1..]
    ensures e.source == ImuGyro || e.source == ImuAccel ==> OneTriadLive(r)
  {
    var s' := match e.source
      case ImuGyro =>
        s.(angularVel := e.axes, linearAccel := ZeroTriad,
           angularVelCov := SetFirst(s.angularVelCov, 0.0), linearAccelCov := SetFirst(s.linearAccelCov, -1.0))
      case ImuAccel =>
        s.(angularVel := ZeroTriad, linearAccel := e.axes,
           angularVelCov := SetFirst(s.angularVelCov, -1.0), linearAccelCov := SetFirst(s.linearAccelCov, 0.0))
      case _ => s;
    s'.(ts := e.timestamp)
  }

  /**
   * The message the publish step builds from the state: stamped with the
   * state's timestamp and the given frame, no orientation, and the state's
   * covariances.
   */
  function Message(s: ImuState, frameId: string): (m: ImuMessage)
    ensures m.frameId == frameId && m.timestamp == s.ts
    ensures m.orientation == NoOrientation && m.orientationCovariance[0] == -1.0
    ensures m.angularVelocityCovariance == s.angularVelCov && m.linearAccelerationCovariance == s.linearAccelCov
  {
    ImuMessage(frameId, s.ts, NoOrientation, UnknownOrientationCovariance,
      Vector3(s.angularVel[0], s.angularVel[1], s.angularVel[2]),
      Vector3(s.linearAccel[0], s.linearAccel[1], s.linearAccel[2]),
      s.angularVelCov, s.linearAccelCov)
  }

  /** Whether the publish step emits: someone listens and the timestamp moved since the last emission. */
  predicate Emits(s: ImuState, subscribers: nat) {
    subscribers > 0 && s.prevTs != s.ts
  }

  /** One pass of the publish loop: the state after it, and the message it emits if any. */
  function OnPublish(s: ImuState, subscribers: nat, frameId: string): (r: (ImuState, Option<ImuMessage>))
    ensures r.1.Some? <==> Emits(s, subscribers)
    ensures r.1.Some? ==> r.1.value.timestamp == s.ts && r.0.prevTs == s.ts
    ensures r.1.None? ==> r.0 == s
    ensures r.0.(prevTs := s.prevTs) == s
    ensures r.1.Some? ==> r.1.value == Message(s, frameId)
  {
    if Emits(s, subscribers) then (s.(prevTs := s.ts), Some(Message(s, frameId)))
    else (s, None)
  }

  /** A gyro event takes its axes as the angular velocity and flags the linear acceleration as absent. */
  lemma GyroEvent(s: ImuState, e: MotionEvent)
    requires e.source == ImuGyro
    ensures var t := OnMotion(s, e);
      && t.angularVel == e.axes && t.linearAccel == ZeroTriad
      && t.angularVelCov[0] == 0.0 && t.linearAccelCov[0] == -1.0
      && t.angularVelCov[1..] == s.angularVelCov[1..] && t.linearAccelCov[1..] == s.linearAccelCov[1..]
      && t.ts == e.timestamp && t.prevTs == s.prevTs
  {
  }

  /** An accelerometer event is the mirror image of a gyro event. */
  lemma AccelEvent(s: ImuState, e: MotionEvent)
    requires e.source == ImuAccel
    ensures var t := OnMotion(s, e);
      && t.angularVel == ZeroTriad && t.linearAccel == e.axes
      && t.angularVelCov[0] == -1.0 && t.linearAccelCov[0] == 0.0
      && t.angularVelCov[1..] == s.angularVelCov[1..] && t.linearAccelCov[1..] == s.linearAccelCov[1..]
      && t.ts == e.timestamp && t.prevTs == s.prevTs
  {
  }

  /** An event from any other source changes only the timestamp. */
  lemma OtherEvent(s: ImuState, e: MotionEvent)
    requires e.source != ImuGyro && e.source != ImuAccel
    ensures OnMotion(s, e) == s.(ts := e.timestamp)
  {
  }

  /**
   * Exactly one of the two triads is live: the other is zero and its
   * covariance's first entry is -1, while the live one's is 0.
   */
  predicate OneTriadLive(s: ImuState) {
    || (s.linearAccel == ZeroTriad && s.linearAccelCov[0] == -1.0 && s.angularVelCov[0] == 0.0)
    || (s.angularVel == ZeroTriad && s.angularVelCov[0] == -1.0 && s.linearAccelCov[0] == 0.0)
  }

  /** Every gyro or accelerometer event establishes the invariant, and every motion event keeps it. */
  lemma MotionKeepsOneTriadLive(s: ImuState, e: MotionEvent)
    ensures e.source == ImuGyro || e.source == ImuAccel ==> OneTriadLive(OnMotion(s, e))
    ensures OneTriadLive(s) ==> OneTriadLive(OnMotion(s, e))
  {
  }

  /** An emitted message carries no orientation and copies of the state's triads and covariances. */
  lemma EmittedMessage(s: ImuState, subscribers: nat, frameId: string)
    requires Emits(s, subscribers)
    ensures var m := OnPublish(s, subscribers, frameId).1.value;
      && m.orientation == Quaternion(0.0, 0.0, 0.0, 0.0)
      && m.orientationCovariance[0] == -1.0 && m.orientationCovariance[1..] == [0.0, 0.0, 0.0, 0.0, 0.0, 0.0, 0.0, 0.0]
      && m.angularVelocity == Vector3(s.angularVel[0], s.angularVel[1], s.angularVel[2])
      && m.linearAcceleration == Vector3(s.linearAccel[0], s.linearAccel[1], s.linearAccel[2])
      && m.angularVelocityCovariance == s.angularVelCov
      && m.linearAccelerationCovariance == s.linearAccelCov
      && m.frameId == frameId && m.timestamp == s.ts
  {
  }

  /** A second pass with no motion in between emits nothing and changes nothing. */
  lemma PublishIdempotent(s: ImuState, subscribers: nat, frameId: string)
    ensures var t := OnPublish(s, subscribers, frameId).0;
      OnPublish(t, subscribers, frameId) == (t, None)
  {
  }

  /** One step of the two interleaved threads. */
  datatype Action = Motion(event: MotionEvent) | Publish(subscribers: nat)

  /**
   * The state after a run of actions, and the messages emitted along the way,
   * oldest first: at most one per publish pass, each stamped with `frameId`.
   */
  function Simulate(s: ImuState, actions: seq<Action>, frameId: string): (r: (ImuState, seq<ImuMessage>))
    ensures |r.1| <= |actions|
    ensures forall i :: 0 <= i < |r.1| ==> r.1[i].frameId == frameId
    decreases |actions|
  {
    if actions == [] then (s, [])
    else
      var (before, sent) := Simulate(s, actions[..|actions| - 1], frameId);
      match actions[|actions| - 1]
      case Motion(e) => (OnMotion(before, e), sent)
      case Publish(n) =>
        var (after, m) := OnPublish(before, n, frameId);
        (after, if m.Some? then sent + [m.value] else sent)
  }

  /**
   * Starting from prevTs = -1, the publisher never emits twice in a row with
   * the same timestamp, and after the first emission prevTs is the timestamp
   * of the last message.
   */
  lemma {:induction false} ConsecutiveMessagesDiffer(s: ImuState, actions: seq<Action>, frameId: string)
    requires s.prevTs == -1.0
    ensures var (t, sent) := Simulate(s, actions, frameId);
      && (sent == [] ==> t.prevTs == -1.0)
      && (sent != [] ==> t.prevTs == sent[|sent| - 1].timestamp)
      && forall i :: 0 < i < |sent| ==> sent[i - 1].timestamp != sent[i].timestamp
    decreases |actions|
  {
    if actions != [] {
      var init := actions[..|actions| - 1];
      ConsecutiveMessagesDiffer(s, init, frameId);
      var (before, sent) := Simulate(s, init, frameId);
      match actions[|actions| - 1]
      case Motion(e) =>
      case Publish(n) =>
        var (after, m) := OnPublish(before, n, frameId);
        if m.Some? {
          var sent' := sent + [m.value];
          forall i | 0 < i < |sent'| ensures sent'[i - 1].timestamp != sent'[i].timestamp {
            if i == |sent'| - 1 && sent != [] {
              assert sent'[i - 1] == sent[|sent| - 1];
            } else if i < |sent'| - 1 {
              assert sent'[i - 1] == sent[i - 1] && sent'[i] == sent[i];
            }
          }
        }
    }
  }

  /**
   * The shared IMU state as the driver holds it: fixed-size arrays for the
   * two triads and their covariances, and the two timestamps.
   */
  class ImuAggregator {
    const angularVel: array<real>
    const linearAccel: array<real>
    const angularVelCov: array<real>
    const linearAccelCov: array<real>
    var ts: real
    var prevTs: real

    ghost predicate Valid()
      reads this
    {
      && angularVel.Length == 3 && linearAccel.Length == 3
      && angularVelCov.Length == 9 && linearAccelCov.Length == 9
      && angularVel != linearAccel && angularVelCov != linearAccelCov
      && angularVel != angularVelCov && angularVel != linearAccelCov
      && linearAccel != angularVelCov && linearAccel != linearAccelCov
    }

    function State(): ImuState
      requires Valid()
      reads this, angularVel, linearAccel, angularVelCov, linearAccelCov
    {
      ImuState(angularVel[..], linearAccel[..], angularVelCov[..], linearAccelCov[..], ts, prevTs)
    }

    /** All-zero state. */
    constructor ()
      ensures Valid()
      ensures State() == ImuState(ZeroTriad, ZeroTriad, [0.0, 0.0, 0.0, 0.0, 0.0, 0.0, 0.0, 0.0, 0.0],
        [0.0, 0.0, 0.0, 0.0, 0.0, 0.0, 0.0, 0.0, 0.0], 0.0, 0.0)
    {
      angularVel := new real[3](_ => 0.0);
      linearAccel := new real[3](_ => 0.0);
      angularVelCov := new real[9](_ => 0.0);
      linearAccelCov := new real[9](_ => 0.0);
      ts, prevTs := 0.0, 0.0;
      new;
      assert angularVel[..] == ZeroTriad;
    }

    /** The motion handler: one atomic update of the shared state. */
    method HandleMotion(e: MotionEvent)
      requires Valid()
      modifies this, angularVel, linearAccel, angularVelCov, linearAccelCov
      ensures Valid()
      ensures State() == OnMotion(old(State()), e)
    {
      if e.source == ImuGyro {
        for i := 0 to 3
          invariant forall j :: 0 <= j < i ==> angularVel[j] == e.axes[j] && linearAccel[j] == 0.0
          invariant angularVelCov[..] == old(angularVelCov[..]) && linearAccelCov[..] == old(linearAccelCov[..])
          invariant prevTs == old(prevTs)
        {
          angularVel[i] := e.axes[i];
          linearAccel[i] := 0.0;
        }
        assert angularVel[..] == e.axes && linearAccel[..] == ZeroTriad;
        angularVelCov[0] := 0.0;
        linearAccelCov[0] := -1.0;
      } else if e.source == ImuAccel {
        for i := 0 to 3
          invariant forall j :: 0 <= j < i ==> angularVel[j] == 0.0 && linearAccel[j] == e.axes[j]
          invariant angularVelCov[..] == old(angularVelCov[..]) && linearAccelCov[..] == old(linearAccelCov[..])
          invariant prevTs == old(prevTs)
        {
          angularVel[i] := 0.0;
          linearAccel[i] := e.axes[i];
        }
        assert angularVel[..] == ZeroTriad && linearAccel[..] == e.axes;
        angularVelCov[0] := -1.0;
        linearAccelCov[0] := 0.0;
      }
      ts := e.timestamp;
      assert angularVelCov[..] == SetFirst(old(angularVelCov[..]), angularVelCov[0]);
      assert linearAccelCov[..] == SetFirst(old(linearAccelCov[..]), linearAccelCov[0]);
    }

    /** The publisher's start: no message has been emitted yet. */
    method StartPublishing()
      requires Valid()
      modifies this
      ensures Valid() && State() == old(State()).(prevTs := -1.0)
    {
      prevTs := -1.0;
    }

    /** One pass of the publish loop with `subscribers` listeners: emits a message iff `Emits`. */
    method PublishStep(subscribers: nat, frameId: string) returns (msg: Option<ImuMessage>)
      requires Valid()
      modifies this
      ensures Valid()
      ensures (State(), msg) == OnPublish(old(State()), subscribers, frameId)
    {
      msg := None;
      if subscribers > 0 && prevTs != ts {
        var avc := new real[9];
        var lac := new real[9];
        for i := 0 to 9
          invariant forall j :: 0 <= j < i ==> avc[j] == angularVelCov[j] && lac[j] == linearAccelCov[j]
          invariant ts == old(ts) && prevTs == old(prevTs)
        {
          avc[i] := angularVelCov[i];
          lac[i] := linearAccelCov[i];
        }
        assert avc[..] == angularVelCov[..] && lac[..] == linearAccelCov[..];
        msg := Some(ImuMessage(frameId, ts, Quaternion(0.0, 0.0, 0.0, 0.0),
          [-1.0, 0.0, 0.0, 0.0, 0.0, 0.0, 0.0, 0.0, 0.0],
          Vector3(angularVel[0], angularVel[1], angularVel[2]),
          Vector3(linearAccel[0], linearAccel[1], linearAccel[2]),
          avc[..], lac[..]));
        prevTs := ts;
      }
    }
  }
}
