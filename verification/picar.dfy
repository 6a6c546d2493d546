/**
 * The calls the command layer makes on the PiCar-X actuator driver, and an
 * abstract account of what each call does to the robot's pose.  The driver
 * itself is not part of this model: a call is a value, and a handler's
 * behaviour is the sequence of calls it emits.
 */
module Picar {

  /** One call on the actuator driver. */
  datatype PxCall =
    | Stop                        // px.stop()
    | Forward(speed: real)        // px.forward(speed)
    | Backward(speed: real)       // px.backward(speed)
    | DirServo(angle: real)       // px.set_dir_servo_angle(angle)
    | CamPan(angle: real)         // px.set_cam_pan_angle(angle)
    | CamTilt(angle: real)        // px.set_cam_tilt_angle(angle)
    | CameraServo(angle: real)    // px.set_camera_servo_angle(angle)

  predicate IsDrive(c: PxCall) {
    c.Stop? || c.Forward? || c.Backward?
  }

  /** What the wheels are doing. */
  datatype Motion = Halted | Ahead(speed: real) | Reverse(speed: real)

  /** The physical state the driver calls set: motion and servo angles. */
  datatype Pose = Pose(motion: Motion, steering: real, pan: real, tilt: real, camera: real)

  /** The effect of one call: it sets exactly the part of the pose it names. */
  function Effect(p: Pose, c: PxCall): (q: Pose)
    ensures IsDrive(c) ==> q.steering == p.steering && q.pan == p.pan && q.tilt == p.tilt && q.camera == p.camera
    ensures !IsDrive(c) ==> q.motion == p.motion
    ensures c.DirServo? ==> q == p.(steering := c.angle)
  {
    match c
    case Stop => p.(motion := Halted)
    case Forward(s) => p.(motion := Ahead(s))
    case Backward(s) => p.(motion := Reverse(s))
    case DirServo(a) => p.(steering := a)
    case CamPan(a) => p.(pan := a)
    case CamTilt(a) => p.(tilt := a)
    case CameraServo(a) => p.(camera := a)
  }

  /** The pose after the calls have been made in order. */
  function ApplyAll(p: Pose, calls: seq<PxCall>): Pose
    decreases |calls|
  {
    if calls == [] then p else ApplyAll(Effect(p, calls[0]), calls[1..])
  }

  /** Making two call sequences one after the other is making their concatenation. */
  lemma {:induction false} ApplyAllConcat(p: Pose, a: seq<PxCall>, b: seq<PxCall>)
    ensures ApplyAll(p, a + b) == ApplyAll(ApplyAll(p, a), b)
    decreases |a|
  {
    if a == [] {
      assert a + b == b;
    } else {
      assert (a + b)[0] == a[0];
      assert (a + b)[1..] == a[1..] + b;
      ApplyAllConcat(Effect(p, a[0]), a[1..], b);
    }
  }

  /** The drive calls (stop, forward, backward) of a sequence, in order. */
  function Drives(calls: seq<PxCall>): (ds: seq<PxCall>)
    ensures forall i :: 0 <= i < |ds| ==> IsDrive(ds[i])
    ensures |ds| <= |calls|
    decreases |calls|
  {
    if calls == [] then []
    else (if IsDrive(calls[0]) then [calls[0]] else []) + Drives(calls[1..])
  }

  lemma {:induction false} DrivesConcat(a: seq<PxCall>, b: seq<PxCall>)
    ensures Drives(a + b) == Drives(a) + Drives(b)
    decreases |a|
  {
    if a == [] {
      assert a + b == b;
    } else {
      assert (a + b)[0] == a[0];
      assert (a + b)[1..] == a[1..] + b;
      DrivesConcat(a[1..], b);
    }
  }

  /** A sequence none of whose calls is a drive call contains no drive call. */
  lemma {:induction false} DrivesNone(calls: seq<PxCall>)
    requires forall i :: 0 <= i < |calls| ==> !IsDrive(calls[i])
    ensures Drives(calls) == []
    decreases |calls|
  {
    if calls != [] {
      DrivesNone(calls[1..]);
    }
  }
}
