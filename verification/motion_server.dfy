/**
 * The JSON drive server (aqx-bot/motion_server.py).  Each message received
 * on the connection is a parsed JSON object: a `camera_angle` field sets the
 * camera servo, and `linear` together with `angular` set the steering to
 * `angular` unclamped and then drive by the sign of `linear`.  Empty data or
 * an error ends the loop, and on every way out the wheels are stopped.
 */
module MotionServer {
  import opened Wrappers
  import opened Picar

  /** The fields of a parsed command object that the server looks at. */
  datatype JsonCommand = JsonCommand(cameraAngle: Option<real>, linear: Option<real>, angular: Option<real>)

  /**
   * drive_linear_angular: steer first, then exactly one drive call whose
   * speed is the magnitude of `linear`, so always positive when moving.
   */
  function DriveLinearAngular(linear: real, angular: real): (calls: seq<PxCall>)
    ensures |calls| == 2 && calls[0] == DirServo(angular) && Drives(calls) == [calls[1]]
    ensures calls[1].Forward? <==> linear > 0.0
    ensures calls[1].Backward? <==> linear < 0.0
    ensures calls[1].Stop? <==> linear == 0.0
    ensures !calls[1].Stop? ==> calls[1].speed > 0.0 && (calls[1].speed == linear || calls[1].speed == -linear)
  {
    var drive := if linear > 0.0 then Forward(linear) else if linear < 0.0 then Backward(-linear) else Stop;
    var calls := [DirServo(angular), drive];
    assert calls[1..] == [drive] && calls[1..][1..] == [];
    calls
  }

  /** The robot after drive_linear_angular: steering is `angular`, the wheels follow `linear`. */
  lemma DriveLinearAngularPose(p: Pose, linear: real, angular: real)
    ensures var q := ApplyAll(p, DriveLinearAngular(linear, angular));
      q.steering == angular && q.pan == p.pan && q.tilt == p.tilt && q.camera == p.camera
      && q.motion == (if linear > 0.0 then Ahead(linear) else if linear < 0.0 then Reverse(-linear) else Halted)
  {
    var calls := DriveLinearAngular(linear, angular);
    var p1 := Effect(p, calls[0]);
    assert ApplyAll(p, calls) == ApplyAll(p1, calls[1..]);
    assert calls[1..][1..] == [];
    assert ApplyAll(p1, calls[1..]) == ApplyAll(Effect(p1, calls[1]), []);
  }

  /**
   * One message: the camera first when present, then steering and drive
   * only when both `linear` and `angular` are present.
   */
  function Dispatch(cmd: JsonCommand): (calls: seq<PxCall>)
    ensures cmd.cameraAngle.Some? ==> |calls| > 0 && calls[0] == CameraServo(cmd.cameraAngle.value)
    ensures cmd.cameraAngle.None? ==> forall i :: 0 <= i < |calls| ==> !calls[i].CameraServo?
    ensures (cmd.linear.None? || cmd.angular.None?) ==> forall i :: 0 <= i < |calls| ==> calls[i].CameraServo?
    ensures cmd.linear.Some? && cmd.angular.Some? ==>
      |calls| >= 2 && calls[|calls| - 2..] == DriveLinearAngular(cmd.linear.value, cmd.angular.value)
    ensures |calls| == (if cmd.cameraAngle.Some? then 1 else 0) + (if cmd.linear.Some? && cmd.angular.Some? then 2 else 0)
  {
    var camera := if cmd.cameraAngle.Some? then [CameraServo(cmd.cameraAngle.value)] else [];
    var drive := if cmd.linear.Some? && cmd.angular.Some? then DriveLinearAngular(cmd.linear.value, cmd.angular.value) else [];
    var calls := camera + drive;
    assert calls[|camera|..] == drive;
    calls
  }

  /**
   * The robot after one message: the camera servo ends at `camera_angle` when
   * present and is untouched otherwise; steering and wheels follow
   * drive_linear_angular when both `linear` and `angular` are present and are
   * untouched otherwise; pan and tilt are never touched.
   */
  lemma DispatchPose(p: Pose, cmd: JsonCommand)
    ensures var q := ApplyAll(p, Dispatch(cmd));
      q.camera == (if cmd.cameraAngle.Some? then cmd.cameraAngle.value else p.camera)
      && q.pan == p.pan && q.tilt == p.tilt
      && (cmd.linear.Some? && cmd.angular.Some? ==>
            var linear := cmd.linear.value;
            q.steering == cmd.angular.value
            && q.motion == (if linear > 0.0 then Ahead(linear) else if linear < 0.0 then Reverse(-linear) else Halted))
      && (cmd.linear.None? || cmd.angular.None? ==> q.steering == p.steering && q.motion == p.motion)
  {
    var camera := if cmd.cameraAngle.Some? then [CameraServo(cmd.cameraAngle.value)] else [];
    var drive := if cmd.linear.Some? && cmd.angular.Some? then DriveLinearAngular(cmd.linear.value, cmd.angular.value) else [];
    assert Dispatch(cmd) == camera + drive;
    ApplyAllConcat(p, camera, drive);
    var p1 := ApplyAll(p, camera);
    if cmd.cameraAngle.Some? {
      assert camera[1..] == [];
      assert p1 == ApplyAll(Effect(p, camera[0]), []);
    }
    if cmd.linear.Some? && cmd.angular.Some? {
      DriveLinearAngularPose(p1, cmd.linear.value, cmd.angular.value);
    }
  }

  /**
   * What one `recv` of the loop yields: a parsed message, empty data (the
   * peer closed the connection), or a failure (a receive error or text that
   * does not parse), which raises out of the loop.
   */
  datatype Received = Message(cmd: JsonCommand) | Closed | Failure

  /** The calls made so far, and whether the loop has exited. */
  datatype Session = Session(calls: seq<PxCall>, exited: bool)

  /** The last call made is a stop. */
  predicate EndsWithStop(calls: seq<PxCall>) {
    |calls| > 0 && calls[|calls| - 1] == Stop
  }

  /** Every receive is a parsed message. */
  predicate AllMessages(received: seq<Received>) {
    forall j :: 0 <= j < |received| ==> received[j].Message?
  }

  /**
   * The server over a finite run of receives: it exits only at an empty or
   * failed receive, and an exit always ends with the stop of `finally`.
   */
  function Serve(received: seq<Received>): (r: Session)
    ensures r.exited ==> EndsWithStop(r.calls)
    ensures !r.exited ==> AllMessages(received)
    decreases |received|
  {
    if received == [] then Session([], false)
    else match received[0]
      case Message(cmd) =>
        var rest := Serve(received[1..]);
        var calls := Dispatch(cmd) + rest.calls;
        assert rest.exited ==> calls[|calls| - 1] == rest.calls[|rest.calls| - 1];
        assert !rest.exited ==> forall j :: 1 <= j < |received| ==> received[j] == received[1..][j - 1];
        Session(calls, rest.exited)
      case _ => Session([Stop], true)
  }

  /** The calls of a run of messages, dispatched in order. */
  function DispatchAll(received: seq<Received>): seq<PxCall>
    requires AllMessages(received)
    decreases |received|
  {
    if received == [] then [] else Dispatch(received[0].cmd) + DispatchAll(received[1..])
  }

  /** A message first: its calls, then the rest of the run. */
  lemma ServeMessage(received: seq<Received>)
    requires received != [] && received[0].Message?
    ensures Serve(received) == Session(Dispatch(received[0].cmd) + Serve(received[1..]).calls, Serve(received[1..]).exited)
  {
  }

  /** A run of messages followed by anything: the messages' calls, then the rest of the run. */
  lemma {:induction false} ServeConcat(a: seq<Received>, b: seq<Received>)
    requires AllMessages(a)
    ensures Serve(a + b) == Session(DispatchAll(a) + Serve(b).calls, Serve(b).exited)
    decreases |a|
  {
    if a == [] {
      assert a + b == b;
    } else {
      var ab := a + b;
      assert ab[0] == a[0] && ab[1..] == a[1..] + b;
      assert AllMessages(a[1..]);
      ServeConcat(a[1..], b);
      ServeMessage(ab);
      var d := Dispatch(a[0].cmd);
      var tail := DispatchAll(a[1..]);
      assert d + (tail + Serve(b).calls) == (d + tail) + Serve(b).calls;
    }
  }

  /**
   * The loop ends at the first receive that is not a message: every earlier
   * message is handled in order, and then the wheels are stopped, once.
   */
  lemma ExitStopsOnce(received: seq<Received>, k: nat)
    requires k < |received| && !received[k].Message? && AllMessages(received[..k])
    ensures Serve(received) == Session(DispatchAll(received[..k]) + [Stop], true)
  {
    assert received == received[..k] + received[k..];
    ServeConcat(received[..k], received[k..]);
    assert received[k..][0] == received[k];
  }

  /** While every receive is a message the loop has not exited and has made no stop of its own. */
  lemma {:induction false} NoExitWhileMessages(received: seq<Received>)
    requires AllMessages(received)
    ensures Serve(received) == Session(DispatchAll(received), false)
    decreases |received|
  {
    if received != [] {
      NoExitWhileMessages(received[1..]);
    }
  }

  /** The loop exits exactly when some receive is empty data or a failure. */
  lemma {:induction false} ExitsIffTerminated(received: seq<Received>)
    ensures Serve(received).exited <==> exists k :: 0 <= k < |received| && !received[k].Message?
    decreases |received|
  {
    if received != [] {
      ExitsIffTerminated(received[1..]);
      if received[0].Message? {
        if exists k :: 0 <= k < |received| && !received[k].Message? {
          var k :| 0 <= k < |received| && !received[k].Message?;
          assert !received[1..][k - 1].Message?;
        }
        if exists k :: 0 <= k < |received[1..]| && !received[1..][k].Message? {
          var k :| 0 <= k < |received[1..]| && !received[1..][k].Message?;
          assert !received[k + 1].Message?;
        }
      }
    }
  }

  lemma {:induction false} DispatchAllConcat(a: seq<Received>, b: seq<Received>)
    requires AllMessages(a) && AllMessages(b)
    ensures AllMessages(a + b) && DispatchAll(a + b) == DispatchAll(a) + DispatchAll(b)
    decreases |a|
  {
    assert forall j :: 0 <= j < |a + b| ==> (a + b)[j] == if j < |a| then a[j] else b[j - |a|];
    if a == [] {
      assert a + b == b;
    } else {
      assert (a + b)[1..] == a[1..] + b;
      DispatchAllConcat(a[1..], b);
    }
  }

  lemma DispatchAllExtend(received: seq<Received>, i: nat)
    requires i < |received| && received[i].Message? && AllMessages(received[..i])
    ensures AllMessages(received[..i + 1])
    ensures DispatchAll(received[..i + 1]) == DispatchAll(received[..i]) + Dispatch(received[i].cmd)
  {
    var one := received[i..i + 1];
    assert one == [received[i]] && one[1..] == [];
    assert received[..i + 1] == received[..i] + one;
    DispatchAllConcat(received[..i], one);
  }

  /** The `try: while True ... finally: px.stop()` loop over a finite run of receives. */
  method ServeLoop(received: seq<Received>) returns (calls: seq<PxCall>, exited: bool)
    ensures Session(calls, exited) == Serve(received)
    ensures exited ==> |calls| > 0 && calls[|calls| - 1] == Stop
  {
    calls := [];
    var i := 0;
    assert received[..0] == [];
    while i < |received| && received[i].Message?
      invariant 0 <= i <= |received|
      invariant AllMessages(received[..i])
      invariant calls == DispatchAll(received[..i])
    {
      DispatchAllExtend(received, i);
      calls := calls + Dispatch(received[i].cmd);
      i := i + 1;
    }
    exited := i < |received|;
    if exited {
      ExitStopsOnce(received, i);
      calls := calls + [Stop];
    } else {
      assert received[..i] == received;
      NoExitWhileMessages(received);
    }
  }
}
