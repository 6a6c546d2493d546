/**
 * The motion/camera supervisor of the robot's main process (aqx-bot/test.py,
 * control_listener and stop_all).  Each iteration of the listener receives
 * one datagram or times out; a datagram of 8, 12 or 16 bytes is decoded into
 * a command, whose steering and camera angles are clamped and applied only
 * past a deadband, and whose linear value picks stop, forward or backward.
 * A timeout only stops the wheels.  The supervisor remembers the last
 * steering, pan and tilt angles it sent.
 *
 * Decoding a 4-byte word as an IEEE 754 binary32 number is not modelled: the
 * word-to-number map is the parameter `asFloat`.
 */
module Control {
  import opened Wrappers
  import opened Picar

  newtype byte = x: int | 0 <= x < 256

  const SteerGain: real := 10.0       // angular * 10
  const MaxAngle: real := 35.0        // every servo angle is clamped to [-35, 35]
  const AngleDeadband: real := 0.1    // a servo is re-sent only past this change
  const LinearDeadband: real := 0.05  // |linear| below this means stop
  const DriveSpeed: real := 20.0      // fixed speed of forward and backward

  function Abs(x: real): real {
    if x < 0.0 then -x else x
  }

  /** `max(min(x, 35), -35)`. */
  function Clamp(x: real): (r: real)
    ensures -MaxAngle <= r <= MaxAngle
    ensures -MaxAngle <= x <= MaxAngle ==> r == x
    ensures x > MaxAngle ==> r == MaxAngle
    ensures x < -MaxAngle ==> r == -MaxAngle
  {
    var m := if x < MaxAngle then x else MaxAngle;
    if m > -MaxAngle then m else -MaxAngle
  }

  // ---------------------------------------------------------------------
  // Decoding a packet

  /** The only packet sizes the listener accepts: two, three or four words. */
  predicate ValidLength(n: nat) {
    n == 8 || n == 12 || n == 16
  }

  datatype Command = Command(linear: real, angular: real, yaw: Option<real>, pitch: Option<real>)

  datatype DecodeError = UnexpectedSize(size: nat)

  /** The values a command carries, in packet order. */
  function Fields(cmd: Command): seq<real> {
    [cmd.linear, cmd.angular]
    + (if cmd.yaw.Some? then [cmd.yaw.value] else [])
    + (if cmd.pitch.Some? then [cmd.pitch.value] else [])
  }

  /** `struct.unpack('f' * (len(data) // 4), data)`: one value per 4-byte word. */
  function Unpack(data: seq<byte>, asFloat: seq<byte> -> real): (vals: seq<real>)
    requires |data| % 4 == 0
    ensures |vals| == |data| / 4
    ensures forall i :: 0 <= i < |vals| ==> vals[i] == asFloat(data[4 * i..4 * i + 4])
    decreases |data|
  {
    if data == [] then []
    else
      var rest := Unpack(data[4..], asFloat);
      assert forall i :: 0 <= i < |rest| ==> data[4..][4 * i..4 * i + 4] == data[4 * (i + 1)..4 * (i + 1) + 4];
      [asFloat(data[..4])] + rest
  }

  /**
   * The packet step before any actuator call: reject a size other than 8, 12
   * or 16, else unpack the words and pad the camera part with absent values.
   */
  function Decode(data: seq<byte>, asFloat: seq<byte> -> real): (r: Result<Command, DecodeError>)
    ensures r.Ok? <==> ValidLength(|data|)
    ensures r.Err? ==> r.error == UnexpectedSize(|data|)
    ensures r.Ok? ==> Fields(r.value) == Unpack(data, asFloat)
    ensures r.Ok? ==> (r.value.yaw.Some? <==> |data| >= 12) && (r.value.pitch.Some? <==> |data| == 16)
  {
    if !ValidLength(|data|) then Err(UnexpectedSize(|data|))
    else
      var vals := Unpack(data, asFloat);
      var camera := seq(|vals| - 2, i requires 0 <= i < |vals| - 2 => Some(vals[i + 2])) + [None, None];
      Ok(Command(vals[0], vals[1], camera[0], camera[1]))
  }

  /** A valid packet of n bytes carries exactly n / 4 values, word k being value k. */
  lemma DecodeFieldCount(data: seq<byte>, asFloat: seq<byte> -> real, k: nat)
    requires ValidLength(|data|) && k < |data| / 4
    ensures Decode(data, asFloat).Ok?
    ensures |Fields(Decode(data, asFloat).value)| == |data| / 4
    ensures Fields(Decode(data, asFloat).value)[k] == asFloat(data[4 * k..4 * k + 4])
  {
  }

  // ---------------------------------------------------------------------
  // The deadband rule and the drive choice

  /** A servo is (re)sent when nothing was sent before or the target moved past the deadband. */
  predicate Moved(target: real, last: Option<real>) {
    last.None? || Abs(target - last.value) > AngleDeadband
  }

  /** What one servo does for one packet: the angle sent, if any, and the angle remembered after. */
  datatype ServoUpdate = ServoUpdate(send: Option<real>, last: Option<real>)

  /**
   * The servo rule shared by steering, pan and tilt: an absent request does
   * nothing; a present one is clamped, sent only when it moved past the
   * deadband, and then remembered clamped.
   */
  function Track(request: Option<real>, last: Option<real>): (u: ServoUpdate)
    ensures request.None? ==> u == ServoUpdate(None, last)
    ensures request.Some? ==> (u.send.Some? <==> Moved(Clamp(request.value), last))
    ensures u.send.Some? ==> u.send.value == Clamp(request.value) && u.last == u.send
    ensures u.send.None? ==> u.last == last
    ensures u.last.Some? ==> -MaxAngle <= u.last.value <= MaxAngle || u.last == last
  {
    match request
    case None => ServoUpdate(None, last)
    case Some(v) =>
      var target := Clamp(v);
      if Moved(target, last) then ServoUpdate(Some(target), Some(target)) else ServoUpdate(None, last)
  }

  /** The one drive call of a packet: stop inside the linear deadband, else a fixed-speed move by sign. */
  function DriveCall(linear: real): (c: PxCall)
    ensures IsDrive(c)
    ensures c.Stop? <==> -LinearDeadband < linear < LinearDeadband
    ensures c.Forward? <==> linear >= LinearDeadband
    ensures c.Backward? <==> linear <= -LinearDeadband
    ensures !c.Stop? ==> c.speed == DriveSpeed
  {
    if Abs(linear) < LinearDeadband then Stop
    else if linear > 0.0 then Forward(DriveSpeed)
    else Backward(DriveSpeed)
  }

  // ---------------------------------------------------------------------
  // The supervisor's step as a function of its remembered angles

  /** `last_dir_angle`, `last_camera_yaw`, `last_camera_pitch`. */
  datatype LastAngles = LastAngles(dir: real, yaw: Option<real>, pitch: Option<real>)

  /** Start-up: steering 0, camera never sent. */
  const Initial: LastAngles := LastAngles(0.0, None, None)

  datatype Event = Datagram(data: seq<byte>) | RecvTimeout

  datatype Outcome = Outcome(calls: seq<PxCall>, last: LastAngles)

  predicate InRange(a: real) {
    -MaxAngle <= a <= MaxAngle
  }

  /** Every remembered angle is one that could have been sent. */
  predicate CacheInRange(m: LastAngles) {
    InRange(m.dir)
    && (m.yaw.Some? ==> InRange(m.yaw.value))
    && (m.pitch.Some? ==> InRange(m.pitch.value))
  }

  /** Every servo angle in the calls lies in [-35, 35]. */
  predicate AnglesBounded(calls: seq<PxCall>) {
    forall i :: 0 <= i < |calls| && (calls[i].DirServo? || calls[i].CamPan? || calls[i].CamTilt?) ==> InRange(calls[i].angle)
  }

  /** The calls a decoded packet may make: the wheels, steering, pan and tilt, never the camera servo. */
  predicate PacketCall(c: PxCall) {
    IsDrive(c) || c.DirServo? || c.CamPan? || c.CamTilt?
  }

  predicate OnlyPacketCalls(calls: seq<PxCall>) {
    forall i :: 0 <= i < |calls| ==> PacketCall(calls[i])
  }

  datatype Servo = Steering | Pan | Tilt

  function ServoCall(servo: Servo, a: real): PxCall {
    match servo
    case Steering => DirServo(a)
    case Pan => CamPan(a)
    case Tilt => CamTilt(a)
  }

  /** The call, if any, that a servo update makes. */
  function Send(servo: Servo, u: ServoUpdate): (calls: seq<PxCall>)
    ensures |calls| <= 1
    ensures forall i :: 0 <= i < |calls| ==> !IsDrive(calls[i])
    ensures u.send.None? <==> calls == []
    ensures u.send.Some? ==> calls == [ServoCall(servo, u.send.value)]
    ensures OnlyPacketCalls(calls)
    ensures (u.send.Some? ==> InRange(u.send.value)) ==> AnglesBounded(calls)
  {
    if u.send.Some? then [ServoCall(servo, u.send.value)] else []
  }

  lemma AnglesBoundedConcat(a: seq<PxCall>, b: seq<PxCall>)
    requires AnglesBounded(a) && AnglesBounded(b)
    ensures AnglesBounded(a + b)
  {
    forall i | 0 <= i < |a + b| && ((a + b)[i].DirServo? || (a + b)[i].CamPan? || (a + b)[i].CamTilt?)
      ensures InRange((a + b)[i].angle)
    {
      if i >= |a| {
        assert (a + b)[i] == b[i - |a|];
      }
    }
  }

  lemma OnlyPacketCallsConcat(a: seq<PxCall>, b: seq<PxCall>)
    requires OnlyPacketCalls(a) && OnlyPacketCalls(b)
    ensures OnlyPacketCalls(a + b)
  {
    forall i | 0 <= i < |a + b|
      ensures PacketCall((a + b)[i])
    {
      if i >= |a| {
        assert (a + b)[i] == b[i - |a|];
      }
    }
  }

  /**
   * The calls and new memory for one decoded command, in the source's order:
   * steer, drive, pan, tilt.  Exactly one drive call, the one linear picks;
   * no call but drive, steering, pan and tilt; every servo angle sent in
   * range; an in-range memory stays in range.
   */
  function Apply(m: LastAngles, cmd: Command): (o: Outcome)
    ensures 1 <= |o.calls| <= 4
    ensures Drives(o.calls) == [DriveCall(cmd.linear)]
    ensures OnlyPacketCalls(o.calls)
    ensures AnglesBounded(o.calls)
    ensures CacheInRange(m) ==> CacheInRange(o.last)
  {
    var steer := Track(Some(cmd.angular * SteerGain), Some(m.dir));
    var yaw := Track(cmd.yaw, m.yaw);
    var pitch := Track(cmd.pitch, m.pitch);
    var s := Send(Steering, steer);
    var d := [DriveCall(cmd.linear)];
    var y := Send(Pan, yaw);
    var t := Send(Tilt, pitch);
    PacketOfParts(s, DriveCall(cmd.linear), y, t);
    Outcome(s + d + y + t, LastAngles(steer.last.value, yaw.last, pitch.last))
  }

  /** Appending calls none of which is a drive call adds no drive call. */
  lemma DrivesAppendNone(a: seq<PxCall>, b: seq<PxCall>)
    requires forall i :: 0 <= i < |b| ==> !IsDrive(b[i])
    ensures Drives(a + b) == Drives(a)
  {
    DrivesNone(b);
    DrivesConcat(a, b);
  }

  /** One drive call after calls none of which is a drive call is the only drive call. */
  lemma DrivesSingle(s: seq<PxCall>, d: PxCall)
    requires IsDrive(d)
    requires forall i :: 0 <= i < |s| ==> !IsDrive(s[i])
    ensures Drives(s + [d]) == [d]
  {
    assert [d][1..] == [];
    assert Drives([d]) == [d];
    DrivesNone(s);
    DrivesConcat(s, [d]);
  }

  /** Steering, drive, pan and tilt parts: the drive part is the only drive call. */
  lemma DrivesOfParts(s: seq<PxCall>, d: PxCall, y: seq<PxCall>, t: seq<PxCall>)
    requires IsDrive(d)
    requires forall i :: 0 <= i < |s| ==> !IsDrive(s[i])
    requires forall i :: 0 <= i < |y| ==> !IsDrive(y[i])
    requires forall i :: 0 <= i < |t| ==> !IsDrive(t[i])
    ensures Drives(s + [d] + y + t) == [d]
  {
    DrivesSingle(s, d);
    DrivesAppendNone(s + [d], y);
    DrivesAppendNone(s + [d] + y, t);
  }

  /** One iteration of control_listener. */
  function Next(m: LastAngles, e: Event, asFloat: seq<byte> -> real): (o: Outcome)
    ensures AnglesBounded(o.calls)
    ensures CacheInRange(m) ==> CacheInRange(o.last)
    ensures |Drives(o.calls)| <= 1
  {
    match e
    case RecvTimeout => Outcome([Stop], m)
    case Datagram(data) =>
      match Decode(data, asFloat)
      case Err(_) => Outcome([], m)
      case Ok(cmd) => Apply(m, cmd)
  }

  /**
   * The whole listener over a finite run of events: every servo angle sent
   * is in range, at most one drive call per event, and an in-range memory
   * stays in range.
   */
  function Run(m: LastAngles, events: seq<Event>, asFloat: seq<byte> -> real): (r: Outcome)
    ensures AnglesBounded(r.calls)
    ensures |Drives(r.calls)| <= |events|
    ensures CacheInRange(m) ==> CacheInRange(r.last)
    decreases |events|
  {
    if events == [] then Outcome([], m)
    else
      var before := Run(m, events[..|events| - 1], asFloat);
      var o := Next(before.last, events[|events| - 1], asFloat);
      AnglesBoundedConcat(before.calls, o.calls);
      DrivesConcat(before.calls, o.calls);
      Outcome(before.calls + o.calls, o.last)
  }

  /** One more event extends the run by that event's step. */
  lemma RunExtend(m: LastAngles, events: seq<Event>, i: nat, asFloat: seq<byte> -> real)
    requires i < |events|
    ensures var r := Run(m, events[..i], asFloat);
      var o := Next(r.last, events[i], asFloat);
      Run(m, events[..i + 1], asFloat) == Outcome(r.calls + o.calls, o.last)
  {
    var e := events[..i + 1];
    assert e[..|e| - 1] == events[..i] && e[|e| - 1] == events[i];
  }

  // ---------------------------------------------------------------------
  // Properties of one step

  /** A packet of any other size emits nothing and forgets nothing. */
  lemma BadSizeIgnored(m: LastAngles, data: seq<byte>, asFloat: seq<byte> -> real)
    requires !ValidLength(|data|)
    ensures Next(m, Datagram(data), asFloat) == Outcome([], m)
  {
  }

  /** A receive timeout emits one stop and nothing else, and forgets nothing. */
  lemma TimeoutOnlyStops(m: LastAngles, asFloat: seq<byte> -> real)
    ensures Next(m, RecvTimeout, asFloat) == Outcome([Stop], m)
  {
  }

  /** Each valid packet makes exactly one drive call, chosen by linear alone. */
  lemma OneDrivePerPacket(m: LastAngles, data: seq<byte>, asFloat: seq<byte> -> real)
    requires ValidLength(|data|)
    ensures Drives(Next(m, Datagram(data), asFloat).calls) == [DriveCall(asFloat(data[0..4]))]
  {
    assert Decode(data, asFloat).value.linear == Unpack(data, asFloat)[0];
  }

  /** Steering, drive, pan and tilt parts: what each part keeps holds of the whole packet. */
  lemma PacketOfParts(s: seq<PxCall>, d: PxCall, y: seq<PxCall>, t: seq<PxCall>)
    requires IsDrive(d)
    requires forall i :: 0 <= i < |s| ==> !IsDrive(s[i])
    requires forall i :: 0 <= i < |y| ==> !IsDrive(y[i])
    requires forall i :: 0 <= i < |t| ==> !IsDrive(t[i])
    requires OnlyPacketCalls(s) && OnlyPacketCalls(y) && OnlyPacketCalls(t)
    requires AnglesBounded(s) && AnglesBounded(y) && AnglesBounded(t)
    ensures Drives(s + [d] + y + t) == [d]
    ensures OnlyPacketCalls(s + [d] + y + t)
    ensures AnglesBounded(s + [d] + y + t)
  {
    DrivesOfParts(s, d, y, t);
    AnglesBoundedConcat(s, [d]);
    AnglesBoundedConcat(s + [d], y);
    AnglesBoundedConcat(s + [d] + y, t);
    OnlyPacketCallsConcat(s, [d]);
    OnlyPacketCallsConcat(s + [d], y);
    OnlyPacketCallsConcat(s + [d] + y, t);
  }

  /** A call aimed at the given servo. */
  predicate Aims(c: PxCall, servo: Servo) {
    match servo
    case Steering => c.DirServo?
    case Pan => c.CamPan?
    case Tilt => c.CamTilt?
  }

  /** How many of the calls go to the given servo. */
  function ServoCount(servo: Servo, calls: seq<PxCall>): nat
    decreases |calls|
  {
    if calls == [] then 0 else (if Aims(calls[0], servo) then 1 else 0) + ServoCount(servo, calls[1..])
  }

  lemma {:induction false} ServoCountConcat(servo: Servo, a: seq<PxCall>, b: seq<PxCall>)
    ensures ServoCount(servo, a + b) == ServoCount(servo, a) + ServoCount(servo, b)
    decreases |a|
  {
    if a == [] {
      assert a + b == b;
    } else {
      assert (a + b)[0] == a[0];
      assert (a + b)[1..] == a[1..] + b;
      ServoCountConcat(servo, a[1..], b);
    }
  }

  /** A servo update makes one call to its own servo when it sends, and none to any other. */
  lemma SendCount(servo: Servo, target: Servo, u: ServoUpdate)
    ensures ServoCount(target, Send(servo, u)) == if servo == target && u.send.Some? then 1 else 0
  {
    var calls := Send(servo, u);
    if calls != [] {
      assert calls[1..] == [];
    }
  }

  /** Steering, drive, pan and tilt parts: the drive call goes to no servo, so the counts add up. */
  lemma CountOfParts(target: Servo, s: seq<PxCall>, d: PxCall, y: seq<PxCall>, t: seq<PxCall>)
    requires IsDrive(d)
    ensures ServoCount(target, s + [d] + y + t)
         == ServoCount(target, s) + ServoCount(target, y) + ServoCount(target, t)
  {
    assert [d][1..] == [];
    assert ServoCount(target, [d]) == 0;
    ServoCountConcat(target, s, [d]);
    ServoCountConcat(target, s + [d], y);
    ServoCountConcat(target, s + [d] + y, t);
  }

  /** The number of calls each servo gets for one decoded command: one exactly when its update sends. */
  lemma ApplyCounts(m: LastAngles, cmd: Command, target: Servo)
    ensures var steer := Track(Some(cmd.angular * SteerGain), Some(m.dir));
      var yaw := Track(cmd.yaw, m.yaw);
      var pitch := Track(cmd.pitch, m.pitch);
      ServoCount(target, Apply(m, cmd).calls)
      == match target
         case Steering => (if steer.send.Some? then 1 else 0)
         case Pan => (if yaw.send.Some? then 1 else 0)
         case Tilt => (if pitch.send.Some? then 1 else 0)
  {
    var steer := Track(Some(cmd.angular * SteerGain), Some(m.dir));
    var yaw := Track(cmd.yaw, m.yaw);
    var pitch := Track(cmd.pitch, m.pitch);
    CountOfParts(target, Send(Steering, steer), DriveCall(cmd.linear), Send(Pan, yaw), Send(Tilt, pitch));
    SendCount(Steering, target, steer);
    SendCount(Pan, target, yaw);
    SendCount(Tilt, target, pitch);
  }

  /** The steering target of a command: the clamped `angular * 10`. */
  function SteerTarget(cmd: Command): real {
    Clamp(cmd.angular * SteerGain)
  }

  /**
   * Steering: a packet sends at most one steering call; it sends one iff the
   * clamped target is more than 0.1 from the remembered angle, the angle sent
   * is that target, and the remembered angle changes exactly then.
   */
  lemma SteeringRule(m: LastAngles, cmd: Command)
    ensures var o := Apply(m, cmd);
      var moved := Abs(SteerTarget(cmd) - m.dir) > AngleDeadband;
      ServoCount(Steering, o.calls) == (if moved then 1 else 0)
      && (moved ==> o.calls[0] == DirServo(SteerTarget(cmd)) && o.last.dir == SteerTarget(cmd))
      && (!moved ==> o.last.dir == m.dir)
      && (forall i :: 0 <= i < |o.calls| && o.calls[i].DirServo? ==> o.calls[i].angle == SteerTarget(cmd))
  {
    var s := Send(Steering, Track(Some(cmd.angular * SteerGain), Some(m.dir)));
    var y := Send(Pan, Track(cmd.yaw, m.yaw));
    var t := Send(Tilt, Track(cmd.pitch, m.pitch));
    assert forall i :: 0 <= i < |y| ==> y[i].CamPan?;
    assert forall i :: 0 <= i < |t| ==> t[i].CamTilt?;
    SteerOfParts(s, DriveCall(cmd.linear), y, t);
    ApplyCounts(m, cmd, Steering);
  }

  /** Steering, drive, pan and tilt parts: every steering call is in the steering part. */
  lemma SteerOfParts(s: seq<PxCall>, d: PxCall, y: seq<PxCall>, t: seq<PxCall>)
    requires !d.DirServo?
    requires forall i :: 0 <= i < |y| ==> !y[i].DirServo?
    requires forall i :: 0 <= i < |t| ==> !t[i].DirServo?
    ensures forall i :: 0 <= i < |s + [d] + y + t| && (s + [d] + y + t)[i].DirServo? ==> i < |s| && (s + [d] + y + t)[i] == s[i]
  {
    var rest := [d] + y + t;
    assert s + [d] + y + t == s + rest;
    assert forall i :: 0 <= i < |rest| ==> !rest[i].DirServo?;
  }

  /** From start-up, a packet with angular 0 sends no steering call and keeps steering at 0. */
  lemma ZeroAngularFromStart(cmd: Command)
    requires cmd.angular == 0.0
    ensures ServoCount(Steering, Apply(Initial, cmd).calls) == 0
    ensures Apply(Initial, cmd).last.dir == 0.0
  {
    SteeringRule(Initial, cmd);
  }

  /**
   * Camera: an absent field leaves its memory alone; a present one is sent
   * clamped when nothing was sent before or it moved past the deadband, and
   * the clamped value is what is remembered.
   */
  lemma CameraRule(m: LastAngles, cmd: Command)
    ensures var o := Apply(m, cmd);
      (cmd.yaw.None? ==> o.last.yaw == m.yaw)
      && (cmd.pitch.None? ==> o.last.pitch == m.pitch)
      && (cmd.yaw.Some? && m.yaw.None? ==> o.last.yaw == Some(Clamp(cmd.yaw.value)) && CamPan(Clamp(cmd.yaw.value)) in o.calls)
      && (cmd.pitch.Some? && m.pitch.None? ==> o.last.pitch == Some(Clamp(cmd.pitch.value)) && CamTilt(Clamp(cmd.pitch.value)) in o.calls)
      && (cmd.yaw.Some? ==> o.last.yaw == if Moved(Clamp(cmd.yaw.value), m.yaw) then Some(Clamp(cmd.yaw.value)) else m.yaw)
      && (cmd.pitch.Some? ==> o.last.pitch == if Moved(Clamp(cmd.pitch.value), m.pitch) then Some(Clamp(cmd.pitch.value)) else m.pitch)
      && (forall a :: CamPan(a) in o.calls ==> cmd.yaw.Some? && a == Clamp(cmd.yaw.value) && Moved(a, m.yaw))
      && (forall a :: CamTilt(a) in o.calls ==> cmd.pitch.Some? && a == Clamp(cmd.pitch.value) && Moved(a, m.pitch))
    ensures ServoCount(Pan, Apply(m, cmd).calls) == if cmd.yaw.Some? && Moved(Clamp(cmd.yaw.value), m.yaw) then 1 else 0
    ensures ServoCount(Tilt, Apply(m, cmd).calls) == if cmd.pitch.Some? && Moved(Clamp(cmd.pitch.value), m.pitch) then 1 else 0
  {
    ApplyCounts(m, cmd, Pan);
    ApplyCounts(m, cmd, Tilt);
  }

  /**
   * Hysteresis: two packets whose steering targets are within 0.1 of each
   * other send at most one steering call between them.
   */
  lemma SteeringHysteresis(m: LastAngles, cmd1: Command, cmd2: Command)
    requires Abs(SteerTarget(cmd1) - SteerTarget(cmd2)) <= AngleDeadband
    ensures var o1 := Apply(m, cmd1);
      ServoCount(Steering, o1.calls + Apply(o1.last, cmd2).calls) <= 1
  {
    var o1 := Apply(m, cmd1);
    SteeringRule(m, cmd1);
    SteeringRule(o1.last, cmd2);
    ServoCountConcat(Steering, o1.calls, Apply(o1.last, cmd2).calls);
  }

  // ---------------------------------------------------------------------
  // The remembered angles against what the servos were told

  /** The memory agrees with the servos: steering, and pan/tilt once sent. */
  predicate Agrees(p: Pose, m: LastAngles) {
    p.steering == m.dir
    && (m.yaw.Some? ==> p.pan == m.yaw.value)
    && (m.pitch.Some? ==> p.tilt == m.pitch.value)
  }

  lemma ApplySend(p: Pose, servo: Servo, u: ServoUpdate)
    ensures u.send.None? ==> ApplyAll(p, Send(servo, u)) == p
    ensures u.send.Some? ==> ApplyAll(p, Send(servo, u)) == Effect(p, ServoCall(servo, u.send.value))
  {
  }

  /**
   * After the calls of one step are made on a pose that agrees with the
   * memory, the pose agrees with the new memory: the supervisor's cache is
   * exactly what the servos were last told.  A timeout only halts the
   * wheels, a packet of a bad size changes nothing, and a valid packet
   * leaves the wheels as its drive call sets them and never moves the
   * camera servo.
   */
  lemma {:induction false} StepKeepsAgreement(p: Pose, m: LastAngles, e: Event, asFloat: seq<byte> -> real)
    requires Agrees(p, m)
    ensures Agrees(ApplyAll(p, Next(m, e, asFloat).calls), Next(m, e, asFloat).last)
    ensures e.RecvTimeout? ==> ApplyAll(p, Next(m, e, asFloat).calls) == p.(motion := Halted)
    ensures e.Datagram? && Decode(e.data, asFloat).Err? ==> ApplyAll(p, Next(m, e, asFloat).calls) == p
    ensures e.Datagram? && Decode(e.data, asFloat).Ok? ==>
      ApplyAll(p, Next(m, e, asFloat).calls).motion == Effect(p, DriveCall(Decode(e.data, asFloat).value.linear)).motion
    ensures ApplyAll(p, Next(m, e, asFloat).calls).camera == p.camera
  {
    match e
    case RecvTimeout =>
      assert ApplyAll(p, [Stop]) == ApplyAll(Effect(p, Stop), []);
    case Datagram(data) =>
      match Decode(data, asFloat)
      case Err(_) =>
      case Ok(cmd) =>
        ApplyKeepsAgreement(p, m, cmd);
        ApplyPose(p, m, cmd);
  }

  /** The angle a servo holds after an update: the one sent, if any, else the one it had. */
  function Holds(angle: real, u: ServoUpdate): real {
    if u.send.Some? then u.send.value else angle
  }

  /**
   * The pose after one decoded command's calls, from any pose: the wheels as
   * the drive call sets them, steering, pan and tilt at what their updates
   * sent (or as they were), and nothing else touched.
   */
  lemma ApplyPose(p: Pose, m: LastAngles, cmd: Command)
    ensures var steer := Track(Some(cmd.angular * SteerGain), Some(m.dir));
      var yaw := Track(cmd.yaw, m.yaw);
      var pitch := Track(cmd.pitch, m.pitch);
      ApplyAll(p, Apply(m, cmd).calls)
      == p.(motion := Effect(p, DriveCall(cmd.linear)).motion,
            steering := Holds(p.steering, steer), pan := Holds(p.pan, yaw), tilt := Holds(p.tilt, pitch))
  {
    var steer := Track(Some(cmd.angular * SteerGain), Some(m.dir));
    var yaw := Track(cmd.yaw, m.yaw);
    var pitch := Track(cmd.pitch, m.pitch);
    var s := Send(Steering, steer);
    var d := [DriveCall(cmd.linear)];
    var y := Send(Pan, yaw);
    var t := Send(Tilt, pitch);
    ApplyAllConcat(p, s, d);
    ApplyAllConcat(p, s + d, y);
    ApplyAllConcat(p, s + d + y, t);
    var p1 := ApplyAll(p, s);
    ApplySend(p, Steering, steer);
    assert p1 == p.(steering := Holds(p.steering, steer));
    var p2 := ApplyAll(p1, d);
    assert p2 == Effect(p1, DriveCall(cmd.linear));
    assert p2 == p1.(motion := Effect(p, DriveCall(cmd.linear)).motion);
    var p3 := ApplyAll(p2, y);
    ApplySend(p2, Pan, yaw);
    assert p3 == p2.(pan := Holds(p.pan, yaw));
    var p4 := ApplyAll(p3, t);
    ApplySend(p3, Tilt, pitch);
    assert p4 == p3.(tilt := Holds(p.tilt, pitch));
  }

  /** The agreement for the calls of one decoded command. */
  lemma ApplyKeepsAgreement(p: Pose, m: LastAngles, cmd: Command)
    requires Agrees(p, m)
    ensures Agrees(ApplyAll(p, Apply(m, cmd).calls), Apply(m, cmd).last)
  {
    ApplyPose(p, m, cmd);
  }

  /**
   * Over any run from an in-range memory, the memory stays in range and
   * agrees with the servos, and the camera servo is never moved.
   */
  lemma {:induction false} RunKeepsAgreement(p: Pose, m: LastAngles, events: seq<Event>, asFloat: seq<byte> -> real)
    requires Agrees(p, m) && CacheInRange(m)
    ensures Agrees(ApplyAll(p, Run(m, events, asFloat).calls), Run(m, events, asFloat).last)
    ensures CacheInRange(Run(m, events, asFloat).last)
    ensures ApplyAll(p, Run(m, events, asFloat).calls).camera == p.camera
    decreases |events|
  {
    if events != [] {
      var before := events[..|events| - 1];
      RunKeepsAgreement(p, m, before, asFloat);
      var r := Run(m, before, asFloat);
      var e := events[|events| - 1];
      StepKeepsAgreement(ApplyAll(p, r.calls), r.last, e, asFloat);
      ApplyAllConcat(p, r.calls, Next(r.last, e, asFloat).calls);
    }
  }

  // ---------------------------------------------------------------------
  // Shutdown

  /** The neutral pose: wheels stopped, steering and camera centred. */
  function Neutral(p: Pose): Pose {
    p.(motion := Halted, steering := 0.0, pan := 0.0, tilt := 0.0)
  }

  /** stop_all: stop first, then centre steering, pan and tilt. */
  function StopAll(): (calls: seq<PxCall>)
    ensures |calls| > 0 && calls[0] == Stop && Drives(calls) == [Stop]
  {
    [Stop, DirServo(0.0), CamPan(0.0), CamTilt(0.0)]
  }

  /** From any pose, stop_all reaches the neutral pose. */
  lemma StopAllNeutral(p: Pose)
    ensures ApplyAll(p, StopAll()) == Neutral(p)
  {
    var calls := StopAll();
    assert calls[1..][1..][1..][1..] == [];
  }

  // ---------------------------------------------------------------------
  // The listener as a class over the three globals

  class Supervisor {
    var lastDirAngle: real
    var lastCameraYaw: Option<real>
    var lastCameraPitch: Option<real>

    function Remembered(): LastAngles
      reads this
    {
      LastAngles(lastDirAngle, lastCameraYaw, lastCameraPitch)
    }

    constructor ()
      ensures Remembered() == Initial
    {
      lastDirAngle := 0.0;
      lastCameraYaw := None;
      lastCameraPitch := None;
    }

    /** The steering block of one packet: send the clamped angle when it moved past the deadband. */
    method SteerTo(angular: real) returns (sent: seq<PxCall>)
      modifies this
      ensures var u := Track(Some(angular * SteerGain), Some(old(lastDirAngle)));
        sent == Send(Steering, u) && Some(lastDirAngle) == u.last
      ensures lastCameraYaw == old(lastCameraYaw) && lastCameraPitch == old(lastCameraPitch)
    {
      sent := [];
      var newDir := Clamp(angular * SteerGain);
      if Abs(newDir - lastDirAngle) > AngleDeadband {
        sent := [DirServo(newDir)];
        lastDirAngle := newDir;
      }
    }

    /** The pan block: only when a yaw was received, and always the first time. */
    method PanTo(request: Option<real>) returns (sent: seq<PxCall>)
      modifies this
      ensures var u := Track(request, old(lastCameraYaw));
        sent == Send(Pan, u) && lastCameraYaw == u.last
      ensures lastDirAngle == old(lastDirAngle) && lastCameraPitch == old(lastCameraPitch)
    {
      sent := [];
      if request.Some? {
        var yaw := Clamp(request.value);
        if lastCameraYaw.None? || Abs(yaw - lastCameraYaw.value) > AngleDeadband {
          sent := [CamPan(yaw)];
          lastCameraYaw := Some(yaw);
        }
      }
    }

    /** The tilt block: only when a pitch was received, and always the first time. */
    method TiltTo(request: Option<real>) returns (sent: seq<PxCall>)
      modifies this
      ensures var u := Track(request, old(lastCameraPitch));
        sent == Send(Tilt, u) && lastCameraPitch == u.last
      ensures lastDirAngle == old(lastDirAngle) && lastCameraYaw == old(lastCameraYaw)
    {
      sent := [];
      if request.Some? {
        var pitch := Clamp(request.value);
        if lastCameraPitch.None? || Abs(pitch - lastCameraPitch.value) > AngleDeadband {
          sent := [CamTilt(pitch)];
          lastCameraPitch := Some(pitch);
        }
      }
    }

    /** One iteration of the `while True` loop of control_listener. */
    method Step(e: Event, asFloat: seq<byte> -> real) returns (calls: seq<PxCall>)
      modifies this
      ensures Outcome(calls, Remembered()) == Next(old(Remembered()), e, asFloat)
    {
      if e.RecvTimeout? {
        return [Stop];
      }
      var data := e.data;
      if !ValidLength(|data|) {
        return [];
      }
      var cmd := Decode(data, asFloat).value;
      var steerCall := SteerTo(cmd.angular);
      var drive: PxCall;
      if Abs(cmd.linear) < LinearDeadband {
        drive := Stop;
      } else if cmd.linear > 0.0 {
        drive := Forward(DriveSpeed);
      } else {
        drive := Backward(DriveSpeed);
      }
      var panCall := PanTo(cmd.yaw);
      var tiltCall := TiltTo(cmd.pitch);
      calls := steerCall + [drive] + panCall + tiltCall;
      assert Decode(data, asFloat) == Ok(cmd);
      assert Outcome(calls, Remembered()) == Apply(old(Remembered()), cmd);
    }

    /** control_listener over a finite run of received events. */
    method Listen(events: seq<Event>, asFloat: seq<byte> -> real) returns (calls: seq<PxCall>)
      modifies this
      ensures Outcome(calls, Remembered()) == Run(old(Remembered()), events, asFloat)
    {
      calls := [];
      var i := 0;
      assert events[..0] == [];
      while i < |events|
        invariant 0 <= i <= |events|
        invariant Outcome(calls, Remembered()) == Run(old(Remembered()), events[..i], asFloat)
      {
        RunExtend(old(Remembered()), events, i, asFloat);
        var emitted := Step(events[i], asFloat);
        calls := calls + emitted;
        i := i + 1;
      }
      assert events[..i] == events;
    }
  }
}
