# PiCar-X command layer (aqx-bot)

This project models the command-handling layer of the aqx-bot robot processes in Dafny. That layer is the part that turns one received packet, or one receive timeout, into a short list of actuator or audio calls. Hardware, sockets and threads are not modelled. A call on the PiCar-X driver or on the sound/TTS library is a value, and a handler's behaviour is the sequence of calls it emits.

- `Picar` (picar.dfy) declares the driver calls (`PxCall`). It also gives an abstract pose semantics (`Effect`, `ApplyAll`): each call sets only the part of the robot's pose it names. The semantics is the independent reference that the supervisor's remembered angles are checked against.
- `Audio` (audio.dfy) declares the audio calls: speech, horn, sleep.
- `Control` (control.dfy) models the motion/camera supervisor of `test.py`, which is `control_listener` and `stop_all`.
  - Packets are checked for length (8, 12 or 16 bytes) and cut into 4-byte words.
  - Steering and camera angles are clamped to [-35, 35] and re-sent only past a 0.1 deadband.
  - The drive choice is stop, forward(20) or backward(20).
  - A receive timeout sends only a stop.
  - The supervisor is the class `Supervisor`, whose three fields are the globals `last_dir_angle`, `last_camera_yaw` and `last_camera_pitch`.
  - Its methods `Step` and `Listen` are proved against the pure step function `Next` and its run `Run`.
  - The properties are proved about `Next`, `Run` and the pose semantics.
- `TextCommand` (text_command.dfy) is the text classifier shared by the `socket_listener` of `test.py` and of `sound.py`.
  - It covers Python's `str.strip` over the `str.isspace` characters, `startswith("SAY:")`, `split(":", 1)` and the exact word `HORN`.
  - It also models the listener loop over datagrams, undecodable datagrams and timeouts.
- `SoundProcess` (sound_process.dfy) is the obstacle horn loop of `sound.py`: horn and 1 s wait below 20 cm, otherwise a 0.2 s wait. Its trace property is that two horns are always separated by at least one second of waiting. The module also models `sound.py`'s `stop_all`, which makes no actuator call.
- `MotionServer` (motion_server.dfy) is the JSON drive server of `motion_server.py`.
  - `drive_linear_angular` sets the steering unclamped, then makes one drive call by the sign of `linear`.
  - The per-message dispatch handles the optional `camera_angle`, and drives only when `linear` and `angular` are both present.
  - The receive loop ends at empty data or an error and stops the wheels exactly once on the way out.

Decoding a 4-byte word as an IEEE 754 binary32 number (section 3.4 of IEEE 754-2019) is represented by a parameter `asFloat: seq<byte> -> real`. It is the same for every word, so every property holds whatever that map is.

Two points where a reader might expect otherwise:

- **Shutdown keeps the remembered angles.** `test.py`'s `stop_all` sends stop, steering 0, pan 0 and tilt 0, but it does not reset the three remembered angles to (0, 0, 0). `Control.StopAll` is the four calls only.
- **Only timeouts are caught.** `control_listener` catches only the receive timeout. An actuator error is not caught there and is not turned into a skipped iteration.

## Model

| member | source | states |
|---|---|---|
| Control.Clamp | aqx-bot/test.py:129 | the result lies in [-35, 35], equals x inside that range, and is the nearer bound outside it |
| Control.Unpack | aqx-bot/test.py:124 | a payload of 4k bytes gives k values, value i being the word at bytes 4i..4i+4 |
| Control.Decode | aqx-bot/test.py:120-125 | succeeds iff the length is 8, 12 or 16, else reports that size; the command's fields are the unpacked values in order; yaw is present iff the packet has at least 12 bytes, pitch iff it has 16 |
| Control.DecodeFieldCount | aqx-bot/test.py:124-125 | a valid packet of n bytes carries exactly n/4 values, field k being word k |
| Control.Track | aqx-bot/test.py:141-151 | an absent request changes nothing; a present one is sent iff its clamped value moved past 0.1 or nothing was sent before; what is sent is the clamped value, and it is what is remembered |
| Control.DriveCall | aqx-bot/test.py:135-138 | stop iff -0.05 < linear < 0.05, forward iff linear >= 0.05, backward iff linear <= -0.05, and the speed is always 20 |
| Control.Apply | aqx-bot/test.py:128-151 | one decoded command makes one to four calls, exactly one of them a drive call, the one linear picks; no call other than drive, steering, pan and tilt, so never the camera servo; every steering, pan and tilt angle sent lies in [-35, 35]; an in-range memory stays in range |
| Control.ApplyCounts | aqx-bot/test.py:128-151 | each of steering, pan and tilt gets exactly one call when its update sends and none otherwise |
| Control.Next | aqx-bot/test.py:117-155 | one iteration sends only angles in [-35, 35], at most one drive call, and keeps every remembered angle in [-35, 35] |
| Control.BadSizeIgnored | aqx-bot/test.py:120-122 | a packet of any other size makes no call and leaves all three remembered angles unchanged |
| Control.TimeoutOnlyStops | aqx-bot/test.py:153-155 | a receive timeout makes exactly the one call stop and leaves the remembered angles unchanged |
| Control.OneDrivePerPacket | aqx-bot/test.py:124-138 | every valid packet makes exactly one drive call, chosen by its first word alone |
| Control.Run | aqx-bot/test.py:117-155 | over any run of events every servo angle sent lies in [-35, 35], there is at most one drive call per event, and an in-range memory stays in range |
| Control.SteeringRule | aqx-bot/test.py:129-132 | a steering call is sent, and the remembered steering becomes the clamped target, iff the target is more than 0.1 from the remembered angle; otherwise the remembered steering is unchanged; every steering call sent is the clamped target, and it comes first |
| Control.ZeroAngularFromStart | aqx-bot/test.py:31-33 | from start-up, a command with angular 0 sends no steering call and keeps the steering memory at 0 |
| Control.CameraRule | aqx-bot/test.py:141-151 | an absent yaw or pitch leaves its memory alone; the first present value is always sent clamped and remembered; later ones are sent only past the deadband; every pan or tilt call is the clamped request and was due; pan gets exactly one call iff a yaw is present and moved, tilt exactly one iff a pitch is present and moved |
| Control.SteeringHysteresis | aqx-bot/test.py:130-132 | two commands whose steering targets are within 0.1 of each other make at most one steering call between them |
| Control.ApplyPose | aqx-bot/test.py:128-151 | from any pose, after one decoded command the wheels are as its drive call sets them, steering, pan and tilt hold what their updates sent or what they held before, and the camera servo is untouched |
| Control.ApplyKeepsAgreement | aqx-bot/test.py:128-151 | if the robot's pose agrees with the memory before a decoded command's calls, it agrees with the new memory after them |
| Control.StepKeepsAgreement | aqx-bot/test.py:117-155 | every iteration keeps the memory equal to what the servos were last told; after a timeout the wheels are halted and nothing else moved; a packet of a bad size moves nothing; a valid packet leaves the wheels as its drive call sets them; no iteration moves the camera servo |
| Control.RunKeepsAgreement | aqx-bot/test.py:117-155 | over any run starting from an in-range memory that agrees with the pose, the memory stays in range and agrees with the pose, and the camera servo never moves |
| Control.StopAll | aqx-bot/test.py:37-42 | shutdown's first call is stop, and it is the only drive call |
| Control.StopAllNeutral | aqx-bot/test.py:37-42 | from any pose, shutdown's calls reach the neutral pose: halted, steering, pan and tilt at 0, the camera servo untouched |
| Control.Supervisor.constructor | aqx-bot/test.py:31-33 | the supervisor starts with steering 0 and neither camera angle sent |
| Control.Supervisor.SteerTo | aqx-bot/test.py:129-132 | the steering block sends and remembers exactly what the servo rule says, and leaves the camera memory alone |
| Control.Supervisor.PanTo | aqx-bot/test.py:141-145 | the pan block sends and remembers exactly what the servo rule says, and leaves the other memories alone |
| Control.Supervisor.TiltTo | aqx-bot/test.py:147-151 | the tilt block sends and remembers exactly what the servo rule says, and leaves the other memories alone |
| Control.Supervisor.Step | aqx-bot/test.py:117-155 | one loop iteration's calls and new fields are those of the step function for the old fields |
| Control.Supervisor.Listen | aqx-bot/test.py:117-155 | the loop over a run of events makes the calls, and ends with the fields, of the run function from the starting fields |
| TextCommand.StartsWith | aqx-bot/sound.py:53 | true iff the text is at least as long as the prefix and agrees with it position by position; the text is then the prefix followed by the rest |
| TextCommand.Strip | aqx-bot/test.py:71 | the result is a contiguous piece of the text, everything before and after it is whitespace, and it neither starts nor ends with whitespace |
| TextCommand.StripSurrounded | aqx-bot/sound.py:52 | stripping whitespace-surrounded text that has no whitespace at its ends gives that text back |
| TextCommand.StripIdempotent | aqx-bot/sound.py:52 | stripping twice is stripping once |
| TextCommand.SplitOnce | aqx-bot/sound.py:54 | two parts iff the separator occurs; the first part has no separator; joining the parts with the separator gives the text back |
| TextCommand.Classify | aqx-bot/test.py:71-75 | speech iff the stripped text starts with `SAY:`, the horn iff the stripped text is `HORN`, nothing otherwise; at most one action |
| TextCommand.SayPayload | aqx-bot/sound.py:52-55 | the speech is the stripped text minus its four-character `SAY:` prefix |
| TextCommand.SayKeepsColons | aqx-bot/sound.py:53-55 | speech keeps any later colons: surrounded `SAY:a:b` speaks `a:b` |
| TextCommand.HornSurrounded | aqx-bot/sound.py:52-57 | `HORN` with any whitespace around it sounds the horn |
| TextCommand.TrimmedOtherIgnored | aqx-bot/sound.py:53-57 | trimmed text that neither starts with `SAY:` nor is `HORN` asks for nothing |
| TextCommand.HornNearMissesIgnored | aqx-bot/sound.py:56-57 | `HORN!` and `horn` ask for nothing |
| TextCommand.Respond | aqx-bot/sound.py:50-61 | one event makes at most one call: the classified action of a decoded datagram, and nothing for undecodable data or a timeout |
| TextCommand.Responses | aqx-bot/sound.py:49-61 | a run of events makes no more calls than it has events |
| TextCommand.Handle | aqx-bot/test.py:69-79 | the body of one iteration emits exactly the response to its event |
| TextCommand.SocketListener | aqx-bot/test.py:68-79 | the listener loop emits the responses of its events in order, at most one per event |
| SoundProcess.ObstacleStep | aqx-bot/sound.py:72-76 | one horn iff the distance is strictly below 20; the iteration ends with a 1 s wait after a horn and a 0.2 s wait otherwise; a horn comes first and is followed at once by the 1 s wait; besides the horn there is exactly one call, and the iteration waits exactly 1 s or 0.2 s in all |
| SoundProcess.Trace | aqx-bot/sound.py:67-76 | over any readings: every call is a horn or a wait, one horn per reading below 20, one wait per reading, and in all 1 s of waiting per horn plus 0.2 s per other reading |
| SoundProcess.Monitor | aqx-bot/sound.py:67-76 | the loop's calls are the trace of its readings; the number of horns is the number of readings below 20; every horn is followed at once by the 1 s wait |
| SoundProcess.TraceWellSpaced | aqx-bot/sound.py:67-76 | in the trace of any readings every horn is followed at once by the 1 s wait, and every wait is 1 s or 0.2 s |
| SoundProcess.HornSpacing | aqx-bot/sound.py:72-76 | in a well-spaced trace, the waits between any two horns add up to at least 1 s |
| SoundProcess.MonitorHornSpacing | aqx-bot/sound.py:67-76 | for any readings, the loop waits at least 1 s between any two horns |
| SoundProcess.StopAll | aqx-bot/sound.py:31-32 | the sound process's shutdown leaves every pose as it was: no actuator call |
| MotionServer.DriveLinearAngular | aqx-bot/motion_server.py:16-23 | steering to `angular` unmodified comes first, then exactly one drive call: forward iff linear > 0, backward iff linear < 0, stop iff linear = 0; a moving speed is positive and equals the magnitude of linear |
| MotionServer.DriveLinearAngularPose | aqx-bot/motion_server.py:16-23 | afterwards the steering is `angular`, the wheels follow the sign and magnitude of linear, and the camera servos are untouched |
| MotionServer.Dispatch | aqx-bot/motion_server.py:31-34 | a camera angle is applied first when present and never otherwise; without both linear and angular only the camera may move; with both, the message ends with the drive calls; one call for the camera angle and two for drive_linear_angular, and no others |
| MotionServer.DispatchPose | aqx-bot/motion_server.py:31-34 | after a message the camera servo is at `camera_angle` when present and untouched otherwise; steering and wheels follow drive_linear_angular when linear and angular are both present and are untouched otherwise; pan and tilt are untouched |
| MotionServer.Serve | aqx-bot/motion_server.py:25-39 | over any run of receives, an exit always ends with a stop, and a run that has not exited consists only of messages |
| MotionServer.ExitStopsOnce | aqx-bot/motion_server.py:25-38 | at the first empty or failed receive the loop exits, after dispatching every earlier message in order, and then stops the wheels exactly once |
| MotionServer.NoExitWhileMessages | aqx-bot/motion_server.py:26-34 | while every receive is a message the loop has not exited and makes no stop of its own |
| MotionServer.ExitsIffTerminated | aqx-bot/motion_server.py:26-36 | the loop exits iff some receive is empty or fails |
| MotionServer.ServeLoop | aqx-bot/motion_server.py:25-39 | the loop's calls and exit are those of the server function, and an exit always ends with a stop |

## Left out

- Sockets are not modelled: binding, `recvfrom`/`recv` and their timeouts, `sendto`, `conn.close`. A receive is an event value and a timeout is an event, not elapsed time.
- Threads, signal handlers and `sys.exit` are not modelled. In particular, nothing keeps the neutral reset to a single run when the signal handler fires more than once. All of these are concurrency and process control.
- Control.Decode: the map from a 4-byte word to a number is the parameter `asFloat`, because IEEE 754 binary32 decoding is outside the model. NaN and infinities are not represented, so comparisons and clamping behave as they do on real numbers. The same goes for `angular * 10`, the angle differences and the constants 0.1 and 0.05: they are exact reals here, not binary64. A value lying exactly on the 0.1 or 0.05 boundary in real arithmetic can therefore fall on the other side of the deadband than it does in the source.
- SoundProcess.Monitor: the distance it takes is the value after `round(..., 2)`. The rounding and the ultrasonic read are outside the model.
- MotionServer.Dispatch: `json.loads` is replaced by a record of optional numeric fields. A field holding a non-number makes the source raise part-way through a message, and the calls already made before that are not modelled. Text that does not parse is a `Failure` receive.
- TextCommand.Respond: UTF-8 decoding is not modelled. A datagram that does not decode is the event `Undecodable`, which the source logs and which makes no call.
- Exceptions raised by the driver or audio library are not modelled, so there is no crash of `control_listener` and no error exit of the motion server from inside a call.
- Logging output (`print`) is not modelled.
- Not part of this model: the telemetry loop `sensor_stream` of `test.py`, `sensor_streamer.py`, `mpu_streamer.py`, `video_streamer.py` and `bot.py`. They are sensor reads with fixed dummy values, serialisation, camera capture, network sends and process launching, with no command decision.
- Not part of this model: the internals of Picarx, Music and TTS. They are foreign hardware and audio libraries, and their calls are emitted values.
