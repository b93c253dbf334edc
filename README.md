# CobraFlex remote control: command encoder and keyboard controller

This project models the part of the CobraFlex teleoperation client that turns an
operator intent into a robot command:

- `CobraFlex` (cobraflex_client.dfy) models the client object `CobraFlexClient`. It maps
  one of nine moving directions and the current speed level to a left/right wheel pair.
  A diagonal runs its inner side at `s - s/3`. The pair is rendered into the four-wheel
  `T:11` command: M1 and M4 get the left speed, M2 and M3 the right. The client clamps the
  speed level (negative becomes 0) and both light levels (to [0, 255]). Every LED request
  posts one combined `T:132` command that carries both lights. A gimbal step forwards its
  deltas unchanged. Sending to the robot is replaced by appending a `Post(path, body)` to
  the client's `outbox`.
- `WireCommands` (wire_commands.dfy) gives the exact command texts the client builds by
  string concatenation. Lemmas state each text outright, with every label followed by the
  value of its own field. A decoder (`Parse`) satisfies `Parse(Render(c)) == Some(c)`, so
  `Render` is injective: distinct commands never share a text.
- `JavaInt` (java_int.dfy) models Java's 32-bit `int` and the decimal text that Java's
  string concatenation produces for it. It also gives a reader for that text and the
  round trip between the two.
- `Keyboard` (keyboard_controller.dfy) models `KeyboardController`. It is a class with the
  `optionKeyPressed` flag and a log of the intents it sends. Pure functions (`Response`,
  `NextFlag`, and the session folds `FlagAfter` and `SentBy`) describe the same behaviour
  over whole sequences of key events; `Session` proves that delivering a sequence of
  events to the class yields exactly the flag and the log the folds give.
- `SpeedLevels` (speed_level.dfy) models the preset table `SpeedLevel.getSpeed`.

Conventions:

- Java's `int` is `JavaInt.Int32`.
- The client's speed level is a non-negative `Int32`, which is the client's object
  invariant `Valid()`. So `-speedLevel` and `speedLevel - speedLevel / 3` never overflow,
  and Java's truncating `/` agrees with Dafny's `/`.
- `getSpeed` returns `double` in the source. It is modelled as `int`, since all of its
  constants are whole numbers.

## Notes on the code

- The client keeps no gimbal angle with bounds, and has no 2° steps or saturation.
  `gimbal_step` only forwards its deltas to the `/gimbal/step` endpoint
  (CobraFlexClient.java:123-126). `actPan` and `actTilt` are plain fields with setters.
- The client has no speed ramp and no maximum speed level. The speed level is bounded only
  by Java's `int`.
- The drive command's M1 is the left front wheel, M2 the right front, M3 the right rear
  and M4 the left rear (CobraFlexClient.java:54-57, 111).
- The inner side of a diagonal runs at `s - s / 3` (CobraFlexClient.java:74).
- The client builds only three command texts: drive (`T:11`), LED (`T:132`) and gimbal
  step. It builds no gimbal-absolute, gimbal-stop or feedback-query text.

The keyboard controller calls client methods that the client does not define
(`turn_pan_tilt_led`, `cmd_gimbal_ctrl_stop`). It also treats `gimbal_step` and
`cmd_speed_control` as if they returned the command text. The model records each of these
calls as an abstract `Intent`.

## Model

| member | source | states |
|---|---|---|
| JavaInt.NatToString | src/main/java/org/example/cobraflex/clients/CobraFlexClient.java:111 | the printed form of a natural is a non-empty run of digits, one digit exactly below 10, no leading zero |
| JavaInt.IntToString | src/main/java/org/example/cobraflex/clients/CobraFlexClient.java:111 | an int prints as number characters, starting with '-' exactly when it is negative |
| JavaInt.NatRoundTrip | src/main/java/org/example/cobraflex/clients/CobraFlexClient.java:111 | the digits of a natural read back as that natural |
| JavaInt.IntRoundTrip | src/main/java/org/example/cobraflex/clients/CobraFlexClient.java:111 | the printed form of every integer reads back as that integer |
| JavaInt.IntToStringInjective | src/main/java/org/example/cobraflex/clients/CobraFlexClient.java:111 | two integers print the same only if they are equal |
| WireCommands.Scan | src/main/java/org/example/cobraflex/clients/CobraFlexClient.java:111 | a text that matches a piece list yields one integer per gap between pieces |
| WireCommands.ScanCons | src/main/java/org/example/cobraflex/clients/CobraFlexClient.java:111 | after a piece, the printed number is read exactly up to the next piece, which cannot start with a number character |
| WireCommands.ScanFill | src/main/java/org/example/cobraflex/clients/CobraFlexClient.java:111 | scanning a text built from well-separated pieces and values gives back exactly those values, in order |
| WireCommands.Fill | src/main/java/org/example/cobraflex/clients/CobraFlexClient.java:111 | a text built by concatenation starts with its first literal piece |
| WireCommands.Render | src/main/java/org/example/cobraflex/clients/CobraFlexClient.java:111-158 | every command text opens a JSON object; its exact texts are the three rows below |
| WireCommands.DriveCommandText | src/main/java/org/example/cobraflex/clients/CobraFlexClient.java:111 | the drive text is `{"T":11,"M1":` m1 `,"M2":` m2 `,"M3":` m3 `,"M4":` m4 `}`, each label followed by its own field |
| WireCommands.LedCommandText | src/main/java/org/example/cobraflex/clients/CobraFlexClient.java:141 | the LED text is `{"T":132, "IO1":` io1 `,"IO2": ` io2 `}`, spaces included |
| WireCommands.GimbalStepCommandText | src/main/java/org/example/cobraflex/clients/CobraFlexClient.java:124 | the gimbal step text is `{"pan":` pan `,"tilt":` tilt `}` |
| WireCommands.RenderRoundTrip | src/main/java/org/example/cobraflex/clients/CobraFlexClient.java:111-158 | the drive, LED and gimbal-step texts each decode to the command they were built from |
| WireCommands.RenderInjective | src/main/java/org/example/cobraflex/clients/CobraFlexClient.java:111-158 | distinct commands have distinct texts |
| SpeedLevels.Ordinal | src/main/java/org/example/cobraflex/clients/SpeedLevel.java:3-7 | LEVEL_ONE to LEVEL_FOUR take the positions 0 to 3 in declaration order, each position exactly one level |
| SpeedLevels.OrdinalInjective | src/main/java/org/example/cobraflex/clients/SpeedLevel.java:3-7 | distinct levels have distinct positions |
| SpeedLevels.GetSpeed | src/main/java/org/example/cobraflex/clients/SpeedLevel.java:10-24 | every level has a positive speed between 200 and 1800 and a multiple of 200, so the fall-through 0 is unreachable |
| SpeedLevels.SpeedTable | src/main/java/org/example/cobraflex/clients/SpeedLevel.java:10-23 | LEVEL_ONE 200, LEVEL_TWO 600, LEVEL_THREE 1200, LEVEL_FOUR 1800 |
| SpeedLevels.SpeedStrictlyIncreasing | src/main/java/org/example/cobraflex/clients/SpeedLevel.java:3-23 | a level is declared later if and only if its speed is higher |
| SpeedLevels.SpeedInjective | src/main/java/org/example/cobraflex/clients/SpeedLevel.java:10-23 | distinct levels have distinct speeds |
| CobraFlex.ClampSpeed | src/main/java/org/example/cobraflex/clients/CobraFlexClient.java:44-49 | the stored level is non-negative, at least the requested one, and either 0 or the requested one |
| CobraFlex.ClampSpeedIdempotent | src/main/java/org/example/cobraflex/clients/CobraFlexClient.java:44-49 | storing a stored level again changes nothing |
| CobraFlex.ClampBrightness | src/main/java/org/example/cobraflex/clients/CobraFlexClient.java:133-137 | the stored brightness lies in [0, 255] and is the value of that range nearest to the request |
| CobraFlex.ClampBrightnessIdempotent | src/main/java/org/example/cobraflex/clients/CobraFlexClient.java:133-137 | clamping a clamped brightness changes nothing |
| CobraFlex.ReducedSpeed | src/main/java/org/example/cobraflex/clients/CobraFlexClient.java:74 | the reduced speed lies in [0, s], is two thirds of s rounded up, and is positive when s is |
| CobraFlex.WheelPair | src/main/java/org/example/cobraflex/clients/CobraFlexClient.java:72-110 | both wheel speeds are at most s in magnitude; STOP gives (0, 0); at a positive level every other direction drives both sides |
| CobraFlex.KinematicTable | src/main/java/org/example/cobraflex/clients/CobraFlexClient.java:76-109 | NORTH (s, s), EAST (s, -s), WEST (-s, s), SOUTH (-s, -s), STOP (0, 0) |
| CobraFlex.DiagonalTable | src/main/java/org/example/cobraflex/clients/CobraFlexClient.java:80-107 | with r the reduced speed: NORTHEAST (s, r), SOUTHEAST (-s, -r), SOUTHWEST (-r, -s), NORTHWEST (r, s) |
| CobraFlex.DiagonalSides | src/main/java/org/example/cobraflex/clients/CobraFlexClient.java:76-107 | northern diagonals drive both sides forward and southern ones backward; the outer side (left for the eastern diagonals, right for the western) runs at s and the inner side at the reduced speed; the other moving directions run both sides at s |
| CobraFlex.ReverseNegates | src/main/java/org/example/cobraflex/clients/CobraFlexClient.java:76-109 | SOUTH = -NORTH, SOUTHEAST = -NORTHEAST, SOUTHWEST = -NORTHWEST, WEST = -EAST, and conversely |
| CobraFlex.MirrorSwaps | src/main/java/org/example/cobraflex/clients/CobraFlexClient.java:76-109 | NORTHWEST is NORTHEAST with sides swapped, SOUTHWEST is SOUTHEAST swapped, WEST is EAST swapped; NORTH and SOUTH are symmetric |
| CobraFlex.DriveCommand | src/main/java/org/example/cobraflex/clients/CobraFlexClient.java:111 | the drive command gives M1 and M4 (left front, left rear) the left speed and M2 and M3 (right front, right rear) the right speed |
| CobraFlex.DriveTextFields | src/main/java/org/example/cobraflex/clients/CobraFlexClient.java:111 | the drive text has the left speed after M1 and M4 and the right speed after M2 and M3, in the order M1, M2, M3, M4, and decodes back to that command |
| CobraFlex.StopText | src/main/java/org/example/cobraflex/clients/CobraFlexClient.java:72-111 | the STOP text is the all-zero drive command at every speed level |
| CobraFlex.CobraFlexClient.LedText | src/main/java/org/example/cobraflex/clients/CobraFlexClient.java:141 | the LED text carries the current chassis light after IO1 and the current gimbal light after IO2 |
| CobraFlex.CobraFlexClient.constructor | src/main/java/org/example/cobraflex/clients/CobraFlexClient.java:21-42 | a fresh client has speed level 600, pan and tilt 0, both lights 0 and nothing posted |
| CobraFlex.CobraFlexClient.SetSpeedLevel | src/main/java/org/example/cobraflex/clients/CobraFlexClient.java:44-49 | stores the clamped level, changes nothing else and keeps the invariant |
| CobraFlex.CobraFlexClient.SetActPan | src/main/java/org/example/cobraflex/clients/CobraFlexClient.java:26-28 | stores pan and changes nothing else |
| CobraFlex.CobraFlexClient.SetActTilt | src/main/java/org/example/cobraflex/clients/CobraFlexClient.java:29-31 | stores tilt and changes nothing else |
| CobraFlex.CobraFlexClient.CmdSpeedControl | src/main/java/org/example/cobraflex/clients/CobraFlexClient.java:71-113 | posts to the command path exactly the drive text for the direction at the current level; no field but the outbox changes |
| CobraFlex.CobraFlexClient.GimbalStep | src/main/java/org/example/cobraflex/clients/CobraFlexClient.java:123-126 | posts to the gimbal step path the text with the deltas copied verbatim; no field but the outbox changes |
| CobraFlex.CobraFlexClient.CtrlChassisLed | src/main/java/org/example/cobraflex/clients/CobraFlexClient.java:132-143 | stores the clamped chassis light, leaves the gimbal light, and posts the LED text with both current lights |
| CobraFlex.CobraFlexClient.CtrlGimbalLed | src/main/java/org/example/cobraflex/clients/CobraFlexClient.java:149-160 | stores the clamped gimbal light, leaves the chassis light, and posts the LED text with both current lights |
| CobraFlex.RepeatedLedRequest | src/main/java/org/example/cobraflex/clients/CobraFlexClient.java:132-160 | after repeating an LED request, the chosen light is the clamped request and the other is unchanged; earlier posts are kept, and both new posts are the same LED text for the current lights |
| Keyboard.Response | src/main/java/org/example/cobraflex/KeyboardController.java:33-83 | a key press sends at most two intents, each a sendable one (drives only WEST/NORTH/SOUTH/EAST/STOP, gimbal steps of one unit) |
| Keyboard.Output | src/main/java/org/example/cobraflex/KeyboardController.java:32-90 | a release sends nothing; a press sends at most two sendable intents |
| Keyboard.NextFlag | src/main/java/org/example/cobraflex/KeyboardController.java:32-90 | pressing SHIFT sets the flag, releasing SHIFT clears it, every other press or release leaves it |
| Keyboard.StepKeysWithShift | src/main/java/org/example/cobraflex/KeyboardController.java:35-70 | with the flag set, H/J/K/L each send exactly one unit gimbal step: (-1,0), (0,1), (0,-1), (1,0) |
| Keyboard.StepKeysWithoutShift | src/main/java/org/example/cobraflex/KeyboardController.java:35-70 | with the flag clear, H/J/K/L each send exactly one drive: WEST, NORTH, SOUTH, EAST |
| Keyboard.FlagIndependentKeys | src/main/java/org/example/cobraflex/KeyboardController.java:71-80 | whatever the flag, SPACE sends chassis STOP then gimbal stop, and A sends one pan-tilt LED request |
| Keyboard.SilentKeys | src/main/java/org/example/cobraflex/KeyboardController.java:33-83 | a press sends nothing exactly for SHIFT and for keys the controller does not handle |
| Keyboard.FlagAfterSnoc | src/main/java/org/example/cobraflex/KeyboardController.java:32-90 | the flag after a session extended by one event is that event's update of the flag before it |
| Keyboard.FlagIsLastShift | src/main/java/org/example/cobraflex/KeyboardController.java:32-90 | after any session the flag is set exactly when its last SHIFT event was a press (or, with none, when it started set) |
| Keyboard.SessionSendsBoundedIntents | src/main/java/org/example/cobraflex/KeyboardController.java:32-84 | a session sends at most two intents per event, drives only WEST/NORTH/SOUTH/EAST/STOP and gimbal steps only of one unit |
| Keyboard.KeyboardController.constructor | src/main/java/org/example/cobraflex/KeyboardController.java:25-30 | the flag starts clear and nothing has been sent |
| Keyboard.KeyboardController.KeyPressed | src/main/java/org/example/cobraflex/KeyboardController.java:32-84 | SHIFT sets the flag, other keys keep it; exactly the key's intents for the flag before the press are appended |
| Keyboard.SentBySnoc | src/main/java/org/example/cobraflex/KeyboardController.java:32-90 | what a session extended by one event sends is what the session sent, followed by that event's output for the flag the session left |
| Keyboard.KeyboardController.Deliver | src/main/java/org/example/cobraflex/KeyboardController.java:32-90 | handing one event to its key handler updates the flag as NextFlag says and appends exactly that event's Output |
| Keyboard.Session | src/main/java/org/example/cobraflex/KeyboardController.java:32-90 | delivering any sequence of presses and releases sets the flag to the session fold's flag and appends exactly the intents the session sends |
| Keyboard.KeyboardController.KeyReleased | src/main/java/org/example/cobraflex/KeyboardController.java:86-90 | releasing SHIFT clears the flag, other releases keep it; nothing is sent |

## Left out

- Transport: `JetsonOrinNanoClient` and `ESP32S3Client` (HTTP, pooling, timeouts, status handling, JSON parsing) are not part of this model. A post is an appended `Post(path, body)`; the keyboard's `esp32.get` is an appended intent.
- `get_feedback`, `gimbal_middle_pos` and `switch_gimbal_camera` are one-line forwarders to the transport, or store a value taken from a remote response. They are not modelled.
- The Lombok getters (`getSpeedLevel`, `getActPan`, `getActTilt`, `getDEFAULT_SPEED`) are plain field reads.
- The client's `jetson` field is a transport handle, and so is the keyboard's `esp32` field; neither is modelled. The keyboard's `cobraflex` field is the client itself; the keyboard model records its calls to it as opaque intents (see the `Intent` line).
- The log line that `keyPressed` writes for an unhandled key is not modelled; such a key sends nothing.
- Keyboard intents `GimbalStop`, `PanTiltLed`, `SpeedControl` and `GimbalStep`: these are opaque. The methods the controller calls for the first two are not defined in the client. The controller also uses the other two as text-returning, which the client's `void` methods are not. So no wire text is attached to any intent.
- `Keyboard.Key`: JavaFX key codes other than SHIFT, H, J, K, L, A and SPACE are collapsed into `Other(code)`.
- The JavaFX controllers (`RcController`, `UiController`), their timer-based repeaters, the bootstrap classes and the floating-point voltage display are not part of this model.
- `MovingDirection` is defined here as a datatype with one constant per case of the switch at CobraFlexClient.java:75-110; the enum's own file is not part of this model.
- Gimbal angle bounds, 2° steps, saturation, speed ramps and per-axis repeaters do not occur in the modelled code, so nothing models them.
