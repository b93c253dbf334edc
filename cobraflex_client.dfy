/** The robot client: the drive kinematics for the nine moving directions,
    the clamping of speed and brightness, and the client object that keeps
    the last speed level and light levels it has set and posts one command
    text per request. Posting is appending to an outbox. */
module CobraFlex {
  import opened JavaInt
  import WireCommands

  const CMD_PATH: string := "/cobraflex/cmd"
  const GIMBAL_STEP_PATH: string := "/gimbal/step"

  const DEFAULT_SPEED: int := 600
  const MAX_BRIGHTNESS: int := 255

  datatype MovingDirection =
    NORTH | NORTHEAST | EAST | SOUTHEAST | SOUTH | SOUTHWEST | WEST | NORTHWEST | STOP

  /** A speed level the client can hold: a non-negative Java int. */
  type SpeedValue = x: int | 0 <= x <= INT32_MAX

  /** The speeds of the left side and of the right side of the chassis. */
  datatype Wheels = Wheels(left: int, right: int)

  /** One request handed to the transport. */
  datatype Post = Post(path: string, body: string)

  function Abs(x: int): nat {
    if x < 0 then -x else x
  }

  function Distance(x: int, y: int): nat {
    Abs(x - y)
  }

  /** The value `setSpeedLevel` stores: the smallest non-negative value
      that is at least the requested one. */
  function ClampSpeed(level: Int32): (s: SpeedValue)
    ensures level <= s
    ensures s == 0 || s == level
  {
    if level < 0 then 0 else level
  }

  /** The brightness an LED request stores: the value of [0, 255]
      closest to the requested one. */
  function ClampBrightness(brightness: Int32): (b: int)
    ensures 0 <= b <= MAX_BRIGHTNESS
    ensures forall v :: 0 <= v <= MAX_BRIGHTNESS ==> Distance(b, brightness) <= Distance(v, brightness)
  {
    if brightness < 0 then 0 else if brightness > MAX_BRIGHTNESS then MAX_BRIGHTNESS else brightness
  }

  /** The inner-side speed of a diagonal: `s - s / 3` with Java's integer
      division (which agrees with Dafny's on non-negative values), that is
      two thirds of `s` rounded up. */
  function ReducedSpeed(s: SpeedValue): (r: SpeedValue)
    ensures r <= s
    ensures 2 * s <= 3 * r <= 2 * s + 2
    ensures 0 < s ==> 0 < r
  {
    s - s / 3
  }

  /** The left/right wheel speeds for a direction at speed level `s`. */
  function WheelPair(direction: MovingDirection, speed: SpeedValue): (w: Wheels)
    ensures Abs(w.left) <= speed && Abs(w.right) <= speed
    ensures direction == STOP ==> w == Wheels(0, 0)
    ensures 0 < speed && direction != STOP ==> w.left != 0 && w.right != 0
  {
    var s: int := speed;
    var reduced: int := ReducedSpeed(speed);
    match direction
    case NORTH => Wheels(s, s)
    case NORTHEAST => Wheels(s, reduced)
    case EAST => Wheels(s, -s)
    case SOUTHEAST => Wheels(-s, -reduced)
    case SOUTH => Wheels(-s, -s)
    case SOUTHWEST => Wheels(-reduced, -s)
    case WEST => Wheels(-s, s)
    case NORTHWEST => Wheels(reduced, s)
    case STOP => Wheels(0, 0)
  }

  /** The four-wheel drive command: M1 (left front) and M4 (left rear)
      take the left speed, M2 (right front) and M3 (right rear) the right. */
  function DriveCommand(w: Wheels): (c: WireCommands.Command)
    ensures c.Drive?
    ensures c.m1 == c.m4 == w.left
    ensures c.m2 == c.m3 == w.right
  {
    WireCommands.Drive(w.left, w.right, w.right, w.left)
  }

  function Negate(w: Wheels): Wheels {
    Wheels(-w.left, -w.right)
  }

  function Swap(w: Wheels): Wheels {
    Wheels(w.right, w.left)
  }

  /** Driving backwards: north and south exchange, and so do the diagonal
      pairs NORTHEAST/SOUTHEAST and NORTHWEST/SOUTHWEST; EAST and WEST
      (turning on the spot) exchange as well. */
  function Reverse(d: MovingDirection): (r: MovingDirection)
    ensures (r == STOP) == (d == STOP)
  {
    match d
    case NORTH => SOUTH
    case NORTHEAST => SOUTHEAST
    case EAST => WEST
    case SOUTHEAST => NORTHEAST
    case SOUTH => NORTH
    case SOUTHWEST => NORTHWEST
    case WEST => EAST
    case NORTHWEST => SOUTHWEST
    case STOP => STOP
  }

  /** The left/right mirror image of a direction. */
  function Mirror(d: MovingDirection): (r: MovingDirection)
    ensures (r == STOP) == (d == STOP)
  {
    match d
    case NORTH => NORTH
    case NORTHEAST => NORTHWEST
    case EAST => WEST
    case SOUTHEAST => SOUTHWEST
    case SOUTH => SOUTH
    case SOUTHWEST => SOUTHEAST
    case WEST => EAST
    case NORTHWEST => NORTHEAST
    case STOP => STOP
  }

  predicate IsDiagonal(d: MovingDirection) {
    d == NORTHEAST || d == SOUTHEAST || d == SOUTHWEST || d == NORTHWEST
  }

  /** The straight moves, the turns on the spot and the stop. */
  lemma KinematicTable(s: int)
    requires 0 <= s <= INT32_MAX
    ensures WheelPair(NORTH, s) == Wheels(s, s)
    ensures WheelPair(EAST, s) == Wheels(s, -s)
    ensures WheelPair(WEST, s) == Wheels(-s, s)
    ensures WheelPair(SOUTH, s) == Wheels(-s, -s)
    ensures WheelPair(STOP, s) == Wheels(0, 0)
  {
  }

  /** The four diagonals, with `r` the reduced speed. */
  lemma DiagonalTable(s: int)
    requires 0 <= s <= INT32_MAX
    ensures var r := ReducedSpeed(s) as int;
      WheelPair(NORTHEAST, s) == Wheels(s, r) &&
      WheelPair(SOUTHEAST, s) == Wheels(-s, -r) &&
      WheelPair(SOUTHWEST, s) == Wheels(-r, -s) &&
      WheelPair(NORTHWEST, s) == Wheels(r, s)
  {
  }

  /** A diagonal drives both sides the same way: forwards for NORTHEAST and
      NORTHWEST, backwards for SOUTHEAST and SOUTHWEST. The outer side runs
      at the full speed and the inner side at the reduced speed; the outer
      side is the left one for the eastern diagonals and the right one for
      the western diagonals. Every other moving direction runs both sides
      at full speed. */
  lemma DiagonalSides(d: MovingDirection, s: SpeedValue)
    requires d != STOP
    ensures var w := WheelPair(d, s);
      if IsDiagonal(d) then
        (d == NORTHEAST || d == NORTHWEST ==> 0 <= w.left && 0 <= w.right) &&
        (d == SOUTHEAST || d == SOUTHWEST ==> w.left <= 0 && w.right <= 0) &&
        (d == NORTHEAST || d == SOUTHEAST ==> Abs(w.left) == s && Abs(w.right) == ReducedSpeed(s)) &&
        (d == NORTHWEST || d == SOUTHWEST ==> Abs(w.left) == ReducedSpeed(s) && Abs(w.right) == s)
      else
        Abs(w.left) == s && Abs(w.right) == s
  {
    var r := ReducedSpeed(s);
    assert 0 <= r <= s;
    match d
    case NORTH =>
    case NORTHEAST =>
    case EAST =>
    case SOUTHEAST =>
    case SOUTH =>
    case SOUTHWEST =>
    case WEST =>
    case NORTHWEST =>
  }

  /** Reversing a direction negates both sides: SOUTH = -NORTH,
      SOUTHEAST = -NORTHEAST, SOUTHWEST = -NORTHWEST, WEST = -EAST. */
  lemma ReverseNegates(d: MovingDirection, s: SpeedValue)
    ensures WheelPair(Reverse(d), s) == Negate(WheelPair(d, s))
  {
    match d
    case NORTH =>
    case NORTHEAST =>
    case EAST =>
    case SOUTHEAST =>
    case SOUTH =>
    case SOUTHWEST =>
    case WEST =>
    case NORTHWEST =>
    case STOP =>
  }

  /** Mirroring a direction swaps the sides: NORTHWEST is NORTHEAST with
      left and right exchanged, WEST is EAST exchanged. */
  lemma MirrorSwaps(d: MovingDirection, s: SpeedValue)
    ensures WheelPair(Mirror(d), s) == Swap(WheelPair(d, s))
  {
  }

  /** The text of a drive command carries the left speed after the labels
      M1 and M4 and the right speed after M2 and M3, in the order M1, M2,
      M3, M4; and the text decodes back to that command. */
  lemma DriveTextFields(w: Wheels)
    ensures WireCommands.Render(DriveCommand(w)) ==
      "{\"T\":11,\"M1\":" + IntToString(w.left) + (",\"M2\":" + IntToString(w.right)
      + (",\"M3\":" + IntToString(w.right) + (",\"M4\":" + IntToString(w.left) + "}")))
    ensures WireCommands.Parse(WireCommands.Render(DriveCommand(w)))
         == Some(WireCommands.Drive(w.left, w.right, w.right, w.left))
  {
    WireCommands.DriveCommandText(w.left, w.right, w.right, w.left);
    WireCommands.RenderRoundTrip(DriveCommand(w));
  }

  /** A stop is the all-zero drive command, whatever the speed level. */
  lemma StopText(s: SpeedValue)
    ensures WireCommands.Render(DriveCommand(WheelPair(STOP, s)))
         == "{\"T\":11,\"M1\":0,\"M2\":0,\"M3\":0,\"M4\":0}"
  {
  }

  /** Storing a stored speed level again changes nothing. */
  lemma ClampSpeedIdempotent(level: Int32)
    ensures ClampSpeed(ClampSpeed(level)) == ClampSpeed(level)
  {
  }

  /** Storing a stored brightness again changes nothing. */
  lemma ClampBrightnessIdempotent(brightness: Int32)
    ensures ClampBrightness(ClampBrightness(brightness)) == ClampBrightness(brightness)
  {
  }

  class CobraFlexClient {
    var speedLevel: Int32
    var actPan: Int32
    var actTilt: Int32
    var actualChassisLight: Int32
    var actualGimbalLight: Int32
    /** The requests posted so far, oldest first. */
    var outbox: seq<Post>

    /** The speed level is never negative and both lights are in [0, 255]. */
    ghost predicate Valid()
      reads this
    {
      0 <= speedLevel &&
      0 <= actualChassisLight <= MAX_BRIGHTNESS &&
      0 <= actualGimbalLight <= MAX_BRIGHTNESS
    }

    /** The text of the LED command for the current lights: the chassis
        light after IO1, the gimbal light after IO2. */
    function LedText(): (s: string)
      reads this
      ensures s == "{\"T\":132, \"IO1\":" + IntToString(actualChassisLight)
        + ",\"IO2\": " + IntToString(actualGimbalLight) + "}"
    {
      WireCommands.LedCommandText(actualChassisLight, actualGimbalLight);
      WireCommands.Render(WireCommands.Led(actualChassisLight, actualGimbalLight))
    }

    constructor ()
      ensures Valid()
      ensures speedLevel == DEFAULT_SPEED
      ensures actPan == 0 && actTilt == 0
      ensures actualChassisLight == 0 && actualGimbalLight == 0
      ensures outbox == []
    {
      speedLevel := DEFAULT_SPEED;
      actPan := 0;
      actTilt := 0;
      actualChassisLight := 0;
      actualGimbalLight := 0;
      outbox := [];
    }

    method SetSpeedLevel(level: Int32)
      requires Valid()
      modifies this`speedLevel
      ensures Valid()
      ensures speedLevel == ClampSpeed(level)
    {
      var stored := level;
      if stored < 0 {
        stored := 0;
      }
      speedLevel := stored;
    }

    method SetActPan(pan: Int32)
      requires Valid()
      modifies this`actPan
      ensures Valid()
      ensures actPan == pan
    {
      actPan := pan;
    }

    method SetActTilt(tilt: Int32)
      requires Valid()
      modifies this`actTilt
      ensures Valid()
      ensures actTilt == tilt
    {
      actTilt := tilt;
    }

    /** Posts the drive command for `direction` at the current speed level. */
    method CmdSpeedControl(direction: MovingDirection)
      requires Valid()
      modifies this`outbox
      ensures Valid()
      ensures outbox == old(outbox)
        + [Post(CMD_PATH, WireCommands.Render(DriveCommand(WheelPair(direction, speedLevel))))]
    {
      var wheels := WheelPair(direction, speedLevel);
      var cmd := WireCommands.Render(DriveCommand(wheels));
      outbox := outbox + [Post(CMD_PATH, cmd)];
    }

    /** Forwards the pan and tilt deltas unchanged to the gimbal step
        endpoint; no field of the client changes. */
    method GimbalStep(deltaPan: Int32, deltaTilt: Int32)
      requires Valid()
      modifies this`outbox
      ensures Valid()
      ensures outbox == old(outbox)
        + [Post(GIMBAL_STEP_PATH, WireCommands.Render(WireCommands.GimbalStep(deltaPan, deltaTilt)))]
    {
      var cmd := WireCommands.Render(WireCommands.GimbalStep(deltaPan, deltaTilt));
      outbox := outbox + [Post(GIMBAL_STEP_PATH, cmd)];
    }

    /** Sets the chassis light (clamped) and posts the LED command with both lights. */
    method CtrlChassisLed(brightness: Int32)
      requires Valid()
      modifies this`actualChassisLight, this`outbox
      ensures Valid()
      ensures actualChassisLight == ClampBrightness(brightness)
      ensures actualGimbalLight == old(actualGimbalLight)
      ensures outbox == old(outbox) + [Post(CMD_PATH, LedText())]
    {
      var b := brightness;
      if b < 0 {
        b := 0;
      } else if b > MAX_BRIGHTNESS {
        b := MAX_BRIGHTNESS;
      }
      if b != actualChassisLight {
        actualChassisLight := b;
      }
      var cmd := LedText();
      outbox := outbox + [Post(CMD_PATH, cmd)];
    }

    /** Sets the gimbal light (clamped) and posts the LED command with both lights. */
    method CtrlGimbalLed(brightness: Int32)
      requires Valid()
      modifies this`actualGimbalLight, this`outbox
      ensures Valid()
      ensures actualGimbalLight == ClampBrightness(brightness)
      ensures actualChassisLight == old(actualChassisLight)
      ensures outbox == old(outbox) + [Post(CMD_PATH, LedText())]
    {
      var b := brightness;
      if b < 0 {
        b := 0;
      } else if b > MAX_BRIGHTNESS {
        b := MAX_BRIGHTNESS;
      }
      if b != actualGimbalLight {
        actualGimbalLight := b;
      }
      var cmd := LedText();
      outbox := outbox + [Post(CMD_PATH, cmd)];
    }
  }

  /** Repeating an LED request leaves the lights as the first request set
      them, keeps everything posted before, and posts the same LED text
      twice. */
  method RepeatedLedRequest(client: CobraFlexClient, brightness: Int32, chassis: bool)
    requires client.Valid()
    modifies client`actualChassisLight, client`actualGimbalLight, client`outbox
    ensures client.Valid()
    ensures chassis ==>
      (client.actualChassisLight == ClampBrightness(brightness) &&
       client.actualGimbalLight == old(client.actualGimbalLight))
    ensures !chassis ==>
      (client.actualGimbalLight == ClampBrightness(brightness) &&
       client.actualChassisLight == old(client.actualChassisLight))
    ensures |client.outbox| == |old(client.outbox)| + 2
    ensures client.outbox[..|old(client.outbox)|] == old(client.outbox)
    ensures client.outbox[|client.outbox| - 2] == client.outbox[|client.outbox| - 1]
      == Post(CMD_PATH, client.LedText())
  {
    if chassis {
      client.CtrlChassisLed(brightness);
      client.CtrlChassisLed(brightness);
    } else {
      client.CtrlGimbalLed(brightness);
      client.CtrlGimbalLed(brightness);
    }
  }
}
