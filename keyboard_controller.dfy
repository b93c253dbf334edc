/** The keyboard controller: a SHIFT flag chooses whether H/J/K/L step the
    gimbal or drive the chassis; SPACE stops both, A toggles the pan-tilt
    light, and every other key is ignored. Each command the controller
    would send is recorded as an abstract intent. */
module Keyboard {
  import opened CobraFlex

  /** The keys the controller distinguishes; `Other` is any other key code. */
  datatype Key = SHIFT | H | J | K | L | A | SPACE | Other(code: int)

  /** What a key press asks the client for. `GimbalStop` and `PanTiltLed`
      stand for client requests whose texts the client does not define. */
  datatype Intent =
    | SpeedControl(direction: MovingDirection)
    | GimbalStep(deltaPan: int, deltaTilt: int)
    | GimbalStop
    | PanTiltLed

  datatype Event = Pressed(key: Key) | Released(key: Key)

  predicate IsStepKey(key: Key) {
    key == H || key == J || key == K || key == L
  }

  /** The intents a key press sends, given the SHIFT flag at that moment:
      at most two, each of a kind a key can send. */
  function Response(key: Key, option: bool): (r: seq<Intent>)
    ensures |r| <= 2
    ensures forall i :: 0 <= i < |r| ==> Sendable(r[i])
  {
    match key
    case SHIFT => []
    case H => [if option then GimbalStep(-1, 0) else SpeedControl(WEST)]
    case J => [if option then GimbalStep(0, 1) else SpeedControl(NORTH)]
    case K => [if option then GimbalStep(0, -1) else SpeedControl(SOUTH)]
    case L => [if option then GimbalStep(1, 0) else SpeedControl(EAST)]
    case A => [PanTiltLed]
    case SPACE => [SpeedControl(STOP), GimbalStop]
    case Other(_) => []
  }

  /** The SHIFT flag after an event: a SHIFT press sets it, a SHIFT
      release clears it, and every other event leaves it as it was. */
  function NextFlag(option: bool, e: Event): (flag: bool)
    ensures flag == if IsShiftEvent(e) then e.Pressed? else option
  {
    match e
    case Pressed(key) => if key == SHIFT then true else option
    case Released(key) => if key == SHIFT then false else option
  }

  /** The intents an event sends; a release sends nothing. */
  function Output(option: bool, e: Event): (r: seq<Intent>)
    ensures e.Released? ==> r == []
    ensures |r| <= 2
    ensures forall i :: 0 <= i < |r| ==> Sendable(r[i])
  {
    match e
    case Pressed(key) => Response(key, option)
    case Released(_) => []
  }

  /** The SHIFT flag after a session of events, starting from `option`. */
  function FlagAfter(option: bool, events: seq<Event>): bool
    decreases |events|
  {
    if events == [] then option else FlagAfter(NextFlag(option, events[0]), events[1..])
  }

  /** Everything a session of events sends, in order. */
  function SentBy(option: bool, events: seq<Event>): seq<Intent>
    decreases |events|
  {
    if events == [] then []
    else Output(option, events[0]) + SentBy(NextFlag(option, events[0]), events[1..])
  }

  predicate IsShiftEvent(e: Event) {
    e.key == SHIFT
  }

  /** Reference meaning of the flag: if the session has a SHIFT event, the
      flag is set exactly when the last one is a press; otherwise it keeps
      its initial value. */
  function LastShiftPressed(option: bool, events: seq<Event>): bool
    decreases |events|
  {
    if events == [] then option
    else if IsShiftEvent(events[|events| - 1]) then events[|events| - 1].Pressed?
    else LastShiftPressed(option, events[..|events| - 1])
  }

  /** With SHIFT held, H/J/K/L each send one gimbal step of one unit:
      H = (-1, 0), J = (0, 1), K = (0, -1), L = (1, 0). */
  lemma StepKeysWithShift(key: Key)
    requires IsStepKey(key)
    ensures |Response(key, true)| == 1
    ensures var i := Response(key, true)[0];
      i.GimbalStep? && Abs(i.deltaPan) + Abs(i.deltaTilt) == 1 &&
      (i.deltaPan, i.deltaTilt) ==
        (if key == H then (-1, 0) else if key == J then (0, 1) else if key == K then (0, -1) else (1, 0))
  {
  }

  /** Without SHIFT, H/J/K/L each send one drive command:
      H = WEST, J = NORTH, K = SOUTH, L = EAST. */
  lemma StepKeysWithoutShift(key: Key)
    requires IsStepKey(key)
    ensures |Response(key, false)| == 1
    ensures Response(key, false)[0] == SpeedControl(
      if key == H then WEST else if key == J then NORTH else if key == K then SOUTH else EAST)
  {
  }

  /** SPACE stops the chassis and then the gimbal, and A toggles the
      pan-tilt light, whatever the flag. */
  lemma FlagIndependentKeys(option: bool)
    ensures Response(SPACE, option) == [SpeedControl(STOP), GimbalStop]
    ensures Response(A, option) == [PanTiltLed]
  {
  }

  /** A press sends nothing exactly for SHIFT and the keys the controller
      does not handle. */
  lemma SilentKeys(key: Key, option: bool)
    ensures Response(key, option) == [] <==> key == SHIFT || key.Other?
  {
  }

  lemma {:induction false} FlagAfterSnoc(option: bool, events: seq<Event>, e: Event)
    ensures FlagAfter(option, events + [e]) == NextFlag(FlagAfter(option, events), e)
    decreases |events|
  {
    if events != [] {
      assert (events + [e])[1..] == events[1..] + [e];
      FlagAfterSnoc(NextFlag(option, events[0]), events[1..], e);
    }
  }

  /** Over any session, the flag is set exactly when the last SHIFT event
      was a press (or, with no SHIFT event, when it was set at the start). */
  lemma {:induction false} FlagIsLastShift(option: bool, events: seq<Event>)
    ensures FlagAfter(option, events) == LastShiftPressed(option, events)
    decreases |events|
  {
    if events != [] {
      var init := events[..|events| - 1];
      var e := events[|events| - 1];
      assert init + [e] == events;
      FlagAfterSnoc(option, init, e);
      FlagIsLastShift(option, init);
    }
  }

  /** The intents a key can send: drive commands only for the four
      H/J/K/L directions and STOP, gimbal steps only of one unit. */
  predicate Sendable(i: Intent) {
    match i
    case SpeedControl(d) => d in {WEST, NORTH, SOUTH, EAST, STOP}
    case GimbalStep(dp, dt) => Abs(dp) + Abs(dt) == 1
    case GimbalStop => true
    case PanTiltLed => true
  }

  /** Every event sends at most two intents, and every session sends only
      sendable intents, at most two per event. */
  lemma {:induction false} SessionSendsBoundedIntents(option: bool, events: seq<Event>)
    ensures |SentBy(option, events)| <= 2 * |events|
    ensures forall k :: 0 <= k < |SentBy(option, events)| ==> Sendable(SentBy(option, events)[k])
    decreases |events|
  {
    if events != [] {
      var out := Output(option, events[0]);
      var rest := SentBy(NextFlag(option, events[0]), events[1..]);
      SessionSendsBoundedIntents(NextFlag(option, events[0]), events[1..]);
      assert SentBy(option, events) == out + rest;
    }
  }

  class KeyboardController {
    var optionKeyPressed: bool
    /** The intents sent so far, oldest first. */
    var sent: seq<Intent>

    constructor ()
      ensures !optionKeyPressed && sent == []
    {
      optionKeyPressed := false;
      sent := [];
    }

    method KeyPressed(key: Key)
      modifies this
      ensures optionKeyPressed == (key == SHIFT || old(optionKeyPressed))
      ensures optionKeyPressed == NextFlag(old(optionKeyPressed), Pressed(key))
      ensures sent == old(sent) + Response(key, old(optionKeyPressed))
    {
      match key
      case SHIFT =>
        optionKeyPressed := true;
      case H =>
        if optionKeyPressed {
          sent := sent + [GimbalStep(-1, 0)];
        } else {
          sent := sent + [SpeedControl(WEST)];
        }
      case J =>
        if optionKeyPressed {
          sent := sent + [GimbalStep(0, 1)];
        } else {
          sent := sent + [SpeedControl(NORTH)];
        }
      case K =>
        if optionKeyPressed {
          sent := sent + [GimbalStep(0, -1)];
        } else {
          sent := sent + [SpeedControl(SOUTH)];
        }
      case L =>
        if optionKeyPressed {
          sent := sent + [GimbalStep(1, 0)];
        } else {
          sent := sent + [SpeedControl(EAST)];
        }
      case A =>
        sent := sent + [PanTiltLed];
      case SPACE =>
        sent := sent + [SpeedControl(STOP)];
        sent := sent + [GimbalStop];
      case Other(_) =>
    }

    method KeyReleased(key: Key)
      modifies this`optionKeyPressed
      ensures optionKeyPressed == (old(optionKeyPressed) && key != SHIFT)
      ensures optionKeyPressed == NextFlag(old(optionKeyPressed), Released(key))
    {
      if key == SHIFT {
        optionKeyPressed := false;
      }
    }

    /** Dispatches one key event to the press or release handler. */
    method Deliver(e: Event)
      modifies this
      ensures optionKeyPressed == NextFlag(old(optionKeyPressed), e)
      ensures sent == old(sent) + Output(old(optionKeyPressed), e)
    {
      match e {
        case Pressed(key) => KeyPressed(key);
        case Released(key) => KeyReleased(key);
      }
    }
  }

  lemma {:induction false} SentBySnoc(option: bool, events: seq<Event>, e: Event)
    ensures SentBy(option, events + [e]) == SentBy(option, events) + Output(FlagAfter(option, events), e)
    decreases |events|
  {
    if events != [] {
      assert (events + [e])[1..] == events[1..] + [e];
      SentBySnoc(NextFlag(option, events[0]), events[1..], e);
    }
  }

  /** Delivering a session of events to a controller, one at a time, leaves
      its flag and its log exactly as the session folds describe them. */
  method Session(c: KeyboardController, events: seq<Event>)
    modifies c
    ensures c.optionKeyPressed == FlagAfter(old(c.optionKeyPressed), events)
    ensures c.sent == old(c.sent) + SentBy(old(c.optionKeyPressed), events)
  {
    ghost var flag0 := c.optionKeyPressed;
    ghost var sent0 := c.sent;
    var i := 0;
    while i < |events|
      invariant 0 <= i <= |events|
      invariant c.optionKeyPressed == FlagAfter(flag0, events[..i])
      invariant c.sent == sent0 + SentBy(flag0, events[..i])
    {
      assert events[..i + 1] == events[..i] + [events[i]];
      FlagAfterSnoc(flag0, events[..i], events[i]);
      SentBySnoc(flag0, events[..i], events[i]);
      c.Deliver(events[i]);
      i := i + 1;
    }
    assert events[..i] == events;
  }
}
