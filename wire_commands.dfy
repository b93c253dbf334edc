/** The JSON command texts the client builds by string concatenation, and a
    decoder for them that shows the texts are unambiguous: every command
    reads back from its own text, so distinct commands have distinct texts. */
module WireCommands {
  import opened JavaInt

  /** The commands the client sends.
      Drive is `T:11` with the four wheel speeds; Led is `T:132` with the
      chassis light (IO1) and the gimbal light (IO2); GimbalStep is the body
      of a request to the gimbal step endpoint. */
  datatype Command =
    | Drive(m1: int, m2: int, m3: int, m4: int)
    | Led(io1: int, io2: int)
    | GimbalStep(pan: int, tilt: int)

  /** The literal pieces between the values, exactly as the client
      concatenates them (note the spaces in the LED command). */
  const DRIVE_TEXT: seq<string> := ["{\"T\":11,\"M1\":", ",\"M2\":", ",\"M3\":", ",\"M4\":", "}"]
  const LED_TEXT: seq<string> := ["{\"T\":132, \"IO1\":", ",\"IO2\": ", "}"]
  const GIMBAL_STEP_TEXT: seq<string> := ["{\"pan\":", ",\"tilt\":", "}"]

  /** A piece list is well separated when every piece that follows a value
      is non-empty and does not start with a character of a number. */
  predicate Separated(text: seq<string>) {
    forall i :: 1 <= i < |text| ==> 0 < |text[i]| && !IsNumberChar(text[i][0])
  }

  /** `text[0] + values[0] + text[1] + ... + text[n]`, each value printed
      as Java prints an int. */
  function Fill(text: seq<string>, values: seq<int>): (s: string)
    requires |text| == |values| + 1
    ensures |text[0]| <= |s| && s[..|text[0]|] == text[0]
    decreases |values|
  {
    if values == [] then text[0]
    else text[0] + IntToString(values[0]) + Fill(text[1..], values[1..])
  }

  /** Every command text opens a JSON object. */
  function Render(c: Command): (s: string)
    ensures 0 < |s| && s[0] == '{'
  {
    match c
    case Drive(m1, m2, m3, m4) => Fill(DRIVE_TEXT, [m1, m2, m3, m4])
    case Led(io1, io2) => Fill(LED_TEXT, [io1, io2])
    case GimbalStep(pan, tilt) => Fill(GIMBAL_STEP_TEXT, [pan, tilt])
  }

  lemma FillCons(text: seq<string>, values: seq<int>)
    requires |text| == |values| + 1 && values != []
    ensures Fill(text, values) == text[0] + IntToString(values[0]) + Fill(text[1..], values[1..])
  {
  }

  /** Length of the longest prefix of `s` made of number characters. */
  function NumberSpan(s: string): (k: nat)
    ensures k <= |s|
    ensures forall i :: 0 <= i < k ==> IsNumberChar(s[i])
    ensures k < |s| ==> !IsNumberChar(s[k])
  {
    if s != [] && IsNumberChar(s[0]) then 1 + NumberSpan(s[1..]) else 0
  }

  /** Matches `s` against the pieces, reading one integer between each two
      consecutive pieces; yields the integers read. */
  function Scan(text: seq<string>, s: string): (r: Option<seq<int>>)
    requires 0 < |text|
    ensures r.Some? ==> |r.value| == |text| - 1
    decreases |text|
  {
    var head := text[0];
    if |s| < |head| || s[..|head|] != head then None
    else if |text| == 1 then (if |s| == |head| then Some([]) else None)
    else
      var rest := s[|head|..];
      var k := NumberSpan(rest);
      match ParseInt(rest[..k])
      case None => None
      case Some(v) =>
        match Scan(text[1..], rest[k..])
        case None => None
        case Some(vs) => Some([v] + vs)
  }

  /** Decodes a command text; the partner of Render. */
  function Parse(s: string): Option<Command> {
    match Scan(DRIVE_TEXT, s)
    case Some(v) => Some(Drive(v[0], v[1], v[2], v[3]))
    case None =>
      match Scan(LED_TEXT, s)
      case Some(v) => Some(Led(v[0], v[1]))
      case None =>
        match Scan(GIMBAL_STEP_TEXT, s)
        case Some(v) => Some(GimbalStep(v[0], v[1]))
        case None => None
  }

  lemma {:induction false} NumberSpanOfNumber(u: string, t: string)
    requires forall i :: 0 <= i < |u| ==> IsNumberChar(u[i])
    requires t == [] || !IsNumberChar(t[0])
    ensures NumberSpan(u + t) == |u|
    decreases |u|
  {
    if u != [] {
      assert (u + t)[1..] == u[1..] + t;
      NumberSpanOfNumber(u[1..], t);
    }
  }

  /** One step of Scan: after the first piece, the number is read up to
      the next character that cannot belong to it. */
  lemma ScanCons(text: seq<string>, v: int, tail: string)
    requires 2 <= |text|
    requires tail == [] || !IsNumberChar(tail[0])
    ensures Scan(text, text[0] + IntToString(v) + tail) ==
      match Scan(text[1..], tail)
      case None => None
      case Some(vs) => Some([v] + vs)
  {
    var head := text[0];
    var number := IntToString(v);
    var s := head + number + tail;
    var rest := s[|head|..];
    assert s[..|head|] == head;
    assert rest == number + tail;
    NumberSpanOfNumber(number, tail);
    assert rest[..|number|] == number;
    assert rest[|number|..] == tail;
    IntRoundTrip(v);
  }

  lemma SeparatedTail(text: seq<string>)
    requires 0 < |text|
    requires Separated(text)
    ensures Separated(text[1..])
  {
    forall i | 1 <= i < |text[1..]| ensures 0 < |text[1..][i]| && !IsNumberChar(text[1..][i][0]) {
      assert text[1..][i] == text[i + 1];
    }
  }

  /** Scanning a filled-in text gives back exactly the values filled in. */
  lemma {:induction false} ScanFill(text: seq<string>, values: seq<int>)
    requires |text| == |values| + 1
    requires Separated(text)
    ensures Scan(text, Fill(text, values)) == Some(values)
    decreases |values|
  {
    if values != [] {
      var tail := Fill(text[1..], values[1..]);
      assert text[1..][0] == text[1];
      assert tail[0] == text[1][0];
      ScanCons(text, values[0], tail);
      SeparatedTail(text);
      ScanFill(text[1..], values[1..]);
      assert [values[0]] + values[1..] == values;
    }
  }

  /** A text whose opening differs from the first piece is rejected. */
  lemma ScanRejects(text: seq<string>, s: string, i: nat)
    requires 0 < |text|
    requires i < |text[0]| && i < |s| && text[0][i] != s[i]
    ensures Scan(text, s) == None
  {
    if |text[0]| <= |s| {
      assert s[..|text[0]|][i] != text[0][i];
    }
  }

  /** Every command reads back from its own text. */
  lemma RenderRoundTrip(c: Command)
    ensures Parse(Render(c)) == Some(c)
  {
    var s := Render(c);
    match c
    case Drive(m1, m2, m3, m4) =>
      ScanFill(DRIVE_TEXT, [m1, m2, m3, m4]);
    case Led(io1, io2) =>
      assert s[..|LED_TEXT[0]|] == LED_TEXT[0];
      assert s[6] == '3';
      ScanRejects(DRIVE_TEXT, s, 6);
      ScanFill(LED_TEXT, [io1, io2]);
    case GimbalStep(pan, tilt) =>
      assert s[..|GIMBAL_STEP_TEXT[0]|] == GIMBAL_STEP_TEXT[0];
      assert s[2] == 'p';
      ScanRejects(DRIVE_TEXT, s, 2);
      ScanRejects(LED_TEXT, s, 2);
      ScanFill(GIMBAL_STEP_TEXT, [pan, tilt]);
  }

  /** The drive text is the concatenation the client builds, with each label
      immediately followed by the value of its own field. */
  lemma DriveCommandText(m1: int, m2: int, m3: int, m4: int)
    ensures Render(Drive(m1, m2, m3, m4)) ==
      "{\"T\":11,\"M1\":" + IntToString(m1) + (",\"M2\":" + IntToString(m2)
      + (",\"M3\":" + IntToString(m3) + (",\"M4\":" + IntToString(m4) + "}")))
  {
    var t3: seq<string> := [",\"M4\":", "}"];
    var t2: seq<string> := [",\"M3\":"] + t3;
    var t1: seq<string> := [",\"M2\":"] + t2;
    assert DRIVE_TEXT == ["{\"T\":11,\"M1\":"] + t1;
    var f3 := ",\"M4\":" + IntToString(m4) + "}";
    assert Fill(t3, [m4]) == f3 by {
      FillCons(t3, [m4]);
      assert t3[1..] == ["}"] && [m4][1..] == [];
    }
    var f2 := ",\"M3\":" + IntToString(m3) + f3;
    assert Fill(t2, [m3, m4]) == f2 by {
      FillCons(t2, [m3, m4]);
      assert t2[1..] == t3 && [m3, m4][1..] == [m4];
    }
    var f1 := ",\"M2\":" + IntToString(m2) + f2;
    assert Fill(t1, [m2, m3, m4]) == f1 by {
      FillCons(t1, [m2, m3, m4]);
      assert t1[1..] == t2 && [m2, m3, m4][1..] == [m3, m4];
    }
    FillCons(DRIVE_TEXT, [m1, m2, m3, m4]);
    assert DRIVE_TEXT[1..] == t1 && [m1, m2, m3, m4][1..] == [m2, m3, m4];
  }

  /** The LED text, with IO1 followed by the chassis light and IO2 by the
      gimbal light, including the two spaces of the client's text. */
  lemma LedCommandText(io1: int, io2: int)
    ensures Render(Led(io1, io2)) ==
      "{\"T\":132, \"IO1\":" + IntToString(io1) + ",\"IO2\": " + IntToString(io2) + "}"
  {
    var text := LED_TEXT;
    var values := [io1, io2];
    assert text[1..][1..] == ["}"];
    assert values[1..][1..] == [];
    assert Fill(text[1..], values[1..]) == ",\"IO2\": " + IntToString(io2) + "}";
  }

  /** The gimbal step text, with the pan delta after "pan" and the tilt
      delta after "tilt". */
  lemma GimbalStepCommandText(pan: int, tilt: int)
    ensures Render(GimbalStep(pan, tilt)) ==
      "{\"pan\":" + IntToString(pan) + ",\"tilt\":" + IntToString(tilt) + "}"
  {
    var text := GIMBAL_STEP_TEXT;
    var values := [pan, tilt];
    assert text[1..][1..] == ["}"];
    assert values[1..][1..] == [];
    assert Fill(text[1..], values[1..]) == ",\"tilt\":" + IntToString(tilt) + "}";
  }

  /** Distinct commands have distinct texts. */
  lemma RenderInjective(c: Command, d: Command)
    requires Render(c) == Render(d)
    ensures c == d
  {
    RenderRoundTrip(c);
    RenderRoundTrip(d);
  }
}
