/**
 * Mouse clicks, scrolling and moves (`mouse` module): the `{Click, ...}`
 * string handed to `send`, its validation, and the commands a move issues.
 * The click string is given a parser, so that what it encodes can be read back.
 */
module Mouse {

  import opened Base
  import opened Text
  import Sending
  import St = Settings

  const KeyDown := 0
  const KeyUp := 1
  const KeyDownAndUp := 2
  const Buttons: set<string> := {"left", "right", "middle", "x1", "x2"}
  const ScrollDirections: set<string> := {"up", "down", "left", "right"}
  const Modifiers: set<char> := {'!', '+', '^', '#'}

  /** The token an event type adds after the button: "down", "up" or none. */
  function EventTokens(eventType: int): seq<string>
  {
    if eventType == KeyDown then ["down"] else if eventType == KeyUp then ["up"] else []
  }

  predicate CommaFree(args: seq<string>)
  {
    forall k :: 0 <= k < |args| ==> ',' !in args[k]
  }

  lemma IntStrCommaFree(i: int)
    ensures ',' !in IntStr(i)
  {
    IntStrChars(i);
  }

  /**
   * `_click(button, times, event_type)`: the button, then "down"/"up" for a
   * press or a release, then the count; each argument is checked in that order.
   */
  method ClickArgs(button: string, times: int, eventType: int) returns (r: Result<seq<string>>)
    ensures r.Ok? <==> button in Buttons && eventType in {KeyDown, KeyUp, KeyDownAndUp} && times >= 0
    ensures button !in Buttons ==> r == Err(ValueError(Repr(button) + " is not a valid mouse button"))
    ensures button in Buttons && eventType !in {KeyDown, KeyUp, KeyDownAndUp} ==>
              r == Err(ValueError(IntStr(eventType) + " is not a valid event type"))
    ensures button in Buttons && eventType in {KeyDown, KeyUp, KeyDownAndUp} && times < 0 ==>
              r == Err(ValueError("times must be positive"))
    ensures r.Ok? ==> r.value == [button] + EventTokens(eventType) + [IntStr(times)]
  {
    var args: seq<string> := [];
    if button !in Buttons {
      return Err(ValueError(Repr(button) + " is not a valid mouse button"));
    }
    args := args + [button];
    if eventType == KeyDown {
      args := args + ["down"];
    } else if eventType == KeyUp {
      args := args + ["up"];
    } else if eventType == KeyDownAndUp {
    } else {
      return Err(ValueError(IntStr(eventType) + " is not a valid event type"));
    }
    if times < 0 {
      return Err(ValueError("times must be positive"));
    }
    args := args + [IntStr(times)];
    r := Ok(args);
  }

  /**
   * What the arguments of a click say: the button comes first, the count
   * last, and a middle token exactly for a press or a release.
   */
  lemma ClickArgsMeaning(button: string, times: int, eventType: int)
    requires button in Buttons && eventType in {KeyDown, KeyUp, KeyDownAndUp} && times >= 0
    ensures var args := [button] + EventTokens(eventType) + [IntStr(times)];
      && args[0] == button
      && ParseInt(args[|args| - 1]) == Some(times)
      && (|args| == 3 <==> eventType != KeyDownAndUp)
      && (eventType == KeyDown ==> args[1] == "down")
      && (eventType == KeyUp ==> args[1] == "up")
      && CommaFree(args)
  {
    IntStrRoundTrip(times);
    IntStrCommaFree(times);
  }

  /** The characters of a modifier string that are not among `!+^#`, each once. */
  function UnknownModifiers(m: string): (u: string)
    ensures forall c :: c in u <==> c in m && c !in Modifiers
    ensures forall i, j :: 0 <= i < j < |u| ==> u[i] != u[j]
  {
    if |m| == 0 then ""
    else
      var u := UnknownModifiers(m[..|m| - 1]);
      var c := m[|m| - 1];
      assert m == m[..|m| - 1] + [c];
      if c in Modifiers || c in u then u else u + [c]
  }

  /** The string `_send_click(*args, modifier=..., blind=...)` sends. */
  function ClickString(blind: bool, modifier: string, args: seq<string>): string
  {
    (if blind then "{Blind}" else "") + modifier + "{Click, " + Join(args, ",") + "}"
  }

  /** `_send_click`: the modifiers must come from `!+^#`; None means no modifiers. */
  function SendClickKeys(args: seq<string>, modifier: Option<string>, blind: bool): (r: Result<string>)
    ensures r.Err? <==> modifier.Some? && UnknownModifiers(modifier.value) != ""
    ensures r.Err? ==> r.error == ValueError(Repr(UnknownModifiers(modifier.value)) + " is not a valid modifier")
    ensures r.Ok? ==> forall k :: 0 <= k < |ModifierOf(modifier)| ==> ModifierOf(modifier)[k] in Modifiers
  {
    if modifier.Some? && UnknownModifiers(modifier.value) != "" then
      Err(ValueError(Repr(UnknownModifiers(modifier.value)) + " is not a valid modifier"))
    else
      assert forall k :: 0 <= k < |ModifierOf(modifier)| ==> ModifierOf(modifier)[k] !in UnknownModifiers(ModifierOf(modifier));
      Ok(ClickString(blind, ModifierOf(modifier), args))
  }

  function ModifierOf(modifier: Option<string>): string
  {
    if modifier.Some? then modifier.value else ""
  }

  // ----- reading a click string back -----

  /** The length of the leading run of modifier characters. */
  function ModifierRun(s: string): (k: nat)
    ensures k <= |s|
    ensures forall i :: 0 <= i < k ==> s[i] in Modifiers
    ensures k < |s| ==> s[k] !in Modifiers
  {
    if |s| == 0 || s[0] !in Modifiers then 0 else 1 + ModifierRun(s[1..])
  }

  lemma {:induction false} ModifierRunAppend(m: string, rest: string)
    requires forall i :: 0 <= i < |m| ==> m[i] in Modifiers
    requires rest == [] || rest[0] !in Modifiers
    ensures ModifierRun(m + rest) == |m|
  {
    if |m| > 0 {
      assert (m + rest)[1..] == m[1..] + rest;
      ModifierRunAppend(m[1..], rest);
    }
  }

  const ClickOpen := "{Click, "

  /** Parses "[{Blind}]<modifiers>{Click, a,b,...}" into (blind, modifiers, arguments). */
  function ParseClick(s: string): Option<(bool, string, seq<string>)>
  {
    var blind := StartsWith(s, "{Blind}");
    var rest := if blind then s[7..] else s;
    var k := ModifierRun(rest);
    var tail := rest[k..];
    if |tail| >= 9 && tail[..8] == ClickOpen && tail[|tail| - 1] == '}' then
      Some((blind, rest[..k], Split(tail[8..|tail| - 1], ',')))
    else None
  }

  lemma ParseClickTail(m: string, args: seq<string>)
    requires forall i :: 0 <= i < |m| ==> m[i] in Modifiers
    requires |args| >= 1 && CommaFree(args)
    ensures var rest := m + ClickOpen + Join(args, ",") + "}";
      ModifierRun(rest) == |m| && rest[..|m|] == m
      && var tail := rest[|m|..];
      |tail| >= 9 && tail[..8] == ClickOpen && tail[|tail| - 1] == '}'
      && Split(tail[8..|tail| - 1], ',') == args
  {
    var body := Join(args, ",");
    var rest := m + ClickOpen + body + "}";
    assert rest == m + (ClickOpen + body + "}");
    ModifierRunAppend(m, ClickOpen + body + "}");
    var tail := rest[|m|..];
    assert tail == ClickOpen + body + "}";
    assert tail[8..|tail| - 1] == body;
    SplitJoin(args, ',');
  }

  /** The click string can be read back: blind, the modifiers and every argument. */
  lemma ParseClickString(blind: bool, m: string, args: seq<string>)
    requires forall i :: 0 <= i < |m| ==> m[i] in Modifiers
    requires |args| >= 1 && CommaFree(args)
    ensures ParseClick(ClickString(blind, m, args)) == Some((blind, m, args))
  {
    var rest := m + ClickOpen + Join(args, ",") + "}";
    var s := ClickString(blind, m, args);
    assert s == (if blind then "{Blind}" else "") + rest;
    assert StartsWith(s, "{Blind}") == blind by {
      if !blind {
        if |m| > 0 {
          assert s[0] == m[0];
        } else {
          assert s[1] == 'C';
          if |s| >= 7 { assert s[..7][1] == s[1]; }
        }
      }
    }
    var r2 := if blind then s[7..] else s;
    assert r2 == rest;
    ParseClickTail(m, args);
  }

  /**
   * `_click`: the arguments, then the click string, then `send` with the
   * key delays UNSET and the mouse delay passed through.
   */
  method Click(button: string, times: int, eventType: int, modifier: Option<string>, blind: bool,
               mode: Option<string>, level: Option<int>, delay: Sending.Delay, st: St.Values)
    returns (r: Result<seq<Call>>)
    ensures button !in Buttons || eventType !in {KeyDown, KeyUp, KeyDownAndUp} || times < 0 ==> r.Err?
    ensures var args := [button] + EventTokens(eventType) + [IntStr(times)];
      button in Buttons && eventType in {KeyDown, KeyUp, KeyDownAndUp} && times >= 0 ==>
      match SendClickKeys(args, modifier, blind)
      case Err(e) => r == Err(e)
      case Ok(keys) =>
        && r == Sending.Send(keys, mode, level, Unset, Unset, delay, st)
        && ParseClick(keys) == Some((blind, ModifierOf(modifier), args))
  {
    var a := ClickArgs(button, times, eventType);
    if a.Err? {
      return Err(a.error);
    }
    ClickArgsMeaning(button, times, eventType);
    var keys := SendClickKeys(a.value, modifier, blind);
    if keys.Err? {
      return Err(keys.error);
    }
    ParseClickString(blind, ModifierOf(modifier), a.value);
    r := Sending.Send(keys.value, mode, level, Unset, Unset, delay, st);
  }

  /** `mouse_scroll(direction, times)`: "wheel<direction>" and the count, with no mouse delay. */
  function Scroll(direction: string, times: int, modifier: Option<string>, blind: bool,
                  mode: Option<string>, level: Option<int>, st: St.Values): (r: Result<seq<Call>>)
    ensures direction !in ScrollDirections ==>
              r == Err(ValueError(Repr(direction) + " is not a valid mouse scroll direction"))
    ensures direction in ScrollDirections && times < 0 ==> r == Err(ValueError("times must be positive"))
    ensures direction in ScrollDirections && times >= 0 ==>
      var args := ["wheel" + direction, IntStr(times)];
      match SendClickKeys(args, modifier, blind)
      case Err(e) => r == Err(e)
      case Ok(keys) =>
        && r == Sending.Send(keys, mode, level, Unset, Unset, Unset, st)
        && ParseClick(keys) == Some((blind, ModifierOf(modifier), args))
  {
    if direction !in ScrollDirections then
      Err(ValueError(Repr(direction) + " is not a valid mouse scroll direction"))
    else if times < 0 then Err(ValueError("times must be positive"))
    else
      var args := ["wheel" + direction, IntStr(times)];
      IntStrCommaFree(times);
      assert CommaFree(args);
      match SendClickKeys(args, modifier, blind)
      case Err(e) => Err(e)
      case Ok(keys) =>
        ParseClickString(blind, ModifierOf(modifier), args);
        Sending.Send(keys, mode, level, Unset, Unset, Unset, st)
  }

  /** An explicit speed forces Event mode unless a mode is given; otherwise the setting is used. */
  function MoveModeAndSpeed(mode: Option<string>, speed: Option<int>, st: St.Values): (r: (Option<string>, int))
    ensures speed.Some? ==> r.1 == speed.value && (mode.None? ==> r.0 == Some("event"))
    ensures mode.Some? ==> r.0 == mode
    ensures speed.None? ==> r == (mode, st.mouseSpeed)
  {
    if speed.Some? then (if mode.None? then Some("event") else mode, speed.value)
    else (mode, st.mouseSpeed)
  }

  /** The `{Click, ...}` arguments of a move: the truncated coordinates, no click, and "relative" for the cursor. */
  function MoveArgs(x: real, y: real, relativeTo: string): seq<string>
  {
    [IntStr(Trunc(x)), IntStr(Trunc(y)), "0", if relativeTo == "cursor" then "relative" else ""]
  }

  /** The commands a move sends before the click: CoordMode (skipped for "cursor"), then SetDefaultMouseSpeed. */
  function MovePrefix(coord: Call, relativeTo: string, speed: int): seq<Call>
  {
    (if relativeTo != "cursor" then [coord] else []) + [Call("SetDefaultMouseSpeed", [I(speed)])]
  }

  /**
   * `mouse_move(x, y, relative_to=..., mode=..., speed=..., delay=...)`:
   * CoordMode (skipped for "cursor"), SetDefaultMouseSpeed, then a
   * no-click `{Click, x, y, 0[, relative]}` sent with blind on. A bad send
   * mode or level is raised by `send` after the first two commands.
   */
  function MouseMove(x: real, y: real, relativeTo: string, mode: Option<string>, speed: Option<int>,
                     delay: Sending.Delay, st: St.Values): Outcome
  {
    var ms := MoveModeAndSpeed(mode, speed, st);
    if !(0 <= ms.1 <= 100) then Outcome([], Some(ValueError("speed must be between 0 and 100")))
    else
      var coord := if relativeTo != "cursor" then St.SetCoordMode("mouse", relativeTo) else Ok(Call("", []));
      if coord.Err? then Outcome([], Some(coord.error))
      else
        var prefix := MovePrefix(coord.value, relativeTo, ms.1);
        var keys := ClickString(true, "", MoveArgs(x, y, relativeTo));
        match Sending.Send(keys, ms.0, None, Unset, Unset, delay, st)
        case Err(e) => Outcome(prefix, Some(e))
        case Ok(cs) => Outcome(prefix + cs, None)
  }

  /**
   * What a move does: it fails with nothing sent on a speed outside 0..100
   * or a bad relative_to; otherwise it sends CoordMode (not relative to the
   * cursor) and SetDefaultMouseSpeed, and then either fails as `send` does
   * with nothing more sent, or sends the click last; the sent keys read
   * back as the truncated coordinates and no click, marked relative for the cursor.
   */
  lemma MouseMoveOutcome(x: real, y: real, relativeTo: string, mode: Option<string>, speed: Option<int>,
                         delay: Sending.Delay, st: St.Values)
    ensures var ms := MoveModeAndSpeed(mode, speed, st);
      var o := MouseMove(x, y, relativeTo, mode, speed, delay, st);
      var keys := ClickString(true, "", MoveArgs(x, y, relativeTo));
      var sent := Sending.Send(keys, ms.0, None, Unset, Unset, delay, st);
      && (!(0 <= ms.1 <= 100) ==> o == Outcome([], Some(ValueError("speed must be between 0 and 100"))))
      && (0 <= ms.1 <= 100 && relativeTo != "cursor" && relativeTo !in St.CoordModes ==> o.calls == [] && o.error.Some?)
      && (0 <= ms.1 <= 100 && (relativeTo == "cursor" || relativeTo in St.CoordModes) ==>
            var prefix := MovePrefix(Call("CoordMode", [S("mouse"), S(relativeTo)]), relativeTo, ms.1);
            && |o.calls| >= |prefix| && o.calls[..|prefix|] == prefix
            && (sent.Err? ==> o == Outcome(prefix, Some(sent.error)))
            && (sent.Ok? ==>
                  o.error.None? && o.calls[|o.calls| - 1]
                    == Call(Sending.SendCommand(Sending.GetSendMode(ms.0, Unset, Unset, delay, st)), [S(keys)])))
      && ParseClick(keys) == Some((true, "", MoveArgs(x, y, relativeTo)))
  {
    MoveKeysReadBack(x, y, relativeTo);
    var ms := MoveModeAndSpeed(mode, speed, st);
    if 0 <= ms.1 <= 100 && (relativeTo == "cursor" || relativeTo in St.CoordModes) {
      MoveAfterChecks(x, y, relativeTo, mode, speed, delay, st);
    }
  }

  /** Once the speed and the coordinate mode pass, the two setup commands go first and the click last. */
  lemma MoveAfterChecks(x: real, y: real, relativeTo: string, mode: Option<string>, speed: Option<int>,
                        delay: Sending.Delay, st: St.Values)
    requires 0 <= MoveModeAndSpeed(mode, speed, st).1 <= 100
    requires relativeTo == "cursor" || relativeTo in St.CoordModes
    ensures var ms := MoveModeAndSpeed(mode, speed, st);
      var o := MouseMove(x, y, relativeTo, mode, speed, delay, st);
      var keys := ClickString(true, "", MoveArgs(x, y, relativeTo));
      var sent := Sending.Send(keys, ms.0, None, Unset, Unset, delay, st);
      var prefix := MovePrefix(Call("CoordMode", [S("mouse"), S(relativeTo)]), relativeTo, ms.1);
      && |o.calls| >= |prefix| && o.calls[..|prefix|] == prefix
      && (sent.Err? ==> o == Outcome(prefix, Some(sent.error)))
      && (sent.Ok? ==>
            o.error.None? && o.calls[|o.calls| - 1]
              == Call(Sending.SendCommand(Sending.GetSendMode(ms.0, Unset, Unset, delay, st)), [S(keys)]))
  {
    var ms := MoveModeAndSpeed(mode, speed, st);
    var coord := if relativeTo != "cursor" then St.SetCoordMode("mouse", relativeTo) else Ok(Call("", []));
    MoveSendsLast(x, y, relativeTo, ms, coord.value, delay, st);
  }

  lemma MoveKeysReadBack(x: real, y: real, relativeTo: string)
    ensures ParseClick(ClickString(true, "", MoveArgs(x, y, relativeTo))) == Some((true, "", MoveArgs(x, y, relativeTo)))
  {
    IntStrCommaFree(Trunc(x));
    IntStrCommaFree(Trunc(y));
    assert CommaFree(MoveArgs(x, y, relativeTo));
    ParseClickString(true, "", MoveArgs(x, y, relativeTo));
  }

  lemma MoveSendsLast(x: real, y: real, relativeTo: string, ms: (Option<string>, int), coord: Call,
                      delay: Sending.Delay, st: St.Values)
    ensures var keys := ClickString(true, "", MoveArgs(x, y, relativeTo));
      var cs := Sending.Send(keys, ms.0, None, Unset, Unset, delay, st);
      var out := MovePrefix(coord, relativeTo, ms.1);
      && (out + (if cs.Ok? then cs.value else []))[..|out|] == out
      && (cs.Ok? ==> (out + cs.value)[|out + cs.value| - 1]
                       == Call(Sending.SendCommand(Sending.GetSendMode(ms.0, Unset, Unset, delay, st)), [S(keys)]))
  {
    var keys := ClickString(true, "", MoveArgs(x, y, relativeTo));
    Sending.SendOutcome(keys, ms.0, None, Unset, Unset, delay, st);
    var cs := Sending.Send(keys, ms.0, None, Unset, Unset, delay, st);
    var out := MovePrefix(coord, relativeTo, ms.1);
    assert (out + (if cs.Ok? then cs.value else []))[..|out|] == out;
  }

  /** The older `_click` with coordinates: x and y first, "relative" last for "pointer". */
  method LegacyClickArgs(button: string, times: int, eventType: int, x: Option<real>, y: Option<real>,
                         relativeTo: string) returns (r: Result<seq<string>>)
    ensures r.Ok? <==> button in Buttons && eventType in {KeyDown, KeyUp, KeyDownAndUp} && times >= 0
    ensures button !in Buttons ==> r == Err(ValueError(Repr(button) + " is not a valid mouse button"))
    ensures button in Buttons && eventType !in {KeyDown, KeyUp, KeyDownAndUp} ==>
              r == Err(ValueError(IntStr(eventType) + " is not a valid event type"))
    ensures button in Buttons && eventType in {KeyDown, KeyUp, KeyDownAndUp} && times < 0 ==>
              r == Err(ValueError("times must be positive"))
    ensures r.Ok? ==> r.value == Coords(x, y) + [button] + EventTokens(eventType) + [IntStr(times)]
                                 + (if relativeTo == "pointer" then ["relative"] else [])
  {
    var args: seq<string> := [];
    if x.Some? {
      args := args + [IntStr(Trunc(x.value))];
    }
    if y.Some? {
      args := args + [IntStr(Trunc(y.value))];
    }
    assert args == Coords(x, y);
    if button !in Buttons {
      return Err(ValueError(Repr(button) + " is not a valid mouse button"));
    }
    args := args + [button];
    if eventType == KeyDown {
      args := args + ["down"];
    } else if eventType == KeyUp {
      args := args + ["up"];
    } else if eventType == KeyDownAndUp {
    } else {
      return Err(ValueError(IntStr(eventType) + " is not a valid event type"));
    }
    assert args == Coords(x, y) + [button] + EventTokens(eventType);
    if times < 0 {
      return Err(ValueError("times must be positive"));
    }
    args := args + [IntStr(times)];
    if relativeTo == "pointer" {
      args := args + ["relative"];
    }
    r := Ok(args);
  }

  function Coords(x: Option<real>, y: Option<real>): seq<string>
  {
    (if x.Some? then [IntStr(Trunc(x.value))] else []) + (if y.Some? then [IntStr(Trunc(y.value))] else [])
  }

  /**
   * The older `_click`: CoordMode first unless `relative_to` is "pointer",
   * then the click; the sent string reads back as the arguments built. A
   * bad modifier, send mode or level is raised after CoordMode is sent.
   */
  method LegacyClick(button: string, times: int, eventType: int, modifier: Option<string>, blind: bool,
                     x: Option<real>, y: Option<real>, relativeTo: string,
                     mode: Option<string>, level: Option<int>, delay: Sending.Delay, st: St.Values)
    returns (r: Outcome)
    ensures button !in Buttons || eventType !in {KeyDown, KeyUp, KeyDownAndUp} || times < 0 ==>
              r.calls == [] && r.error.Some?
    ensures relativeTo != "pointer" && St.SetCoordMode("mouse", relativeTo).Err? ==> r.calls == [] && r.error.Some?
    ensures button in Buttons && eventType in {KeyDown, KeyUp, KeyDownAndUp} && times >= 0
            && (relativeTo == "pointer" || relativeTo in St.CoordModes) ==>
      var args := Coords(x, y) + [button] + EventTokens(eventType) + [IntStr(times)]
                  + (if relativeTo == "pointer" then ["relative"] else []);
      var coord := if relativeTo != "pointer" then [Call("CoordMode", [S("mouse"), S(relativeTo)])] else [];
      match SendClickKeys(args, modifier, blind)
      case Err(e) => r == Outcome(coord, Some(e))
      case Ok(keys) =>
        && ParseClick(keys) == Some((blind, ModifierOf(modifier), args))
        && match Sending.Send(keys, mode, level, Unset, Unset, delay, st)
           case Err(e) => r == Outcome(coord, Some(e))
           case Ok(cs) => r == Outcome(coord + cs, None)
  {
    var a := LegacyClickArgs(button, times, eventType, x, y, relativeTo);
    if a.Err? {
      return Outcome([], Some(a.error));
    }
    var coord: seq<Call> := [];
    if relativeTo != "pointer" {
      var c := St.SetCoordMode("mouse", relativeTo);
      if c.Err? {
        return Outcome([], Some(c.error));
      }
      coord := [c.value];
    }
    var keys := SendClickKeys(a.value, modifier, blind);
    if keys.Err? {
      return Outcome(coord, Some(keys.error));
    }
    LegacyArgsCommaFree(x, y, button, times, eventType, relativeTo);
    ParseClickString(blind, ModifierOf(modifier), a.value);
    var sent := Sending.Send(keys.value, mode, level, Unset, Unset, delay, st);
    if sent.Err? {
      return Outcome(coord, Some(sent.error));
    }
    r := Outcome(coord + sent.value, None);
  }

  lemma LegacyArgsCommaFree(x: Option<real>, y: Option<real>, button: string, times: int, eventType: int,
                            relativeTo: string)
    requires button in Buttons
    ensures CommaFree(Coords(x, y) + [button] + EventTokens(eventType) + [IntStr(times)]
                      + (if relativeTo == "pointer" then ["relative"] else []))
  {
    if x.Some? { IntStrCommaFree(Trunc(x.value)); }
    if y.Some? { IntStrCommaFree(Trunc(y.value)); }
    IntStrCommaFree(times);
  }

  /** `get_control_under_mouse(simple)`: MouseGetControl flag 2, or 3 for the simple detection. */
  function ControlUnderMouseFlag(simple: Value): (flag: int)
    ensures flag in {2, 3}
    ensures flag == 3 <==> Truthy(simple)
  {
    if Truthy(simple) then 3 else 2
  }
}
