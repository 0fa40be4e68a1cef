/**
 * Sending keystrokes (`sending` module): choosing the send mode, setting the
 * send level and the key/mouse delays, and the command sequence one
 * `send()` issues. The current settings are passed in explicitly.
 */
module Sending {

  import opened Base
  import opened Text
  import St = Settings

  /** A delay argument: UNSET (leave the delay alone), None (use the setting) or seconds. */
  type Delay = Arg<real>

  /** `isinstance(d, (int, float)) and d >= 0`. */
  predicate GivenDelay(d: Delay) { d.Given? && d.value >= 0.0 }

  predicate AnyGivenDelay(keyDelay: Delay, keyDuration: Delay, mouseDelay: Delay)
  {
    GivenDelay(keyDelay) || GivenDelay(keyDuration) || GivenDelay(mouseDelay)
  }

  /** `_get_send_mode`: an explicit mode wins; Input reverts to Event when a delay is given. */
  function GetSendMode(mode: Option<string>, keyDelay: Delay, keyDuration: Delay, mouseDelay: Delay,
                       st: St.Values): (r: string)
    ensures mode.Some? ==> r == mode.value
    ensures mode.None? && st.sendMode == "input" && AnyGivenDelay(keyDelay, keyDuration, mouseDelay) ==> r == "event"
    ensures mode.None? && !AnyGivenDelay(keyDelay, keyDuration, mouseDelay) ==> r == st.sendMode
    ensures mode.None? && st.sendMode != "input" ==> r == st.sendMode
  {
    if mode.Some? then mode.value
    else if st.sendMode == "input" && AnyGivenDelay(keyDelay, keyDuration, mouseDelay) then "event"
    else st.sendMode
  }

  const LevelError := ValueError("level must be between 0 and 100")

  /** `_send_level(level)`: None uses the setting; an explicit level must be in 0..100. */
  function SendLevel(level: Option<int>, st: St.Values): (r: Result<Call>)
    ensures r.Err? <==> level.Some? && !(0 <= level.value <= 100)
    ensures r.Err? ==> r.error == LevelError
    ensures r.Ok? && level.None? ==> r.value == Call("SendLevel", [I(st.sendLevel)])
    ensures r.Ok? && level.Some? ==> r.value == Call("SendLevel", [I(level.value)]) && 0 <= level.value <= 100
  {
    if level.None? then Ok(Call("SendLevel", [I(st.sendLevel)]))
    else if !(0 <= level.value <= 100) then Err(LevelError)
    else Ok(Call("SendLevel", [I(level.value)]))
  }

  /** The milliseconds sent for a delay argument that is not UNSET. */
  function DelayMs(d: Delay, setting: real): int
  {
    St.OptionalMs(Some(if d.Given? then d.value else setting))
  }

  /** `_set_delay`: SetKeyDelay unless a key argument is UNSET, SetMouseDelay unless the mouse one is. */
  function SetDelay(keyDelay: Delay, keyDuration: Delay, mouseDelay: Delay, play: bool,
                    st: St.Values): (cs: seq<Call>)
  {
    var suffix := if play then [S("Play")] else [];
    var keyCall :=
      if keyDelay.Unset? || keyDuration.Unset? then []
      else [Call("SetKeyDelay",
                 [I(DelayMs(keyDelay, if play then st.keyDelayPlay else st.keyDelay)),
                  I(DelayMs(keyDuration, if play then st.keyDurationPlay else st.keyDuration))] + suffix)];
    var mouseCall :=
      if mouseDelay.Unset? then []
      else [Call("SetMouseDelay", [I(DelayMs(mouseDelay, if play then st.mouseDelayPlay else st.mouseDelay))] + suffix)];
    keyCall + mouseCall
  }

  predicate Issues(cs: seq<Call>, cmd: string) { exists k :: 0 <= k < |cs| && cs[k].cmd == cmd }

  /**
   * Which delay commands `_set_delay` issues, in which order, and that every
   * delay it sends is -1 or more, tagged "Play" exactly in play mode.
   */
  lemma SetDelayShape(keyDelay: Delay, keyDuration: Delay, mouseDelay: Delay, play: bool, st: St.Values)
    ensures var cs := SetDelay(keyDelay, keyDuration, mouseDelay, play, st);
      && (Issues(cs, "SetKeyDelay") <==> !keyDelay.Unset? && !keyDuration.Unset?)
      && (Issues(cs, "SetMouseDelay") <==> !mouseDelay.Unset?)
      && |cs| <= 2
      && (|cs| == 2 ==> cs[0].cmd == "SetKeyDelay" && cs[1].cmd == "SetMouseDelay")
      && (forall k :: 0 <= k < |cs| ==>
            (cs[k].args[|cs[k].args| - 1] == S("Play") <==> play)
            && (forall j :: 0 <= j < |cs[k].args| && cs[k].args[j].I? ==> cs[k].args[j].i >= -1))
  {
    var cs := SetDelay(keyDelay, keyDuration, mouseDelay, play, st);
    var nk := if keyDelay.Unset? || keyDuration.Unset? then 0 else 1;
    assert |cs| == nk + (if mouseDelay.Unset? then 0 else 1);
    if nk == 1 {
      assert cs[0].cmd == "SetKeyDelay";
    }
    if !mouseDelay.Unset? {
      assert cs[nk].cmd == "SetMouseDelay";
    }
  }

  /** A None delay is taken from the settings: the `*_play` fields in play mode. */
  lemma SetDelayNoneUsesSettings(play: bool, st: St.Values)
    ensures SetDelay(Null, Null, Null, play, st) ==
      if play then
        [Call("SetKeyDelay", [I(St.OptionalMs(Some(st.keyDelayPlay))), I(St.OptionalMs(Some(st.keyDurationPlay))), S("Play")]),
         Call("SetMouseDelay", [I(St.OptionalMs(Some(st.mouseDelayPlay))), S("Play")])]
      else
        [Call("SetKeyDelay", [I(St.OptionalMs(Some(st.keyDelay))), I(St.OptionalMs(Some(st.keyDuration)))]),
         Call("SetMouseDelay", [I(St.OptionalMs(Some(st.mouseDelay)))])]
  {
    if play {
      var a, b, c := St.OptionalMs(Some(st.keyDelayPlay)), St.OptionalMs(Some(st.keyDurationPlay)), St.OptionalMs(Some(st.mouseDelayPlay));
      assert [I(a), I(b)] + [S("Play")] == [I(a), I(b), S("Play")];
      assert [I(c)] + [S("Play")] == [I(c), S("Play")];
    } else {
      var a, b, c := St.OptionalMs(Some(st.keyDelay)), St.OptionalMs(Some(st.keyDuration)), St.OptionalMs(Some(st.mouseDelay));
      assert [I(a), I(b)] + [] == [I(a), I(b)];
      assert [I(c)] + [] == [I(c)];
    }
  }

  const SendModes: set<string> := {"input", "play", "event"}

  /** `send(keys, mode=..., level=..., key_delay=..., ...)`: the commands issued, or the error raised. */
  function Send(keys: string, mode: Option<string>, level: Option<int>,
                keyDelay: Delay, keyDuration: Delay, mouseDelay: Delay, st: St.Values): (r: Result<seq<Call>>)
  {
    var m := GetSendMode(mode, keyDelay, keyDuration, mouseDelay, st);
    if m == "input" then
      match SendLevel(level, st)
      case Ok(c) => Ok([c, Call("SendInput", [S(keys)])])
      case Err(e) => Err(e)
    else if m == "play" then
      Ok(SetDelay(keyDelay, keyDuration, mouseDelay, true, st) + [Call("SendPlay", [S(keys)])])
    else if m == "event" then
      match SendLevel(level, st)
      case Ok(c) => Ok([c] + SetDelay(keyDelay, keyDuration, mouseDelay, false, st) + [Call("SendEvent", [S(keys)])])
      case Err(e) => Err(e)
    else Err(ValueError(Repr(m) + " is not a valid send mode"))
  }

  function SendCommand(m: string): string
  {
    if m == "input" then "SendInput" else if m == "play" then "SendPlay" else "SendEvent"
  }

  /**
   * `send` fails exactly on an invalid resolved mode or, outside Play mode,
   * an invalid level; otherwise its last command sends the keys in the
   * resolved mode, Play mode never sets the send level, and every other
   * mode sets it first.
   */
  lemma SendOutcome(keys: string, mode: Option<string>, level: Option<int>,
                    keyDelay: Delay, keyDuration: Delay, mouseDelay: Delay, st: St.Values)
    ensures var m := GetSendMode(mode, keyDelay, keyDuration, mouseDelay, st);
      var r := Send(keys, mode, level, keyDelay, keyDuration, mouseDelay, st);
      && (r.Err? <==> m !in SendModes || (m != "play" && SendLevel(level, st).Err?))
      && (m !in SendModes ==> r == Err(ValueError(Repr(m) + " is not a valid send mode")))
      && (r.Ok? ==> |r.value| >= 1 && r.value[|r.value| - 1] == Call(SendCommand(m), [S(keys)]))
      && (r.Ok? && m == "play" ==> !Issues(r.value, "SendLevel"))
      && (r.Ok? && m != "play" ==> r.value[0] == SendLevel(level, st).value)
      && (r.Ok? && m == "input" ==> |r.value| == 2)
  {
    var m := GetSendMode(mode, keyDelay, keyDuration, mouseDelay, st);
    if m == "play" {
      SetDelayShape(keyDelay, keyDuration, mouseDelay, true, st);
    }
  }

  /**
   * With Input as the current mode and no explicit mode, any given delay
   * makes `send` use Event mode and apply that delay.
   */
  lemma GivenKeyDelayRevertsToEvent(keys: string, seconds: real, st: St.Values)
    requires seconds >= 0.0 && st.sendMode == "input"
    ensures Send(keys, None, None, Given(seconds), Null, Null, st) ==
      Ok([Call("SendLevel", [I(st.sendLevel)]),
          Call("SetKeyDelay", [I(Ms(seconds)), I(St.OptionalMs(Some(st.keyDuration)))]),
          Call("SetMouseDelay", [I(St.OptionalMs(Some(st.mouseDelay)))]),
          Call("SendEvent", [S(keys)])])
  {
    var a, b, c := Ms(seconds), St.OptionalMs(Some(st.keyDuration)), St.OptionalMs(Some(st.mouseDelay));
    assert DelayMs(Given(seconds), st.keyDelay) == a;
    assert [I(a), I(b)] + [] == [I(a), I(b)];
    assert [I(c)] + [] == [I(c)];
    var d := SetDelay(Given(seconds), Null, Null, false, st);
    assert d == [Call("SetKeyDelay", [I(a), I(b)]), Call("SetMouseDelay", [I(c)])];
    assert GetSendMode(None, Given(seconds), Null, Null, st) == "event";
    var lv := Call("SendLevel", [I(st.sendLevel)]);
    assert SendLevel(None, st) == Ok(lv);
    assert [lv] + d + [Call("SendEvent", [S(keys)])] ==
      [lv, Call("SetKeyDelay", [I(a), I(b)]), Call("SetMouseDelay", [I(c)]), Call("SendEvent", [S(keys)])];
  }
}
