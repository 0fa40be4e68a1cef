/**
 * Key remapping (`remap_key` module, and `remap` in the older tree): which
 * keys the two wildcard hotkeys send, and the registration and switching
 * of the pair. A remapping's hotkey handlers are described as data and run
 * by `Run`, with the host's reply to the GetKeyState query passed in.
 */
module RemapKey {

  import opened Base
  import opened Text
  import Sending
  import St = Settings
  import Hotkey
  import KeyState

  const MouseButtons: set<string> := {"lbutton", "rbutton", "mbutton", "xbutton1", "xbutton2"}
  const CtrlKeys: set<string> := {"ctrl", "lctrl", "rctrl"}
  const AltKeys: set<string> := {"alt", "lalt", "ralt"}

  /** The destination is a mouse button, in any case. */
  predicate IsMouse(destination: string) { Lower(destination) in MouseButtons }

  /** A Ctrl key remapped to an Alt key, both in any case. */
  predicate CtrlToAlt(origin: string, destination: string)
  {
    Lower(origin) in CtrlKeys && Lower(destination) in AltKeys
  }

  datatype Remap = Remap(origin: string, destination: string, mode: Option<string>, level: Option<int>)

  /** The keys the origin hotkey sends: the Ctrl→Alt case releases the origin first. */
  function PressKeys(r: Remap): string
  {
    if !IsMouse(r.destination) && CtrlToAlt(r.origin, r.destination) then
      "{Blind}{" + r.origin + " Up}{" + r.destination + " DownR}"
    else "{Blind}{" + r.destination + " DownR}"
  }

  /** The keys the origin-up hotkey sends. */
  function ReleaseKeys(r: Remap): string
  {
    "{Blind}{" + r.destination + " Up}"
  }

  /** No mouse button is an Alt key, so the two special cases never meet. */
  lemma MouseIsNotAlt(destination: string)
    requires IsMouse(destination)
    ensures Lower(destination) !in AltKeys
  {
  }

  datatype Handler = Press(r: Remap) | Release(r: Remap)

  /** A delay of -1 milliseconds: key_delay for keys, mouse_delay for mouse buttons. */
  const NoDelay: Sending.Delay := Given(-1.0)

  /** `is_key_pressed(destination_key)`: the physical-state query a mouse press makes first. */
  function PressedQuery(r: Remap): Call
  {
    KeyState.GetKeyStateCall(r.destination, Some("P"))
  }

  /** The commands sent so far, followed by what `send` sends or the exception it raises. */
  function Then(pre: seq<Call>, sent: Result<seq<Call>>): Outcome
  {
    match sent
    case Err(e) => Outcome(pre, Some(e))
    case Ok(cs) => Outcome(pre + cs, None)
  }

  /**
   * The handler's `send` call: the keys of its kind, the remap's mode and
   * level, and -1 for the mouse delay of a mouse button or for the key
   * delay otherwise.
   */
  function Sent(h: Handler, st: St.Values): Result<seq<Call>>
  {
    var r := h.r;
    var keys := if h.Press? then PressKeys(r) else ReleaseKeys(r);
    if IsMouse(r.destination) then Sending.Send(keys, r.mode, r.level, Null, Null, NoDelay, st)
    else Sending.Send(keys, r.mode, r.level, NoDelay, Null, Null, st)
  }

  /**
   * Running a handler: what it sends. A mouse press first asks whether the
   * destination button is physically down (`reply` is the host's answer):
   * "" raises ValueError, a truthy answer skips the press.
   */
  function Run(h: Handler, reply: Value, st: St.Values): Outcome
  {
    if IsMouse(h.r.destination) && h.Press? then
      match KeyState.GetKeyState(h.r.destination, reply)
      case Err(e) => Outcome([PressedQuery(h.r)], Some(e))
      case Ok(down) =>
        if down then Outcome([PressedQuery(h.r)], None)
        else Then([PressedQuery(h.r)], Sent(h, st))
    else Then([], Sent(h, st))
  }

  /** The -1 delay is not a given delay, so the handlers never switch Input mode to Event. */
  lemma NoDelayKeepsMode(mode: Option<string>, st: St.Values)
    ensures Sending.GetSendMode(mode, NoDelay, Null, Null, st) == if mode.Some? then mode.value else st.sendMode
    ensures Sending.GetSendMode(mode, Null, Null, NoDelay, st) == if mode.Some? then mode.value else st.sendMode
  {
  }

  /**
   * The handler's `send` fails exactly for an invalid mode or level, and
   * on success its last command sends the handler's keys in the mode
   * given or set.
   */
  lemma SentOutcome(h: Handler, st: St.Values)
    ensures var m := if h.r.mode.Some? then h.r.mode.value else st.sendMode;
      var keys := if h.Press? then PressKeys(h.r) else ReleaseKeys(h.r);
      var sent := Sent(h, st);
      && (sent.Err? <==> m !in Sending.SendModes || (m != "play" && Sending.SendLevel(h.r.level, st).Err?))
      && (sent.Ok? ==> |sent.value| >= 1 && sent.value[|sent.value| - 1] == Call(Sending.SendCommand(m), [S(keys)]))
  {
    var r := h.r;
    var keys := if h.Press? then PressKeys(r) else ReleaseKeys(r);
    NoDelayKeepsMode(r.mode, st);
    if IsMouse(r.destination) {
      Sending.SendOutcome(keys, r.mode, r.level, Null, Null, NoDelay, st);
    } else {
      Sending.SendOutcome(keys, r.mode, r.level, NoDelay, Null, Null, st);
    }
  }

  /** `Then` keeps the commands sent before, fails exactly when `send` does, and ends with what `send` sent last. */
  lemma ThenOutcome(pre: seq<Call>, sent: Result<seq<Call>>)
    ensures var out := Then(pre, sent);
      && |out.calls| >= |pre| && out.calls[..|pre|] == pre
      && (out.error.Some? <==> sent.Err?)
      && (sent.Err? ==> out == Outcome(pre, Some(sent.error)))
      && (sent.Ok? && |sent.value| >= 1 ==>
            |out.calls| > |pre| && out.calls[|out.calls| - 1] == sent.value[|sent.value| - 1])
  {
  }

  /**
   * What a handler sends: a mouse press first sends the GetKeyState query
   * and stops there when the host's reply is "" (ValueError) or truthy
   * (the button is down); otherwise `send` fails exactly for an invalid
   * mode or level, with nothing more sent, and on success its last command
   * sends the handler's keys in the mode given or set.
   */
  lemma RunOutcome(h: Handler, reply: Value, st: St.Values)
    ensures var out := Run(h, reply, st);
      var m := if h.r.mode.Some? then h.r.mode.value else st.sendMode;
      var keys := if h.Press? then PressKeys(h.r) else ReleaseKeys(h.r);
      var asks := IsMouse(h.r.destination) && h.Press?;
      var pre := if asks then [PressedQuery(h.r)] else [];
      && |out.calls| >= |pre| && out.calls[..|pre|] == pre
      && (asks && reply == S("") ==>
            out == Outcome(pre, Some(KeyState.GetKeyState(h.r.destination, reply).error)))
      && (asks && reply != S("") && Truthy(reply) ==> out == Outcome(pre, None))
      && (!asks || (reply != S("") && !Truthy(reply)) ==>
            && (out.error.Some? <==> m !in Sending.SendModes || (m != "play" && Sending.SendLevel(h.r.level, st).Err?))
            && (out.error.Some? ==> out.calls == pre)
            && (out.error.None? ==>
                  |out.calls| > |pre| && out.calls[|out.calls| - 1] == Call(Sending.SendCommand(m), [S(keys)])))
  {
    var asks := IsMouse(h.r.destination) && h.Press?;
    var pre := if asks then [PressedQuery(h.r)] else [];
    var sent := Sent(h, st);
    if asks && reply == S("") {
      assert Run(h, reply, st) == Outcome(pre, Some(KeyState.GetKeyState(h.r.destination, reply).error));
    } else if asks && Truthy(reply) {
      assert Run(h, reply, st) == Outcome(pre, None);
    } else {
      assert Run(h, reply, st) == Then(pre, sent);
      SentOutcome(h, st);
      ThenOutcome(pre, sent);
    }
  }

  /** The frozen record of the two hotkeys. */
  datatype RemappedKey = RemappedKey(originHotkey: string, originUpHotkey: string)

  /** The two wildcard hotkey names: "*<origin>" and "*<origin> Up". */
  function HotkeyNames(origin: string): (k: RemappedKey)
    ensures k.originHotkey == "*" + origin && k.originUpHotkey == k.originHotkey + " Up"
    ensures k.originHotkey != k.originUpHotkey
  {
    var k := RemappedKey("*" + origin, "*" + origin + " Up");
    assert |k.originUpHotkey| == |k.originHotkey| + 3;
    k
  }

  /** The commands registering one hotkey with the context's defaults. */
  function Registration(name: string, callback: Value): seq<Call>
  {
    [Call("Hotkey", [S(name), callback, S("B0P0T1I0")]), Call("HotkeySpecial", [S(name), S("On")])]
  }

  /**
   * `remap_key(ctx, origin, destination, mode=..., level=...)`: the origin
   * hotkey is registered with the press handler, then the origin-up hotkey
   * with the release handler, each with the default options; `press` and
   * `release` are the host's ids for the two handlers.
   */
  method RemapKey(origin: string, destination: string, mode: Option<string>, level: Option<int>,
                  press: nat, release: nat) returns (k: RemappedKey, calls: seq<Call>)
    ensures k == HotkeyNames(origin)
    ensures calls == Registration("*" + origin, Callback(press)) + Registration("*" + origin + " Up", Callback(release))
  {
    k := HotkeyNames(origin);
    Hotkey.DefaultOptions();
    var first := Hotkey.Register(Some(k.originHotkey), Callback(press), [], B(false), Some(0), Some(1), Some(0));
    var second := Hotkey.Register(Some(k.originUpHotkey), Callback(release), [], B(false), Some(0), Some(1), Some(0));
    calls := first.value.calls + second.value.calls;
  }

  /** `enable`, `disable`, `toggle`: the origin hotkey first, then the origin-up one. */
  function Switch(k: RemappedKey, action: string): (cs: seq<Call>)
    requires action in {"On", "Off", "Toggle"}
    ensures |cs| == 2
    ensures cs[0] == Hotkey.Switch(k.originHotkey, action) && cs[1] == Hotkey.Switch(k.originUpHotkey, action)
  {
    [Hotkey.Switch(k.originHotkey, action), Hotkey.Switch(k.originUpHotkey, action)]
  }

  /** Enabling a fresh remapping repeats exactly the On commands its registration sent. */
  lemma EnableRepeatsRegistration(origin: string, press: nat, release: nat)
    ensures var rs := Registration("*" + origin, Callback(press)) + Registration("*" + origin + " Up", Callback(release));
      Switch(HotkeyNames(origin), "On") == [rs[1], rs[3]]
  {
  }

  /** Destination names compare case-insensitively. */
  lemma MouseAnyCase()
    ensures IsMouse("LButton") && IsMouse("XBUTTON2") && !IsMouse("LAlt")
    ensures CtrlToAlt("LCtrl", "RAlt") && !CtrlToAlt("Shift", "Alt")
  {
    assert Lower("LButton") == "lbutton";
    assert Lower("XBUTTON2") == "xbutton2";
    assert Lower("LAlt") == "lalt";
    assert Lower("LCtrl") == "lctrl";
    assert Lower("RAlt") == "ralt";
    assert Lower("Shift") == "shift";
  }
}
