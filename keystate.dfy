/**
 * Key state queries and lock-key control (`key_state` module, and the
 * same helpers in the older `keys` modules): GetKeyState results, the
 * [Always]On/Off words, KeyWait options, key-name lookups.
 * Host replies are parameters.
 */
module KeyState {

  import opened Base
  import opened Text

  /** The GetKeyState command for a key and an optional mode ("P", "T"). */
  function GetKeyStateCall(keyName: string, mode: Option<string>): Call
  {
    Call("GetKeyState", [S(keyName), if mode.Some? then S(mode.value) else NoneV])
  }

  /** `_get_key_state`: the host's "" means an unknown key; otherwise its truthiness. */
  function GetKeyState(keyName: string, reply: Value): (r: Result<bool>)
    ensures r.Err? <==> reply == S("")
    ensures r.Err? ==> r.error == ValueError(Repr(keyName) + " is not a valid key or the state of the key could not be determined")
    ensures r.Ok? ==> (r.value <==> Truthy(reply))
  {
    if reply == S("") then Err(ValueError(Repr(keyName) + " is not a valid key or the state of the key could not be determined"))
    else Ok(Truthy(reply))
  }

  /** `_set_key_state(cmd, state, always)`: the word sent to Set*LockState. */
  function LockWord(state: bool, always: bool): string
  {
    (if always then "Always" else "") + (if state then "On" else "Off")
  }

  function SetKeyState(cmd: string, state: bool, always: bool): Call
  {
    Call(cmd, [S(LockWord(state, always))])
  }

  /** The four words are exactly On, Off, AlwaysOn, AlwaysOff, and each names one (state, always) pair. */
  lemma LockWordDecodes(state: bool, always: bool, state': bool, always': bool)
    ensures LockWord(state, always) in {"On", "Off", "AlwaysOn", "AlwaysOff"}
    ensures LockWord(state, always) == LockWord(state', always') <==> state == state' && always == always'
  {
    assert "On" != "Off" && "AlwaysOn" != "AlwaysOff";
    assert "Always" + "On" == "AlwaysOn" && "Always" + "Off" == "AlwaysOff";
    assert "" + "On" == "On" && "" + "Off" == "Off";
    assert "AlwaysOn"[0] != "On"[0] && "AlwaysOn"[0] != "Off"[0];
    assert "AlwaysOff"[0] != "On"[0] && "AlwaysOff"[0] != "Off"[0];
  }

  /**
   * `_set_key_state(cmd, state)` of the `ahk` package: the strings
   * always_on/alwayson and always_off/alwaysoff (any case) select the
   * Always words; any other value goes by truthiness.
   */
  function LegacyLockWord(state: Value): (w: string)
    ensures w in {"On", "Off", "AlwaysOn", "AlwaysOff"}
    ensures state.S? && Lower(state.s) in {"always_on", "alwayson"} ==> w == "AlwaysOn"
    ensures state.S? && Lower(state.s) in {"always_off", "alwaysoff"} ==> w == "AlwaysOff"
    ensures !(state.S? && Lower(state.s) in {"always_on", "alwayson", "always_off", "alwaysoff"}) ==>
              (w == "On" <==> Truthy(state)) && (w == "Off" <==> !Truthy(state))
  {
    if state.S? && Lower(state.s) in {"always_on", "alwayson"} then "AlwaysOn"
    else if state.S? && Lower(state.s) in {"always_off", "alwaysoff"} then "AlwaysOff"
    else if Truthy(state) then "On"
    else "Off"
  }

  /** Upper-case spellings are recognised too, because the comparison lower-cases first. */
  lemma LegacyLockWordCaseInsensitive(s: string)
    ensures LegacyLockWord(S(s)) == LegacyLockWord(S(Lower(s)))
    ensures LegacyLockWord(S("ALWAYSON")) == "AlwaysOn"
  {
    LowerIdempotent(s);
    assert Lower("ALWAYSON") == "alwayson";
  }

  /** `_key_wait`: the options "D" (down), "L" (logical), "T<timeout>", in that order. */
  method KeyWaitOptions(down: bool, logical: bool, timeout: Option<Num>) returns (opts: string)
    ensures opts == (if down then "D" else "") + (if logical then "L" else "")
                    + (if timeout.Some? then "T" + NumStr(timeout.value) else "")
  {
    var options: seq<string> := [];
    if down {
      ConcatAppend(options, "D");
      options := options + ["D"];
    }
    assert Join(options, "") == (if down then "D" else "");
    if logical {
      ConcatAppend(options, "L");
      options := options + ["L"];
    }
    assert Join(options, "") == (if down then "D" else "") + (if logical then "L" else "");
    if timeout.Some? {
      ConcatAppend(options, "T" + NumStr(timeout.value));
      options := options + ["T" + NumStr(timeout.value)];
    }
    opts := Join(options, "");
  }

  /** The KeyWait options can be read back: D first iff down, then L iff logical, then T iff a timeout. */
  lemma KeyWaitOptionsDecode(down: bool, logical: bool, timeout: Option<Num>, opts: string)
    requires opts == (if down then "D" else "") + (if logical then "L" else "")
                     + (if timeout.Some? then "T" + NumStr(timeout.value) else "")
    ensures (|opts| > 0 && opts[0] == 'D') <==> down
    ensures var k := if down then 1 else 0; (|opts| > k && opts[k] == 'L') <==> logical
    ensures var k := (if down then 1 else 0) + (if logical then 1 else 0);
      (|opts| > k && opts[k] == 'T') <==> timeout.Some?
    ensures var k := (if down then 1 else 0) + (if logical then 1 else 0); |opts| == k <==> timeout.None?
  {
  }

  /** The KeyWait command and its result: true unless the host reports a timeout. */
  method KeyWait(keyName: Value, down: bool, logical: bool, timeout: Option<Num>, timedOut: Value)
    returns (c: Call, ok: bool)
    ensures c.cmd == "KeyWait" && |c.args| == 2 && c.args[0] == S(PyStr(keyName))
    ensures c.args[1] == S((if down then "D" else "") + (if logical then "L" else "")
                          + (if timeout.Some? then "T" + NumStr(timeout.value) else ""))
    ensures ok <==> !Truthy(timedOut)
  {
    var opts := KeyWaitOptions(down, logical, timeout);
    c := Call("KeyWait", [S(PyStr(keyName)), S(opts)]);
    ok := !Truthy(timedOut);
  }

  /** `get_key_name_from_vk(vk)` and `get_key_name_from_sc(sc)`: the key names "vk<n>" and "sc<n>". */
  function KeyNameFromCode(prefix: string, code: int): (name: string)
    requires prefix == "vk" || prefix == "sc"
    ensures |name| >= 2 && name[..2] == prefix && ParseInt(name[2..]) == Some(code)
  {
    var name := prefix + IntStr(code);
    assert name[2..] == IntStr(code);
    IntStrRoundTrip(code);
    name
  }

  /** `_get_key(cmd, key)`: a falsy host reply means the key is not valid. */
  function GetKey(cmd: string, key: Value, reply: Value): (r: Result<Value>)
    ensures r.Err? <==> !Truthy(reply)
    ensures r.Err? ==> r.error == ValueError(PyRepr(key) + " is not a valid key")
    ensures r.Ok? ==> r.value == reply
  {
    if !Truthy(reply) then Err(ValueError(PyRepr(key) + " is not a valid key")) else Ok(reply)
  }

  function GetKeyCall(cmd: string, key: Value): Call
  {
    Call(cmd, [S(PyStr(key))])
  }

  const ToggleKeys: set<string> := {"capslock", "numlock", "scrolllock", "insert", "ins"}

  /** `is_key_toggled` of the `ahk` package: only the lock keys (any case), then GetKeyState "T". */
  function IsKeyToggled(keyName: string, reply: Value): (r: Result<bool>)
    ensures Lower(keyName) !in ToggleKeys ==>
              r == Err(ValueError("key_name must be one of CapsLock, NumLock, ScrollLock, or Insert"))
    ensures Lower(keyName) in ToggleKeys ==>
              (r.Err? <==> reply == S("")) && (r.Ok? ==> (r.value <==> Truthy(reply)))
  {
    if Lower(keyName) !in ToggleKeys then
      Err(ValueError("key_name must be one of CapsLock, NumLock, ScrollLock, or Insert"))
    else if reply == S("") then
      Err(ValueError("key_name is invalid or the state of the key could not be determined"))
    else Ok(Truthy(reply))
  }

  lemma IsKeyToggledAnyCase()
    ensures IsKeyToggled("CapsLock", I(1)) == Ok(true)
    ensures IsKeyToggled("INS", I(0)) == Ok(false)
    ensures IsKeyToggled("Shift", I(1)).Err?
  {
    assert Lower("CapsLock") == "capslock";
    assert Lower("INS") == "ins";
    assert Lower("Shift") == "shift";
  }

  /** `send_level(level)` of the `ahk` package. */
  function LegacySendLevel(level: int): (r: Result<Call>)
    ensures r.Ok? <==> 0 <= level <= 100
    ensures r.Ok? ==> r.value == Call("SendLevel", [I(level)])
    ensures r.Err? ==> r.error == ValueError("level must be between 0 and 100")
  {
    if !(0 <= level <= 100) then Err(ValueError("level must be between 0 and 100"))
    else Ok(Call("SendLevel", [I(level)]))
  }
}
