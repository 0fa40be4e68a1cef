/**
 * Hotkeys (`hotkey` module, and `Hotkey` in the older `keys`/`hotkeys`
 * modules and in the `ahk` package): the key-name check, the option string
 * "B/B0 P<n> T<n> I<n>" sent with the Hotkey command, and the commands a
 * registration issues.
 */
module Hotkey {

  import opened Base
  import opened Text

  /** The hotkey options an option string carries. */
  datatype Options = Options(buffer: Option<bool>, priority: Option<int>,
                             maxThreads: Option<int>, inputLevel: Option<int>)

  /** `if buffer: "B" elif buffer is not None: "B0"`. */
  function BufferOf(buffer: Value): (b: Option<bool>)
    ensures b.None? <==> buffer == NoneV
    ensures b.Some? ==> (b.value <==> Truthy(buffer))
  {
    if buffer == NoneV then None else Some(Truthy(buffer))
  }

  /** `Hotkey.set_options` of the `ahk` package tests `buffer is False` / `is True`: other values are ignored. */
  function LegacyBufferOf(buffer: Value): (b: Option<bool>)
    ensures b == Some(false) <==> buffer == B(false)
    ensures b == Some(true) <==> buffer == B(true)
  {
    if buffer == B(false) then Some(false)
    else if buffer == B(true) then Some(true)
    else None
  }

  function BufferPart(b: Option<bool>): string
  {
    if b.None? then "" else if b.value then "B" else "B0"
  }

  /** The option string for o: the buffer flag, then P, T and I, with no separators. */
  function Encode(o: Options): string
  {
    BufferPart(o.buffer) + TaggedInt('P', o.priority) + TaggedInt('T', o.maxThreads) + TaggedInt('I', o.inputLevel)
  }

  /** Reads the leading buffer flag, "B0" or "B", of an option string. */
  function ReadBuffer(s: string): (Option<bool>, string)
  {
    if StartsWith(s, "B0") then (Some(false), s[2..])
    else if StartsWith(s, "B") then (Some(true), s[1..])
    else (None, s)
  }

  /** Reads the P, T and I options, in that order, which must use up the string. */
  function DecodeTagged(s: string): Option<(Option<int>, Option<int>, Option<int>)>
  {
    var p := ReadTagged('P', s);
    var t := ReadTagged('T', p.1);
    var i := ReadTagged('I', t.1);
    if i.1 == "" then Some((p.0, t.0, i.0)) else None
  }

  /** Reads a hotkey option string back into its options. */
  function Decode(s: string): Option<Options>
  {
    var b := ReadBuffer(s);
    match DecodeTagged(b.1)
    case Some((p, t, i)) => Some(Options(b.0, p, t, i))
    case None => None
  }

  lemma ReadBufferPart(b: Option<bool>, rest: string)
    requires rest == [] || rest[0] in {'P', 'T', 'I'}
    ensures ReadBuffer(BufferPart(b) + rest) == (b, rest)
  {
    var s := BufferPart(b) + rest;
    if b.Some? && b.value {
      assert s[1..] == rest;
      assert !StartsWith(s, "B0") by { if |s| >= 2 { assert s[..2][1] == s[1]; } }
    } else if b.Some? {
      assert s[..2] == "B0";
      assert s[2..] == rest;
    } else {
      assert s == rest;
      assert !StartsWith(rest, "B0") by { if |rest| >= 2 { assert rest[..2][0] == rest[0]; } }
      assert !StartsWith(rest, "B") by { if |rest| >= 1 { assert rest[..1][0] == rest[0]; } }
    }
  }

  lemma DecodeTaggedParts(p: Option<int>, t: Option<int>, i: Option<int>)
    ensures DecodeTagged(TaggedInt('P', p) + TaggedInt('T', t) + TaggedInt('I', i)) == Some((p, t, i))
  {
    var tp, tt, ti := TaggedInt('P', p), TaggedInt('T', t), TaggedInt('I', i);
    ReadLastTagged(i);
    ReadMiddleTagged(t, ti);
    ReadFirstTagged(p, tt + ti);
    Append3(tp, tt, ti);
    DecodeTaggedSteps(tp + tt + ti, p, t, i, tt + ti, ti);
  }

  lemma ReadMiddleTagged(t: Option<int>, rest: string)
    requires rest == [] || rest[0] == 'I'
    ensures ReadTagged('T', TaggedInt('T', t) + rest) == (t, rest)
    ensures var s := TaggedInt('T', t) + rest; s == [] || s[0] in "TI"
  {
    ReadTaggedInt('T', t, rest);
  }

  lemma ReadFirstTagged(p: Option<int>, rest: string)
    requires rest == [] || rest[0] in "TI"
    ensures ReadTagged('P', TaggedInt('P', p) + rest) == (p, rest)
  {
    ReadTaggedInt('P', p, rest);
  }

  lemma ReadLastTagged(i: Option<int>)
    ensures ReadTagged('I', TaggedInt('I', i)) == (i, "")
    ensures var s := TaggedInt('I', i); s == [] || s[0] == 'I'
  {
    ReadTaggedInt('I', i, "");
    assert TaggedInt('I', i) + "" == TaggedInt('I', i);
  }

  lemma DecodeTaggedSteps(s: string, p: Option<int>, t: Option<int>, i: Option<int>, r1: string, r2: string)
    requires ReadTagged('P', s) == (p, r1)
    requires ReadTagged('T', r1) == (t, r2)
    requires ReadTagged('I', r2) == (i, "")
    ensures DecodeTagged(s) == Some((p, t, i))
  {
  }

  lemma TaggedHead(p: Option<int>, t: Option<int>, i: Option<int>)
    ensures var rest := TaggedInt('P', p) + TaggedInt('T', t) + TaggedInt('I', i);
      rest == [] || rest[0] in {'P', 'T', 'I'}
  {
  }

  /** Every option string the library sends determines its options. */
  lemma DecodeEncode(o: Options)
    ensures Decode(Encode(o)) == Some(o)
  {
    var rest := TaggedInt('P', o.priority) + TaggedInt('T', o.maxThreads) + TaggedInt('I', o.inputLevel);
    TaggedHead(o.priority, o.maxThreads, o.inputLevel);
    var e := Encode(o);
    Append3(BufferPart(o.buffer), TaggedInt('P', o.priority) + TaggedInt('T', o.maxThreads), TaggedInt('I', o.inputLevel));
    Append3(BufferPart(o.buffer), TaggedInt('P', o.priority), TaggedInt('T', o.maxThreads));
    assert e == BufferPart(o.buffer) + rest;
    ReadBufferPart(o.buffer, rest);
    DecodeTaggedParts(o.priority, o.maxThreads, o.inputLevel);
    DecodeSteps(e, o, rest);
  }

  lemma DecodeSteps(s: string, o: Options, rest: string)
    requires ReadBuffer(s) == (o.buffer, rest)
    requires DecodeTagged(rest) == Some((o.priority, o.maxThreads, o.inputLevel))
    ensures Decode(s) == Some(o)
  {
  }

  /** Different options never share an option string. */
  lemma EncodeInjective(o: Options, o': Options)
    requires Encode(o) == Encode(o')
    ensures o == o'
  {
    DecodeEncode(o);
    DecodeEncode(o');
  }

  /** `Hotkey.update`'s option builder: successive appends, then `"".join(options)`. */
  method OptionString(buffer: Value, priority: Option<int>, maxThreads: Option<int>,
                      inputLevel: Option<int>) returns (optionStr: string)
    ensures optionStr == Encode(Options(BufferOf(buffer), priority, maxThreads, inputLevel))
    ensures Decode(optionStr) == Some(Options(BufferOf(buffer), priority, maxThreads, inputLevel))
  {
    var options: seq<string> := [];
    if Truthy(buffer) {
      ConcatAppend(options, "B");
      options := options + ["B"];
    } else if buffer != NoneV {
      ConcatAppend(options, "B0");
      options := options + ["B0"];
    }
    ghost var prefix := BufferPart(BufferOf(buffer));
    assert Join(options, "") == prefix;
    if priority.Some? {
      ConcatAppend(options, "P" + IntStr(priority.value));
      options := options + ["P" + IntStr(priority.value)];
    }
    prefix := prefix + TaggedInt('P', priority);
    assert Join(options, "") == prefix;
    if maxThreads.Some? {
      ConcatAppend(options, "T" + IntStr(maxThreads.value));
      options := options + ["T" + IntStr(maxThreads.value)];
    }
    prefix := prefix + TaggedInt('T', maxThreads);
    assert Join(options, "") == prefix;
    if inputLevel.Some? {
      ConcatAppend(options, "I" + IntStr(inputLevel.value));
      options := options + ["I" + IntStr(inputLevel.value)];
    }
    optionStr := Join(options, "");
    DecodeEncode(Options(BufferOf(buffer), priority, maxThreads, inputLevel));
  }

  /** The same builder as the `ahk` package's `set_options` writes it. */
  method LegacyOptionString(buffer: Value, priority: Option<int>, maxThreads: Option<int>,
                            inputLevel: Option<int>) returns (optionStr: string)
    ensures optionStr == Encode(Options(LegacyBufferOf(buffer), priority, maxThreads, inputLevel))
  {
    var options: seq<string> := [];
    if buffer == B(false) {
      ConcatAppend(options, "B0");
      options := options + ["B0"];
    } else if buffer == B(true) {
      ConcatAppend(options, "B");
      options := options + ["B"];
    }
    ghost var prefix := BufferPart(LegacyBufferOf(buffer));
    assert Join(options, "") == prefix;
    if priority.Some? {
      ConcatAppend(options, "P" + IntStr(priority.value));
      options := options + ["P" + IntStr(priority.value)];
    }
    prefix := prefix + TaggedInt('P', priority);
    assert Join(options, "") == prefix;
    if maxThreads.Some? {
      ConcatAppend(options, "T" + IntStr(maxThreads.value));
      options := options + ["T" + IntStr(maxThreads.value)];
    }
    prefix := prefix + TaggedInt('T', maxThreads);
    assert Join(options, "") == prefix;
    if inputLevel.Some? {
      ConcatAppend(options, "I" + IntStr(inputLevel.value));
      options := options + ["I" + IntStr(inputLevel.value)];
    }
    optionStr := Join(options, "");
  }

  /** An option string is empty exactly when no option is given. */
  lemma EncodeEmpty(o: Options)
    ensures Encode(o) == "" <==> o == Options(None, None, None, None)
  {
    if Encode(o) == "" {
      DecodeEncode(o);
      assert Decode("") == Some(Options(None, None, None, None));
    }
  }

  function MustBeCallable(func: Value): Error
  {
    TypeError("object " + PyRepr(func) + " must be callable")
  }

  /**
   * `Hotkey.update(func=..., buffer=..., ...)`: a non-callable func is
   * rejected, None leaves the callback alone; one Hotkey command carries
   * the func slot and the option string.
   */
  method Update(keyName: string, func: Value, buffer: Value, priority: Option<int>,
                maxThreads: Option<int>, inputLevel: Option<int>) returns (r: Result<Call>)
    ensures func != NoneV && !Callable(func) ==> r == Err(MustBeCallable(func))
    ensures func == NoneV || Callable(func) ==>
              r.Ok? && r.value == Call("Hotkey", [S(keyName), func,
                                                  S(Encode(Options(BufferOf(buffer), priority, maxThreads, inputLevel)))])
              && r.value.args[2].S? && Decode(r.value.args[2].s) == Some(Options(BufferOf(buffer), priority, maxThreads, inputLevel))
  {
    if func != NoneV && !Callable(func) {
      return Err(MustBeCallable(func));
    }
    var optionStr := OptionString(buffer, priority, maxThreads, inputLevel);
    r := Ok(Call("Hotkey", [S(keyName), func, S(optionStr)]));
  }

  /** `Hotkey.update` of the older `keys`/`hotkeys` modules: func is required and must be callable. */
  method LegacyUpdate(keyName: string, func: Value, buffer: Value, priority: Option<int>,
                      maxThreads: Option<int>, inputLevel: Option<int>) returns (r: Result<Call>)
    ensures !Callable(func) ==> r == Err(MustBeCallable(func))
    ensures func == NoneV ==> r == Err(TypeError("object None must be callable"))
    ensures Callable(func) ==>
              r == Ok(Call("Hotkey", [S(keyName), func,
                                      S(Encode(Options(BufferOf(buffer), priority, maxThreads, inputLevel)))]))
  {
    if !Callable(func) {
      assert PyRepr(NoneV) == "None";
      assert MustBeCallable(NoneV) == TypeError("object None must be callable");
      return Err(MustBeCallable(func));
    }
    var optionStr := OptionString(buffer, priority, maxThreads, inputLevel);
    r := Ok(Call("Hotkey", [S(keyName), func, S(optionStr)]));
  }

  /** What `hotkey(key_name, func, ...)` gives back. */
  datatype Registration = Decorator | Registered(calls: seq<Call>)

  /**
   * `hotkey(ctx, key_name, func, *args, buffer=..., ...)`: a blank name is
   * rejected, a missing func gives a decorator that nothing has been sent
   * for yet; otherwise func is bound to args with `functools.partial`
   * when there are any, and the hotkey is updated and then enabled.
   */
  method Register(keyName: Option<string>, func: Value, args: seq<Value>, buffer: Value,
                  priority: Option<int>, maxThreads: Option<int>, inputLevel: Option<int>)
    returns (r: Result<Registration>)
    ensures keyName.None? || keyName == Some("") ==> r == Err(ValueError("key_name must not be blank"))
    ensures keyName.Some? && keyName.value != "" && func == NoneV ==> r == Ok(Decorator)
    ensures keyName.Some? && keyName.value != "" && func != NoneV && !Callable(func) ==>
              r == Err(if args == [] then MustBeCallable(func) else PartialError)
    ensures keyName.Some? && keyName.value != "" && Callable(func) ==>
              r == Ok(Registered([
                     Call("Hotkey", [S(keyName.value), if args == [] then func else Partial(func, args),
                                     S(Encode(Options(BufferOf(buffer), priority, maxThreads, inputLevel)))]),
                     Call("HotkeySpecial", [S(keyName.value), S("On")])]))
  {
    if keyName.None? || keyName.value == "" {
      return Err(ValueError("key_name must not be blank"));
    }
    if func == NoneV {
      return Ok(Decorator);
    }
    var bound := Bind(func, args);
    if bound.Err? {
      return Err(bound.error);
    }
    var u := Update(keyName.value, bound.value, buffer, priority, maxThreads, inputLevel);
    if u.Err? {
      return Err(u.error);
    }
    r := Ok(Registered([u.value, Call("HotkeySpecial", [S(keyName.value), S("On")])]));
  }

  /** With the keyword defaults (buffer=False, priority=0, max_threads=1, input_level=0) the options are "B0P0T1I0". */
  lemma DefaultOptions()
    ensures Encode(Options(BufferOf(B(false)), Some(0), Some(1), Some(0))) == "B0P0T1I0"
  {
    assert IntStr(0) == "0" && IntStr(1) == "1";
  }

  /**
   * `hotkey(key_name, func)` of the `ahk` package: "" is an AutoHotkey
   * error, a missing func gives a decorator, a non-callable is rejected;
   * the Hotkey command comes first, then the options only when there are any.
   */
  method LegacyRegister(keyName: string, func: Value, buffer: Value, priority: Option<int>,
                        maxThreads: Option<int>, inputLevel: Option<int>) returns (r: Result<Registration>)
    ensures keyName == "" ==> r == Err(AhkError("invalid key name"))
    ensures keyName != "" && func == NoneV ==> r == Ok(Decorator)
    ensures keyName != "" && func != NoneV && !Callable(func) ==> r == Err(MustBeCallable(func))
    ensures keyName != "" && Callable(func) ==>
              var opts := Encode(Options(LegacyBufferOf(buffer), priority, maxThreads, inputLevel));
              r == Ok(Registered([Call("Hotkey", [S(keyName), func])]
                                 + (if opts == "" then [] else [Call("Hotkey", [S(keyName), S(""), S(opts)])])))
  {
    if keyName == "" {
      return Err(AhkError("invalid key name"));
    }
    if func == NoneV {
      return Ok(Decorator);
    }
    if !Callable(func) {
      return Err(MustBeCallable(func));
    }
    var opts := LegacyOptionString(buffer, priority, maxThreads, inputLevel);
    var setOptions := if opts == "" then [] else [Call("Hotkey", [S(keyName), S(""), S(opts)])];
    r := Ok(Registered([Call("Hotkey", [S(keyName), func])] + setOptions));
  }

  /** `set_options` sends nothing exactly when every option is left out or ignored. */
  lemma LegacySetOptionsSilent(buffer: Value, priority: Option<int>, maxThreads: Option<int>,
                               inputLevel: Option<int>)
    ensures Encode(Options(LegacyBufferOf(buffer), priority, maxThreads, inputLevel)) == "" <==>
              buffer != B(false) && buffer != B(true)
              && priority.None? && maxThreads.None? && inputLevel.None?
  {
    EncodeEmpty(Options(LegacyBufferOf(buffer), priority, maxThreads, inputLevel));
  }

  /** `enable`/`disable`/`toggle`. */
  function Switch(keyName: string, action: string): (c: Call)
    requires action in {"On", "Off", "Toggle"}
    ensures c.cmd == "HotkeySpecial" && c.args == [S(keyName), S(action)]
  {
    Call("HotkeySpecial", [S(keyName), S(action)])
  }
}
