/**
 * Hotstrings (`hotstring` module, and `Hotstring` in the older `keys` and
 * `hotkeys` modules): the trigger's case folding, the identity options,
 * and the option string "C? ?* O B K P T S Z" of the Hotstring command.
 */
module Hotstring {

  import opened Base
  import opened Text
  import Sending
  import St = Settings
  import Hotkey

  /** A registered hotstring is identified by its trigger, case sensitivity and word sensitivity. */
  datatype Hotstring = Hotstring(trigger: string, caseSensitive: bool, replaceInsideWord: bool)

  /** `Hotstring(...)` with `__post_init__`: a case-insensitive trigger is stored lower-cased. */
  function NewHotstring(trigger: string, caseSensitive: bool, replaceInsideWord: bool): (h: Hotstring)
    ensures h.caseSensitive == caseSensitive && h.replaceInsideWord == replaceInsideWord
    ensures caseSensitive ==> h.trigger == trigger
    ensures !caseSensitive ==> h.trigger == Lower(trigger)
  {
    Hotstring(if caseSensitive then trigger else Lower(trigger), caseSensitive, replaceInsideWord)
  }

  /** "btw" and "BTW" name the same case-insensitive hotstring, and different case-sensitive ones. */
  lemma TriggerCaseFolding(t: string, t': string, r: bool)
    ensures Lower(t) == Lower(t') ==> NewHotstring(t, false, r) == NewHotstring(t', false, r)
    ensures NewHotstring(t, true, r) == NewHotstring(t', true, r) <==> t == t'
    ensures NewHotstring("btw", false, r) == NewHotstring("BTW", false, r)
    ensures NewHotstring("btw", true, r) != NewHotstring("BTW", true, r)
  {
    assert Lower("BTW") == "btw";
    assert "btw"[0] != "BTW"[0];
  }

  /** `_id_options`: "C" when case-sensitive, then "?" or "?0". */
  function IdOptions(h: Hotstring): (s: string)
    ensures s == (if h.caseSensitive then "C" else "") + (if h.replaceInsideWord then "?" else "?0")
    ensures |s| == (if h.caseSensitive then 1 else 0) + (if h.replaceInsideWord then 1 else 2)
  {
    (if h.caseSensitive then "C" else "") + (if h.replaceInsideWord then "?" else "?0")
  }

  /** The identity options tell the two flags apart. */
  lemma IdOptionsInjective(h: Hotstring, h': Hotstring)
    requires IdOptions(h) == IdOptions(h')
    ensures h.caseSensitive == h'.caseSensitive && h.replaceInsideWord == h'.replaceInsideWord
  {
    var s, s' := IdOptions(h), IdOptions(h');
    assert (s[0] == 'C') == h.caseSensitive;
    assert (s'[0] == 'C') == h'.caseSensitive;
  }

  /** `enable`/`disable`/`toggle`: the hotstring is addressed by its identity options and trigger. */
  function Switch(h: Hotstring, action: string): (c: Call)
    requires action in {"On", "Off", "Toggle"}
    ensures c.cmd == "Hotstring" && |c.args| == 3 && c.args[1] == S("") && c.args[2] == S(action)
    ensures c.args[0] == S(":" + IdOptions(h) + ":" + h.trigger)
  {
    Call("Hotstring", [S(":" + IdOptions(h) + ":" + h.trigger), S(""), S(action)])
  }

  // ----- the option string -----

  datatype CaseOption = CaseSensitive | ConformToCase | KeepCase   // "C", "C0", "C1"
  datatype SendMode = SendInput | SendPlay | SendEvent             // "SI", "SP", "SE"

  /**
   * The options one Hotstring command carries. A switch `Some(true)` is the
   * bare letter, `Some(false)` the letter followed by "0", None its absence;
   * star `Some(true)` ("*") means no end character is needed.
   */
  datatype Options = Options(
    case_: Option<CaseOption>, insideWord: bool, star: Option<bool>, omit: Option<bool>,
    backspace: Option<bool>, keyDelay: Option<string>, priority: Option<int>,
    text: Option<bool>, mode: Option<SendMode>, reset: Option<bool>)

  /** `if v: on elif v is not None: off`. */
  function Switch3(v: Value): (r: Option<bool>)
    ensures r == Some(true) <==> Truthy(v)
    ensures r.None? <==> v == NoneV
  {
    if Truthy(v) then Some(true) else if v != NoneV then Some(false) else None
  }

  /** `K{key_delay}` after a positive delay in seconds is turned into whole milliseconds; others go verbatim. */
  function KeyDelayText(n: Num): (t: string)
    ensures n.Value() > 0.0 ==> t == IntStr(Ms(n.Value()))
    ensures n.Value() <= 0.0 ==> t == NumStr(n)
  {
    if n.Value() > 0.0 then IntStr(Ms(n.Value())) else NumStr(n)
  }

  function ModeOf(mode: string): Option<SendMode>
  {
    if mode == "input" then Some(SendInput)
    else if mode == "play" then Some(SendPlay)
    else if mode == "event" then Some(SendEvent)
    else None
  }

  /**
   * The options `Hotstring.update` writes for its arguments, or the
   * ValueError an unknown send mode raises.
   */
  function OptionsOf(h: Hotstring, conformToCase: Value, waitForEndChar: Value, omitEndChar: Value,
                     backspacing: Value, priority: Option<int>, text: Value, mode: Option<string>,
                     keyDelay: Option<Num>, resetRecognizer: Value): (r: Result<Options>)
    ensures r.Err? <==> mode.Some? && mode.value !in Sending.SendModes
    ensures r.Err? ==> r.error == ValueError(Repr(mode.value) + " is not a valid send mode")
  {
    if mode.Some? && ModeOf(mode.value).None? then
      Err(ValueError(Repr(mode.value) + " is not a valid send mode"))
    else
      Ok(Options(CaseOf(h, conformToCase), h.replaceInsideWord, StarOf(waitForEndChar, omitEndChar),
                 OmitOf(waitForEndChar, omitEndChar), Switch3(backspacing),
                 if keyDelay.Some? then Some(KeyDelayText(keyDelay.value)) else None,
                 priority, Switch3(text), if mode.Some? then ModeOf(mode.value) else None,
                 Switch3(resetRecognizer)))
  }

  /** C for a case-sensitive hotstring, otherwise C0 for a truthy conform_to_case, C1 for another non-None one. */
  function CaseOf(h: Hotstring, conformToCase: Value): Option<CaseOption>
  {
    if h.caseSensitive then Some(CaseSensitive)
    else if Truthy(conformToCase) then Some(ConformToCase)
    else if conformToCase != NoneV then Some(KeepCase)
    else None
  }

  /** "*" for `wait_for_end_char is False`; "*0" with a truthy omit_end_char or a truthy wait_for_end_char. */
  function StarOf(waitForEndChar: Value, omitEndChar: Value): Option<bool>
  {
    if waitForEndChar == B(false) then Some(true)
    else if Truthy(omitEndChar) || Truthy(waitForEndChar) then Some(false)
    else None
  }

  /** "O" for a truthy omit_end_char, "O0" for `omit_end_char is False`, unless wait_for_end_char is False. */
  function OmitOf(waitForEndChar: Value, omitEndChar: Value): Option<bool>
  {
    if waitForEndChar == B(false) then None
    else if Truthy(omitEndChar) then Some(true)
    else if omitEndChar == B(false) then Some(false)
    else None
  }

  /** The documented case and end-character rules. */
  lemma OptionRules(h: Hotstring, conformToCase: Value, waitForEndChar: Value, omitEndChar: Value,
                    backspacing: Value, priority: Option<int>, text: Value, mode: Option<string>,
                    keyDelay: Option<Num>, resetRecognizer: Value)
    requires mode.None? || mode.value in Sending.SendModes
    ensures var o := OptionsOf(h, conformToCase, waitForEndChar, omitEndChar, backspacing, priority,
                               text, mode, keyDelay, resetRecognizer).value;
      && (h.caseSensitive ==> o.case_ == Some(CaseSensitive))
      && (!h.caseSensitive && Truthy(conformToCase) ==> o.case_ == Some(ConformToCase))
      && (!h.caseSensitive && !Truthy(conformToCase) ==> (o.case_ == Some(KeepCase) <==> conformToCase != NoneV))
      && (o.case_.None? <==> !h.caseSensitive && conformToCase == NoneV)
      && (waitForEndChar == B(false) ==> o.star == Some(true) && o.omit.None?)
      && (waitForEndChar != B(false) && Truthy(omitEndChar) ==> o.star == Some(false) && o.omit == Some(true))
      && (o.star == Some(true) <==> waitForEndChar == B(false))
      && (o.omit == Some(true) ==> o.star == Some(false))
      && (o.keyDelay.Some? <==> keyDelay.Some?)
      && (mode.Some? ==> o.mode.Some?)
  {
  }

  function CasePart(c: Option<CaseOption>): string
  {
    match c
    case None => ""
    case Some(CaseSensitive) => "C"
    case Some(ConformToCase) => "C0"
    case Some(KeepCase) => "C1"
  }

  /** A switch letter c: "c", "c0" or nothing. */
  function SwitchPart(c: char, v: Option<bool>): string
  {
    if v.None? then "" else if v.value then [c] else [c, '0']
  }

  function KeyDelayPart(t: Option<string>): string
  {
    if t.Some? then "K" + t.value else ""
  }

  function ModePart(m: Option<SendMode>): string
  {
    match m
    case None => ""
    case Some(SendInput) => "SI"
    case Some(SendPlay) => "SP"
    case Some(SendEvent) => "SE"
  }

  /** The option string for o, in the fixed order C ? * O B K P T S Z. */
  function Encode(o: Options): string
  {
    CasePart(o.case_) + (SwitchPart('?', Some(o.insideWord)) + EncodeEndChars(o))
  }

  function EncodeEndChars(o: Options): string
  {
    SwitchPart('*', o.star) + (SwitchPart('O', o.omit) + (SwitchPart('B', o.backspace) + EncodeRest(o)))
  }

  function EncodeRest(o: Options): string
  {
    KeyDelayPart(o.keyDelay) + (TaggedInt('P', o.priority) + (SwitchPart('T', o.text)
      + (ModePart(o.mode) + SwitchPart('Z', o.reset))))
  }

  // ----- reading an option string back -----

  predicate IsUpper(c: char) { 'A' <= c <= 'Z' }

  predicate NoUpper(s: string) { forall i :: 0 <= i < |s| ==> !IsUpper(s[i]) }

  /** Every key delay the library writes is free of option letters (float repr is lower case). */
  predicate PlainDelay(keyDelay: Option<Num>)
  {
    keyDelay.Some? ==> NoUpper(KeyDelayText(keyDelay.value))
  }

  /** The length of the run of characters that are not upper-case letters at the front of s. */
  function LowerRun(s: string): (k: nat)
    ensures k <= |s| && NoUpper(s[..k])
    ensures k < |s| ==> IsUpper(s[k])
  {
    if |s| == 0 || IsUpper(s[0]) then 0
    else
      var k := LowerRun(s[1..]) + 1;
      assert s[..k] == [s[0]] + s[1..][..k - 1];
      k
  }

  lemma {:induction false} LowerRunAppend(t: string, rest: string)
    requires NoUpper(t)
    requires rest == [] || IsUpper(rest[0])
    ensures LowerRun(t + rest) == |t|
  {
    if |t| > 0 {
      assert (t + rest)[1..] == t[1..] + rest;
      LowerRunAppend(t[1..], rest);
    } else {
      assert t + rest == rest;
    }
  }

  function ReadCase(s: string): (Option<CaseOption>, string)
  {
    if StartsWith(s, "C0") then (Some(ConformToCase), s[2..])
    else if StartsWith(s, "C1") then (Some(KeepCase), s[2..])
    else if StartsWith(s, "C") then (Some(CaseSensitive), s[1..])
    else (None, s)
  }

  function ReadSwitch(c: char, s: string): (Option<bool>, string)
  {
    if |s| >= 2 && s[0] == c && s[1] == '0' then (Some(false), s[2..])
    else if |s| >= 1 && s[0] == c then (Some(true), s[1..])
    else (None, s)
  }

  function ReadKeyDelay(s: string): (Option<string>, string)
  {
    if |s| >= 1 && s[0] == 'K' then
      var k := LowerRun(s[1..]);
      (Some(s[1..][..k]), s[1..][k..])
    else (None, s)
  }

  function ReadMode(s: string): (Option<SendMode>, string)
  {
    if StartsWith(s, "SI") then (Some(SendInput), s[2..])
    else if StartsWith(s, "SP") then (Some(SendPlay), s[2..])
    else if StartsWith(s, "SE") then (Some(SendEvent), s[2..])
    else (None, s)
  }

  /** What the options C ? * O B at the front of a string say, and what follows them. */
  datatype Front = Front(case_: Option<CaseOption>, insideWord: Option<bool>, star: Option<bool>,
                         omit: Option<bool>, backspace: Option<bool>, rest: string)

  function DecodeFront(s: string): Front
  {
    var c := ReadCase(s);
    var q := ReadSwitch('?', c.1);
    var e := ReadSwitch('*', q.1);
    var o := ReadSwitch('O', e.1);
    var b := ReadSwitch('B', o.1);
    Front(c.0, q.0, e.0, o.0, b.0, b.1)
  }

  /** What the options K P T S Z say, when they use up the string. */
  datatype Back = Back(keyDelay: Option<string>, priority: Option<int>, text: Option<bool>,
                       mode: Option<SendMode>, reset: Option<bool>)

  function DecodeBack(s: string): Option<Back>
  {
    var k := ReadKeyDelay(s);
    var p := ReadTagged('P', k.1);
    var x := ReadSwitch('T', p.1);
    var m := ReadMode(x.1);
    var z := ReadSwitch('Z', m.1);
    if z.1 == "" then Some(Back(k.0, p.0, x.0, m.0, z.0)) else None
  }

  /** Reads an option string back; None unless it holds exactly the options, in order. */
  function Decode(s: string): Option<Options>
  {
    var f := DecodeFront(s);
    match DecodeBack(f.rest)
    case Some(b) =>
      if f.insideWord.Some? then
        Some(Options(f.case_, f.insideWord.value, f.star, f.omit, f.backspace,
                     b.keyDelay, b.priority, b.text, b.mode, b.reset))
      else None
    case None => None
  }

  predicate HeadIn(s: string, cs: set<char>) { s == [] || s[0] in cs }

  lemma ReadSwitchPart(c: char, v: Option<bool>, rest: string)
    requires rest == [] || (rest[0] != '0' && rest[0] != c)
    ensures ReadSwitch(c, SwitchPart(c, v) + rest) == (v, rest)
  {
    var s := SwitchPart(c, v) + rest;
    if v == Some(true) {
      assert s[1..] == rest;
    } else if v == Some(false) {
      assert s[2..] == rest;
    } else {
      assert s == rest;
    }
  }

  lemma ReadCasePart(v: Option<CaseOption>, rest: string)
    requires rest == [] || rest[0] == '?'
    ensures ReadCase(CasePart(v) + rest) == (v, rest)
  {
    var s := CasePart(v) + rest;
    match v {
      case None =>
        assert s == rest;
        assert !StartsWith(s, "C0") by { if |s| >= 2 { assert s[..2][0] == s[0]; } }
        assert !StartsWith(s, "C1") by { if |s| >= 2 { assert s[..2][0] == s[0]; } }
        assert !StartsWith(s, "C") by { if |s| >= 1 { assert s[..1][0] == s[0]; } }
      case Some(CaseSensitive) =>
        assert s[1..] == rest;
        assert !StartsWith(s, "C0") by { if |s| >= 2 { assert s[..2][1] == s[1]; } }
        assert !StartsWith(s, "C1") by { if |s| >= 2 { assert s[..2][1] == s[1]; } }
      case Some(ConformToCase) =>
        assert s[..2] == "C0" && s[2..] == rest;
      case Some(KeepCase) =>
        assert s[..2] == "C1" && s[2..] == rest;
        assert !StartsWith(s, "C0") by { assert s[..2][1] == s[1]; }
    }
  }

  lemma ReadModePart(v: Option<SendMode>, rest: string)
    requires rest == [] || rest[0] == 'Z'
    ensures ReadMode(ModePart(v) + rest) == (v, rest)
  {
    var s := ModePart(v) + rest;
    match v {
      case None =>
        assert s == rest;
        assert !StartsWith(s, "SI") by { if |s| >= 2 { assert s[..2][0] == s[0]; } }
        assert !StartsWith(s, "SP") by { if |s| >= 2 { assert s[..2][0] == s[0]; } }
        assert !StartsWith(s, "SE") by { if |s| >= 2 { assert s[..2][0] == s[0]; } }
      case Some(SendInput) =>
        assert s[..2] == "SI" && s[2..] == rest;
      case Some(SendPlay) =>
        assert s[..2] == "SP" && s[2..] == rest;
        assert !StartsWith(s, "SI") by { assert s[..2][1] == s[1]; }
      case Some(SendEvent) =>
        assert s[..2] == "SE" && s[2..] == rest;
        assert !StartsWith(s, "SI") by { assert s[..2][1] == s[1]; }
        assert !StartsWith(s, "SP") by { assert s[..2][1] == s[1]; }
    }
  }

  lemma ReadKeyDelayPart(v: Option<string>, rest: string)
    requires v.Some? ==> NoUpper(v.value)
    requires rest == [] || (IsUpper(rest[0]) && rest[0] != 'K')
    ensures ReadKeyDelay(KeyDelayPart(v) + rest) == (v, rest)
  {
    var s := KeyDelayPart(v) + rest;
    if v.Some? {
      assert s[1..] == v.value + rest;
      LowerRunAppend(v.value, rest);
      assert (v.value + rest)[..|v.value|] == v.value;
      assert (v.value + rest)[|v.value|..] == rest;
    } else {
      assert s == rest;
    }
  }

  /** The options from K on are read back. */
  lemma DecodeRest(o: Options)
    requires o.keyDelay.Some? ==> NoUpper(o.keyDelay.value)
    ensures DecodeBack(EncodeRest(o)) == Some(Back(o.keyDelay, o.priority, o.text, o.mode, o.reset))
    ensures HeadIn(EncodeRest(o), {'K', 'P', 'T', 'S', 'Z'})
  {
    var zs := SwitchPart('Z', o.reset);
    var ms := ModePart(o.mode) + zs;
    var ts := SwitchPart('T', o.text) + ms;
    var ps := TaggedInt('P', o.priority) + ts;
    var ks := KeyDelayPart(o.keyDelay) + ps;
    ZStep(o.reset);
    ModeStep(o.mode, zs);
    TextStep(o.text, ms);
    PriorityStep(o.priority, ts);
    KeyDelayStep(o.keyDelay, ps);
    assert EncodeRest(o) == ks;
    DecodeBackSteps(ks, Back(o.keyDelay, o.priority, o.text, o.mode, o.reset), ps, ts, ms, zs);
  }

  lemma ZStep(v: Option<bool>)
    ensures ReadSwitch('Z', SwitchPart('Z', v)) == (v, "") && HeadIn(SwitchPart('Z', v), {'Z'})
  {
    ReadSwitchPart('Z', v, "");
    assert SwitchPart('Z', v) + "" == SwitchPart('Z', v);
  }

  lemma ModeStep(v: Option<SendMode>, rest: string)
    requires HeadIn(rest, {'Z'})
    ensures ReadMode(ModePart(v) + rest) == (v, rest) && HeadIn(ModePart(v) + rest, {'S', 'Z'})
  {
    ReadModePart(v, rest);
  }

  lemma TextStep(v: Option<bool>, rest: string)
    requires HeadIn(rest, {'S', 'Z'})
    ensures ReadSwitch('T', SwitchPart('T', v) + rest) == (v, rest) && HeadIn(SwitchPart('T', v) + rest, {'T', 'S', 'Z'})
  {
    ReadSwitchPart('T', v, rest);
  }

  lemma PriorityStep(v: Option<int>, rest: string)
    requires HeadIn(rest, {'T', 'S', 'Z'})
    ensures ReadTagged('P', TaggedInt('P', v) + rest) == (v, rest)
    ensures HeadIn(TaggedInt('P', v) + rest, {'P', 'T', 'S', 'Z'})
  {
    ReadTaggedInt('P', v, rest);
  }

  lemma KeyDelayStep(v: Option<string>, rest: string)
    requires v.Some? ==> NoUpper(v.value)
    requires HeadIn(rest, {'P', 'T', 'S', 'Z'})
    ensures ReadKeyDelay(KeyDelayPart(v) + rest) == (v, rest)
    ensures HeadIn(KeyDelayPart(v) + rest, {'K', 'P', 'T', 'S', 'Z'})
  {
    ReadKeyDelayPart(v, rest);
  }

  lemma DecodeBackSteps(s: string, b: Back, r1: string, r2: string, r3: string, r4: string)
    requires ReadKeyDelay(s) == (b.keyDelay, r1)
    requires ReadTagged('P', r1) == (b.priority, r2)
    requires ReadSwitch('T', r2) == (b.text, r3)
    requires ReadMode(r3) == (b.mode, r4)
    requires ReadSwitch('Z', r4) == (b.reset, "")
    ensures DecodeBack(s) == Some(b)
  {
  }

  /** The options C ? * O B are read back from before any rest that starts with K, P, T, S or Z. */
  lemma DecodeFrontPart(o: Options, rs: string)
    requires HeadIn(rs, {'K', 'P', 'T', 'S', 'Z'})
    ensures DecodeFront(CasePart(o.case_) + (SwitchPart('?', Some(o.insideWord)) + (SwitchPart('*', o.star)
              + (SwitchPart('O', o.omit) + (SwitchPart('B', o.backspace) + rs)))))
            == Front(o.case_, Some(o.insideWord), o.star, o.omit, o.backspace, rs)
  {
    var bs := SwitchPart('B', o.backspace) + rs;
    ReadSwitchPart('B', o.backspace, rs);
    var os := SwitchPart('O', o.omit) + bs;
    ReadSwitchPart('O', o.omit, bs);
    var es := SwitchPart('*', o.star) + os;
    ReadSwitchPart('*', o.star, os);
    var qs := SwitchPart('?', Some(o.insideWord)) + es;
    ReadSwitchPart('?', Some(o.insideWord), es);
    ReadCasePart(o.case_, qs);
  }

  /** The whole option string is read back. */
  lemma DecodeEncode(o: Options)
    requires o.keyDelay.Some? ==> NoUpper(o.keyDelay.value)
    ensures Decode(Encode(o)) == Some(o)
  {
    DecodeRest(o);
    DecodeFrontPart(o, EncodeRest(o));
  }

  /** Different options never share an option string. */
  lemma EncodeInjective(o: Options, o': Options)
    requires o.keyDelay.Some? ==> NoUpper(o.keyDelay.value)
    requires o'.keyDelay.Some? ==> NoUpper(o'.keyDelay.value)
    requires Encode(o) == Encode(o')
    ensures o == o'
  {
    DecodeEncode(o);
    DecodeEncode(o');
  }

  lemma IntStrNoUpper(i: int)
    ensures NoUpper(IntStr(i))
  {
    var s := IntStr(i);
    if i < 0 {
      assert forall k :: 1 <= k < |s| ==> s[k] == NatStr(-i)[k - 1];
    }
  }

  /** An int key delay, and every positive one, is written as an int. */
  lemma IntDelaysArePlain(n: Num)
    requires n.PyInt? || n.Value() > 0.0
    ensures PlainDelay(Some(n))
  {
    if n.Value() > 0.0 { IntStrNoUpper(Ms(n.Value())); } else { IntStrNoUpper(n.i); }
  }

  /**
   * `Hotstring.update`'s option builder: successive appends in the order
   * C ? * O B K P T S Z, then `"".join(options)`; an unknown mode raises.
   */
  method OptionString(h: Hotstring, conformToCase: Value, waitForEndChar: Value, omitEndChar: Value,
                      backspacing: Value, priority: Option<int>, text: Value, mode: Option<string>,
                      keyDelay: Option<Num>, resetRecognizer: Value) returns (r: Result<string>)
    ensures var o := OptionsOf(h, conformToCase, waitForEndChar, omitEndChar, backspacing, priority,
                               text, mode, keyDelay, resetRecognizer);
      && (r.Err? <==> o.Err?)
      && (r.Err? ==> r.error == o.error)
      && (r.Ok? ==> r.value == Encode(o.value))
      && (r.Ok? && PlainDelay(keyDelay) ==> Decode(r.value) == Some(o.value))
  {
    var options: seq<string> := [];
    options := AppendCase(options, h, conformToCase);
    options := AppendSwitch(options, '?', B(h.replaceInsideWord));
    options := AppendEndChars(options, waitForEndChar, omitEndChar);
    options := AppendSwitch(options, 'B', backspacing);
    options := AppendKeyDelay(options, keyDelay);
    options := AppendPriority(options, priority);
    options := AppendSwitch(options, 'T', text);
    var m := AppendMode(options, mode);
    if m.Err? {
      return Err(m.error);
    }
    options := AppendSwitch(m.value, 'Z', resetRecognizer);
    r := Ok(Join(options, ""));
    OptionsOfParts(h, conformToCase, waitForEndChar, omitEndChar, backspacing, priority, text, mode,
                   keyDelay, resetRecognizer);
  }

  /** `if cond: append(c) elif v is not None: append(c + "0")`. */
  method AppendSwitch(options: seq<string>, c: char, v: Value) returns (options': seq<string>)
    ensures Join(options', "") == Join(options, "") + SwitchPart(c, Switch3(v))
  {
    options' := options;
    if Truthy(v) {
      ConcatAppend(options, [c]);
      options' := options + [[c]];
    } else if v != NoneV {
      ConcatAppend(options, [c, '0']);
      options' := options + [[c, '0']];
    } else {
      assert Join(options, "") + "" == Join(options, "");
    }
  }

  /** The case option: "C", "C0", "C1" or nothing. */
  method AppendCase(options: seq<string>, h: Hotstring, conformToCase: Value) returns (options': seq<string>)
    ensures Join(options', "") == Join(options, "") + CasePart(CaseOf(h, conformToCase))
  {
    options' := options;
    if h.caseSensitive {
      ConcatAppend(options, "C");
      options' := options + ["C"];
    } else if Truthy(conformToCase) {
      ConcatAppend(options, "C0");
      options' := options + ["C0"];
    } else if conformToCase != NoneV {
      ConcatAppend(options, "C1");
      options' := options + ["C1"];
    } else {
      assert Join(options, "") + "" == Join(options, "");
    }
  }

  /** The end-character options "*", "*0O", or "*0" and "O0" each when they apply. */
  method AppendEndChars(options: seq<string>, waitForEndChar: Value, omitEndChar: Value) returns (options': seq<string>)
    ensures Join(options', "") == Join(options, "") + SwitchPart('*', StarOf(waitForEndChar, omitEndChar))
                                  + SwitchPart('O', OmitOf(waitForEndChar, omitEndChar))
  {
    options' := options;
    ghost var j := Join(options, "");
    if waitForEndChar == B(false) {
      ConcatAppend(options', "*");
      options' := options' + ["*"];
      assert j + "*" + "" == j + "*";
    } else if Truthy(omitEndChar) {
      ConcatAppend(options', "*0");
      options' := options' + ["*0"];
      ConcatAppend(options', "O");
      options' := options' + ["O"];
    } else {
      if Truthy(waitForEndChar) {
        ConcatAppend(options', "*0");
        options' := options' + ["*0"];
      }
      assert Join(options', "") == j + SwitchPart('*', StarOf(waitForEndChar, omitEndChar));
      if omitEndChar == B(false) {
        ConcatAppend(options', "O0");
        options' := options' + ["O0"];
      }
    }
  }

  /** "K<delay>" when a key delay is given. */
  method AppendKeyDelay(options: seq<string>, keyDelay: Option<Num>) returns (options': seq<string>)
    ensures Join(options', "") == Join(options, "")
                                  + KeyDelayPart(if keyDelay.Some? then Some(KeyDelayText(keyDelay.value)) else None)
  {
    options' := options;
    if keyDelay.Some? {
      var delay := KeyDelayText(keyDelay.value);
      ConcatAppend(options, "K" + delay);
      options' := options + ["K" + delay];
    } else {
      assert Join(options, "") + "" == Join(options, "");
    }
  }

  /** "P<priority>" when a priority is given. */
  method AppendPriority(options: seq<string>, priority: Option<int>) returns (options': seq<string>)
    ensures Join(options', "") == Join(options, "") + TaggedInt('P', priority)
  {
    options' := options;
    if priority.Some? {
      ConcatAppend(options, "P" + IntStr(priority.value));
      options' := options + ["P" + IntStr(priority.value)];
    } else {
      assert Join(options, "") + "" == Join(options, "");
    }
  }

  /** "SI", "SP" or "SE" for the three send modes; any other mode is a ValueError. */
  method AppendMode(options: seq<string>, mode: Option<string>) returns (r: Result<seq<string>>)
    ensures r.Err? <==> mode.Some? && ModeOf(mode.value).None?
    ensures r.Err? ==> r.error == ValueError(Repr(mode.value) + " is not a valid send mode")
    ensures r.Ok? ==> Join(r.value, "") == Join(options, "") + ModePart(if mode.Some? then ModeOf(mode.value) else None)
  {
    if mode == Some("input") {
      ConcatAppend(options, "SI");
      r := Ok(options + ["SI"]);
    } else if mode == Some("play") {
      ConcatAppend(options, "SP");
      r := Ok(options + ["SP"]);
    } else if mode == Some("event") {
      ConcatAppend(options, "SE");
      r := Ok(options + ["SE"]);
    } else if mode.Some? {
      r := Err(ValueError(Repr(mode.value) + " is not a valid send mode"));
    } else {
      assert Join(options, "") + "" == Join(options, "");
      r := Ok(options);
    }
  }

  /** The option string for the arguments, part by part, and what reading it back gives. */
  lemma OptionsOfParts(h: Hotstring, conformToCase: Value, waitForEndChar: Value, omitEndChar: Value,
                       backspacing: Value, priority: Option<int>, text: Value, mode: Option<string>,
                       keyDelay: Option<Num>, resetRecognizer: Value)
    requires mode.None? || ModeOf(mode.value).Some?
    ensures var o := OptionsOf(h, conformToCase, waitForEndChar, omitEndChar, backspacing, priority,
                               text, mode, keyDelay, resetRecognizer);
      && o.Ok?
      && Encode(o.value) == "" + CasePart(CaseOf(h, conformToCase)) + SwitchPart('?', Switch3(B(h.replaceInsideWord)))
           + SwitchPart('*', StarOf(waitForEndChar, omitEndChar)) + SwitchPart('O', OmitOf(waitForEndChar, omitEndChar))
           + SwitchPart('B', Switch3(backspacing))
           + KeyDelayPart(if keyDelay.Some? then Some(KeyDelayText(keyDelay.value)) else None)
           + TaggedInt('P', priority) + SwitchPart('T', Switch3(text))
           + ModePart(if mode.Some? then ModeOf(mode.value) else None) + SwitchPart('Z', Switch3(resetRecognizer))
      && (PlainDelay(keyDelay) ==> Decode(Encode(o.value)) == Some(o.value))
  {
    var o := OptionsOf(h, conformToCase, waitForEndChar, omitEndChar, backspacing, priority,
                       text, mode, keyDelay, resetRecognizer).value;
    assert Switch3(B(h.replaceInsideWord)) == Some(o.insideWord);
    EncodeParts(o);
    if PlainDelay(keyDelay) {
      DecodeEncode(o);
    }
  }

  /** The option string is the left-to-right concatenation of its parts. */
  lemma EncodeParts(o: Options)
    ensures Encode(o) == "" + CasePart(o.case_) + SwitchPart('?', Some(o.insideWord)) + SwitchPart('*', o.star)
                         + SwitchPart('O', o.omit) + SwitchPart('B', o.backspace)
                         + KeyDelayPart(o.keyDelay) + TaggedInt('P', o.priority) + SwitchPart('T', o.text)
                         + ModePart(o.mode) + SwitchPart('Z', o.reset)
  {
    var c, q, st, om := CasePart(o.case_), SwitchPart('?', Some(o.insideWord)), SwitchPart('*', o.star), SwitchPart('O', o.omit);
    var b, k, p, t := SwitchPart('B', o.backspace), KeyDelayPart(o.keyDelay), TaggedInt('P', o.priority), SwitchPart('T', o.text);
    var m, z := ModePart(o.mode), SwitchPart('Z', o.reset);
    assert Encode(o) == c + (q + (st + (om + (b + (k + (p + (t + (m + z))))))));
    Flatten10(c, q, st, om, b, k, p, t, m, z);
  }

  lemma Flatten10<T>(a: seq<T>, b: seq<T>, c: seq<T>, d: seq<T>, e: seq<T>,
                     f: seq<T>, g: seq<T>, h: seq<T>, i: seq<T>, j: seq<T>)
    ensures a + (b + (c + (d + (e + (f + (g + (h + (i + j))))))))
            == [] + a + b + c + d + e + f + g + h + i + j
  {
  }

  // ----- registering and updating -----

  function CommandString(options: string, h: Hotstring): string
  {
    ":" + options + ":" + h.trigger
  }

  /**
   * `Hotstring.update(repl=..., ...)`: one Hotstring command with
   * ":<options>:<trigger>" and the replacement, or the send-mode error
   * before anything is sent.
   */
  method Update(h: Hotstring, repl: Value, conformToCase: Value, waitForEndChar: Value, omitEndChar: Value,
                backspacing: Value, priority: Option<int>, text: Value, mode: Option<string>,
                keyDelay: Option<Num>, resetRecognizer: Value) returns (r: Result<Call>)
    ensures var o := OptionsOf(h, conformToCase, waitForEndChar, omitEndChar, backspacing, priority,
                               text, mode, keyDelay, resetRecognizer);
      && (o.Err? ==> r == Err(o.error))
      && (o.Ok? ==> r == Ok(Call("Hotstring", [S(CommandString(Encode(o.value), h)), repl])))
  {
    var opts := OptionString(h, conformToCase, waitForEndChar, omitEndChar, backspacing, priority,
                             text, mode, keyDelay, resetRecognizer);
    if opts.Err? {
      return Err(opts.error);
    }
    r := Ok(Call("Hotstring", [S(CommandString(opts.value, h)), repl]));
  }

  /** The same update in the older `keys`/`hotkeys` modules, which send `repl or ""`. */
  method LegacyUpdate(h: Hotstring, repl: Value, conformToCase: Value, waitForEndChar: Value, omitEndChar: Value,
                      backspacing: Value, priority: Option<int>, text: Value, mode: Option<string>,
                      keyDelay: Option<Num>, resetRecognizer: Value) returns (r: Result<Call>)
    ensures var o := OptionsOf(h, conformToCase, waitForEndChar, omitEndChar, backspacing, priority,
                               text, mode, keyDelay, resetRecognizer);
      && (o.Err? ==> r == Err(o.error))
      && (o.Ok? ==> r == Ok(Call("Hotstring", [S(CommandString(Encode(o.value), h)),
                                              if Truthy(repl) then repl else S("")])))
  {
    var opts := OptionString(h, conformToCase, waitForEndChar, omitEndChar, backspacing, priority,
                             text, mode, keyDelay, resetRecognizer);
    if opts.Err? {
      return Err(opts.error);
    }
    r := Ok(Call("Hotstring", [S(CommandString(opts.value, h)), if Truthy(repl) then repl else S("")]));
  }

  /**
   * The send mode and key delay `hotstring()` registers with: the mode
   * `_get_send_mode(mode, key_delay)` resolves, and a key delay of 0 when
   * none is given and that mode is not Input.
   */
  function ResolveModeAndDelay(mode: Option<string>, keyDelay: Option<Num>, st: St.Values): (r: (string, Option<Num>))
    ensures mode.Some? ==> r.0 == mode.value
    ensures keyDelay.Some? ==> r.1 == keyDelay
    ensures keyDelay.None? ==> (r.1 == Some(PyInt(0)) <==> r.0 != "input") && (r.1.None? <==> r.0 == "input")
    ensures mode.None? && keyDelay.None? ==> r.0 == st.sendMode
  {
    var delayArg: Sending.Delay := if keyDelay.Some? then Given(keyDelay.value.Value()) else Null;
    var m := Sending.GetSendMode(mode, delayArg, Null, Null, st);
    (m, if keyDelay.None? && m != "input" then Some(PyInt(0)) else keyDelay)
  }

  /**
   * `if callable(repl) and args: repl = functools.partial(repl, *args)`:
   * a callable is bound to the extra arguments; a replacement text, or a
   * callable without arguments, is kept as it is.
   */
  function BoundRepl(repl: Value, args: seq<Value>): (r: Value)
    ensures Callable(r) <==> Callable(repl)
    ensures Callable(repl) && args != [] ==> r == Partial(repl, args)
    ensures !Callable(repl) || args == [] ==> r == repl
  {
    if Callable(repl) && args != [] then Partial(repl, args) else repl
  }

  /**
   * `hotstring(ctx, trigger, repl, *args, case_sensitive=..., ...)`:
   * without a replacement a decorator; otherwise a callable replacement
   * is bound to args, and the hotstring is updated with the resolved mode
   * and key delay, then enabled.
   */
  method Register(trigger: string, repl: Value, args: seq<Value>, caseSensitive: bool, conformToCase: Value,
                  replaceInsideWord: bool, waitForEndChar: Value, omitEndChar: Value, backspacing: Value,
                  priority: Option<int>, text: Value, mode: Option<string>, keyDelay: Option<Num>,
                  resetRecognizer: Value, st: St.Values) returns (r: Result<Hotkey.Registration>)
    ensures repl == NoneV ==> r == Ok(Hotkey.Decorator)
    ensures repl != NoneV ==>
      var h := NewHotstring(trigger, caseSensitive, replaceInsideWord);
      var md := ResolveModeAndDelay(mode, keyDelay, st);
      var o := OptionsOf(h, conformToCase, waitForEndChar, omitEndChar, backspacing, priority,
                         text, Some(md.0), md.1, resetRecognizer);
      && (o.Err? ==> r == Err(o.error))
      && (o.Ok? ==> r == Ok(Hotkey.Registered([Call("Hotstring", [S(CommandString(Encode(o.value), h)),
                                                                   BoundRepl(repl, args)]),
                                               Switch(h, "On")])))
  {
    if repl == NoneV {
      return Ok(Hotkey.Decorator);
    }
    var md := ResolveModeAndDelay(mode, keyDelay, st);
    var h := NewHotstring(trigger, caseSensitive, replaceInsideWord);
    var u := Update(h, BoundRepl(repl, args), conformToCase, waitForEndChar, omitEndChar, backspacing, priority,
                    text, Some(md.0), md.1, resetRecognizer);
    if u.Err? {
      return Err(u.error);
    }
    r := Ok(Hotkey.Registered([u.value, Switch(h, "On")]));
  }

  /** The options `hotstring()` builds from its keyword defaults, given the resolved mode and key delay. */
  function DefaultOptionsOf(trigger: string, st: St.Values): Result<Options>
  {
    var md := ResolveModeAndDelay(None, None, st);
    OptionsOf(NewHotstring(trigger, false, false), B(true), B(true), B(false), B(true), Some(0),
              B(false), Some(md.0), md.1, B(false))
  }

  /**
   * With every keyword default (conform_to_case=True, wait_for_end_char=True,
   * omit_end_char=False, backspacing=True, priority=0, text=False,
   * reset_recognizer=False) and Input as the current send mode, the options
   * are "C0?0*0O0BP0T0SIZ0".
   */
  lemma DefaultOptionsInput(trigger: string, st: St.Values)
    requires st.sendMode == "input"
    ensures DefaultOptionsOf(trigger, st).Ok?
    ensures Encode(DefaultOptionsOf(trigger, st).value) == "C0?0*0O0BP0T0SIZ0"
  {
    assert ResolveModeAndDelay(None, None, st) == ("input", None);
    assert DefaultOptionsOf(trigger, st) == Ok(InputDefaults);
    EncodeInputDefaults();
  }

  /** In Event mode the same defaults also carry the key delay 0: "C0?0*0O0BK0P0T0SEZ0". */
  lemma DefaultOptionsEvent(trigger: string, st: St.Values)
    requires st.sendMode == "event"
    ensures DefaultOptionsOf(trigger, st).Ok?
    ensures Encode(DefaultOptionsOf(trigger, st).value) == "C0?0*0O0BK0P0T0SEZ0"
  {
    assert IntStr(0) == "0";
    assert KeyDelayText(PyInt(0)) == "0";
    assert ResolveModeAndDelay(None, None, st) == ("event", Some(PyInt(0)));
    assert DefaultOptionsOf(trigger, st) == Ok(EventDefaults);
    EncodeEventDefaults();
  }

  const InputDefaults := Options(Some(ConformToCase), false, Some(false), Some(false), Some(true), None, Some(0),
                                 Some(false), Some(SendInput), Some(false))

  const EventDefaults := Options(Some(ConformToCase), false, Some(false), Some(false), Some(true), Some("0"), Some(0),
                                 Some(false), Some(SendEvent), Some(false))

  lemma EncodeInputDefaults()
    ensures Encode(InputDefaults) == "C0?0*0O0BP0T0SIZ0"
  {
    assert IntStr(0) == "0";
    assert EncodeRest(InputDefaults) == "P0T0SIZ0";
    FrontLiteral("P0T0SIZ0");
  }

  lemma EncodeEventDefaults()
    ensures Encode(EventDefaults) == "C0?0*0O0BK0P0T0SEZ0"
  {
    assert IntStr(0) == "0";
    assert EncodeRest(EventDefaults) == "K0P0T0SEZ0";
    FrontLiteral("K0P0T0SEZ0");
  }

  /** The front options both default sets share. */
  lemma FrontLiteral(rest: string)
    ensures "C0" + ("?0" + ("*0" + ("O0" + ("B" + rest)))) == "C0?0*0O0B" + rest
  {
  }
}
