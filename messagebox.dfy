/**
 * Message boxes (`message_box` module, and `message_box` of the `ahk`
 * package): the MsgBox flag word built from four lookup tables, the
 * default text, the reply conversions, and `MessageBox.show`.
 */
module MessageBox {

  import opened Base
  import opened Text

  const ButtonsTable: map<string, bv32> := map[
    "ok" := 0x0, "ok_cancel" := 0x1, "abort_retry_ignore" := 0x2, "yes_no_cancel" := 0x3,
    "yes_no" := 0x4, "retry_cancel" := 0x5, "cancel_try_continue" := 0x6]

  const IconTable: map<Option<string>, bv32> := map[
    None := 0x0, Some("hand") := 0x10, Some("question") := 0x20, Some("exclamation") := 0x30,
    Some("asterisk") := 0x40, Some("warning") := 0x30, Some("error") := 0x10,
    Some("information") := 0x40, Some("info") := 0x40, Some("stop") := 0x10]

  const DefaultButtonTable: map<int, bv32> := map[1 := 0x0, 2 := 0x100, 3 := 0x200]

  const OptionsTable: map<string, bv32> := map[
    "default_desktop_only" := 0x20000, "right" := 0x80000, "rtl_reading" := 0x100000,
    "service_notification" := 0x200000]

  /** The bits each table may set. */
  const ButtonsMask: bv32 := 0xF
  const IconMask: bv32 := 0xF0
  const DefaultButtonMask: bv32 := 0xF00
  const OptionsMask: bv32 := 0xFFFF_0000

  /** The warning, error and info icons are aliases of exclamation, hand and asterisk. */
  lemma IconAliases()
    ensures IconTable[Some("warning")] == IconTable[Some("exclamation")] == 0x30
    ensures IconTable[Some("error")] == IconTable[Some("hand")] == IconTable[Some("stop")] == 0x10
    ensures IconTable[Some("info")] == IconTable[Some("information")] == IconTable[Some("asterisk")] == 0x40
  {
  }

  /** Each buttons name and each default button has its own value, so the value names it. */
  lemma TablesInjective(b: string, b': string, d: int, d': int)
    ensures b in ButtonsTable && b' in ButtonsTable && ButtonsTable[b] == ButtonsTable[b'] ==> b == b'
    ensures d in DefaultButtonTable && d' in DefaultButtonTable && DefaultButtonTable[d] == DefaultButtonTable[d'] ==> d == d'
  {
  }

  /** Which of the four options an options list names. */
  datatype OptionSet = OptionSet(desktopOnly: bool, right: bool, rtlReading: bool, serviceNotification: bool)

  predicate Names(o: OptionSet, name: string)
  {
    match name
    case "default_desktop_only" => o.desktopOnly
    case "right" => o.right
    case "rtl_reading" => o.rtlReading
    case "service_notification" => o.serviceNotification
    case _ => false
  }

  function WithOption(o: OptionSet, name: string): OptionSet
  {
    match name
    case "default_desktop_only" => o.(desktopOnly := true)
    case "right" => o.(right := true)
    case "rtl_reading" => o.(rtlReading := true)
    case _ => o.(serviceNotification := true)
  }

  /** The OR of the values of the options in the set. */
  function OptionBits(o: OptionSet): (w: bv32)
    ensures w & !0x003A_0000 == 0
  {
    (if o.desktopOnly then 0x20000 else 0) | (if o.right then 0x80000 else 0)
    | (if o.rtlReading then 0x100000 else 0) | (if o.serviceNotification then 0x200000 else 0)
  }

  /** Each option has its own bit: equal words mean equal sets. */
  lemma OptionBitsInjective(o: OptionSet, o': OptionSet)
    requires OptionBits(o) == OptionBits(o')
    ensures o == o'
  {
    assert OptionBits(o) & 0x20000 == (if o.desktopOnly then 0x20000 else 0);
    assert OptionBits(o') & 0x20000 == (if o'.desktopOnly then 0x20000 else 0);
    assert OptionBits(o) & 0x80000 == (if o.right then 0x80000 else 0);
    assert OptionBits(o') & 0x80000 == (if o'.right then 0x80000 else 0);
    assert OptionBits(o) & 0x100000 == (if o.rtlReading then 0x100000 else 0);
    assert OptionBits(o') & 0x100000 == (if o'.rtlReading then 0x100000 else 0);
    assert OptionBits(o) & 0x200000 == (if o.serviceNotification then 0x200000 else 0);
    assert OptionBits(o') & 0x200000 == (if o'.serviceNotification then 0x200000 else 0);
  }

  /** The value the table gives a name is the bit that name sets. */
  lemma OptionTableBits(name: string, o: OptionSet)
    requires name in OptionsTable
    ensures OptionBits(WithOption(o, name)) == OptionBits(o) | OptionsTable[name]
  {
  }

  /**
   * `functools.reduce(option_reducer, options, 0)` read as the set of
   * options it ORs together, failing with KeyError on the first name not
   * in the table; a set names exactly the options listed.
   */
  function OptionsOf(options: seq<string>): (r: Result<OptionSet>)
    ensures r.Err? <==> exists k :: 0 <= k < |options| && options[k] !in OptionsTable
    ensures r.Err? ==> exists k :: 0 <= k < |options| && options[k] !in OptionsTable
                        && r.error == KeyError(Repr(options[k]))
                        && (forall j :: 0 <= j < k ==> options[j] in OptionsTable)
    ensures r.Ok? ==> forall o :: o in OptionsTable ==> (Names(r.value, o) <==> o in options)
  {
    if |options| == 0 then Ok(OptionSet(false, false, false, false))
    else
      var init := options[..|options| - 1];
      var last := options[|options| - 1];
      assert options == init + [last];
      assert forall k :: 0 <= k < |init| ==> options[k] == init[k];
      match OptionsOf(init)
      case Err(e) => Err(e)
      case Ok(w) =>
        if last !in OptionsTable then
          assert options[|options| - 1] !in OptionsTable;
          Err(KeyError(Repr(last)))
        else
          NamesWithOption(w, last, init);
          assert forall o :: o in OptionsTable ==> (o in options <==> o in init || o == last);
          Ok(WithOption(w, last))
  }

  lemma NamesWithOption(w: OptionSet, last: string, init: seq<string>)
    requires last in OptionsTable
    requires forall o :: o in OptionsTable ==> (Names(w, o) <==> o in init)
    ensures forall o :: o in OptionsTable ==> (Names(WithOption(w, last), o) <==> o in init || o == last)
  {
  }

  /** The OR the reduction computes: 0 for no options, one more option's value per step. */
  function OptionsWord(options: seq<string>): (r: Result<bv32>)
  {
    match OptionsOf(options)
    case Err(e) => Err(e)
    case Ok(o) => Ok(OptionBits(o))
  }

  lemma {:induction false} OptionsWordSteps(options: seq<string>, name: string)
    requires OptionsWord(options).Ok? && name in OptionsTable
    ensures OptionsWord([]) == Ok(0)
    ensures OptionsWord(options + [name]) == Ok(OptionsWord(options).value | OptionsTable[name])
  {
    assert (options + [name])[..|options|] == options;
    OptionTableBits(name, OptionsOf(options).value);
  }

  /** The word depends only on which options are listed, not on their order or repetition. */
  lemma OptionsWordSet(a: seq<string>, b: seq<string>)
    requires OptionsWord(a).Ok? && OptionsWord(b).Ok?
    ensures OptionsWord(a) == OptionsWord(b) <==> (forall o :: o in OptionsTable ==> (o in a <==> o in b))
  {
    var oa, ob := OptionsOf(a).value, OptionsOf(b).value;
    if forall o :: o in OptionsTable ==> (o in a <==> o in b) {
      assert "default_desktop_only" in OptionsTable && "right" in OptionsTable;
      assert "rtl_reading" in OptionsTable && "service_notification" in OptionsTable;
      assert oa == ob;
    }
    if OptionsWord(a) == OptionsWord(b) {
      OptionBitsInjective(oa, ob);
    }
  }

  /** Parts confined to their own bit ranges are given back by masking the OR. */
  lemma DisjointParts(b: bv32, i: bv32, d: bv32, o: bv32)
    requires b & !ButtonsMask == 0 && i & !IconMask == 0 && d & !DefaultButtonMask == 0 && o & !OptionsMask == 0
    ensures (b | i | d | o) & ButtonsMask == b
    ensures (b | i | d | o) & IconMask == i
    ensures (b | i | d | o) & DefaultButtonMask == d
    ensures (b | i | d | o) & OptionsMask == o
  {
  }

  lemma TableRanges(buttons: string, icon: Option<string>, defaultButton: int)
    requires buttons in ButtonsTable && icon in IconTable && defaultButton in DefaultButtonTable
    ensures ButtonsTable[buttons] & !ButtonsMask == 0
    ensures IconTable[icon] & !IconMask == 0
    ensures DefaultButtonTable[defaultButton] & !DefaultButtonMask == 0
  {
  }

  /** `_message_box`'s flag word `buttons | icon | default_button | options`. */
  function Flags(buttons: string, icon: Option<string>, defaultButton: int, options: seq<string>): (r: Result<bv32>)
    ensures buttons !in ButtonsTable ==> r == Err(KeyError(Repr(buttons)))
    ensures buttons in ButtonsTable && icon !in IconTable ==> r == Err(KeyError(Repr(icon.value)))
    ensures buttons in ButtonsTable && icon in IconTable && defaultButton !in DefaultButtonTable ==>
              r == Err(KeyError(IntStr(defaultButton)))
    ensures buttons in ButtonsTable && icon in IconTable && defaultButton in DefaultButtonTable ==>
              (r.Err? <==> OptionsWord(options).Err?) && (r.Err? ==> r == Err(OptionsWord(options).error))
    ensures r.Ok? ==>
      && r.value & ButtonsMask == ButtonsTable[buttons]
      && r.value & IconMask == IconTable[icon]
      && r.value & DefaultButtonMask == DefaultButtonTable[defaultButton]
      && r.value & OptionsMask == OptionsWord(options).value
  {
    if buttons !in ButtonsTable then Err(KeyError(Repr(buttons)))
    else if icon !in IconTable then Err(KeyError(Repr(icon.value)))
    else if defaultButton !in DefaultButtonTable then Err(KeyError(IntStr(defaultButton)))
    else match OptionsWord(options)
      case Err(e) => Err(e)
      case Ok(o) =>
        var b, i, d := ButtonsTable[buttons], IconTable[icon], DefaultButtonTable[defaultButton];
        TableRanges(buttons, icon, defaultButton);
        assert o & !OptionsMask == 0;
        DisjointParts(b, i, d, o);
        Ok(b | i | d | o)
  }

  /**
   * The four parts occupy disjoint bits, so the word gives them all back:
   * equal words mean the same buttons, the same icon value, the same
   * default button and the same set of options.
   */
  lemma FlagsDetermineParts(buttons: string, icon: Option<string>, defaultButton: int, options: seq<string>,
                            buttons': string, icon': Option<string>, defaultButton': int, options': seq<string>)
    requires Flags(buttons, icon, defaultButton, options).Ok?
    requires Flags(buttons, icon, defaultButton, options) == Flags(buttons', icon', defaultButton', options')
    ensures buttons == buttons' && IconTable[icon] == IconTable[icon'] && defaultButton == defaultButton'
    ensures forall o :: o in OptionsTable ==> (o in options <==> o in options')
  {
    var w := FlagsParts(buttons, icon, defaultButton, options);
    var w' := FlagsParts(buttons', icon', defaultButton', options');
    assert w == w';
    TablesInjective(buttons, buttons', defaultButton, defaultButton');
    SameWordSameOptions(options, options');
  }

  lemma SameWordSameOptions(a: seq<string>, b: seq<string>)
    requires OptionsWord(a).Ok? && OptionsWord(b).Ok? && OptionsWord(a).value == OptionsWord(b).value
    ensures forall o :: o in OptionsTable ==> (o in a <==> o in b)
  {
    OptionsWordSet(a, b);
  }

  /** What a valid flag word holds, as separate facts: every lookup succeeded, and the masks give the parts. */
  lemma FlagsParts(buttons: string, icon: Option<string>, defaultButton: int, options: seq<string>)
    returns (w: bv32)
    requires Flags(buttons, icon, defaultButton, options).Ok?
    ensures w == Flags(buttons, icon, defaultButton, options).value
    ensures buttons in ButtonsTable && icon in IconTable && defaultButton in DefaultButtonTable
    ensures OptionsWord(options).Ok? && OptionsWord(options).value == w & OptionsMask
    ensures ButtonsTable[buttons] == w & ButtonsMask && IconTable[icon] == w & IconMask
    ensures DefaultButtonTable[defaultButton] == w & DefaultButtonMask
  {
    w := Flags(buttons, icon, defaultButton, options).value;
  }

  /** The MsgBox command: the flag word, the title ("" for None), str(text) and the timeout. */
  function MsgBoxCall(text: Value, title: Value, buttons: string, icon: Option<string>,
                      defaultButton: int, options: seq<string>, timeout: Value): (r: Result<Call>)
    ensures r.Err? <==> Flags(buttons, icon, defaultButton, options).Err?
    ensures r.Err? ==> r.error == Flags(buttons, icon, defaultButton, options).error
    ensures r.Ok? ==>
      && r.value.cmd == "MsgBox" && |r.value.args| == 4
      && r.value.args[0] == I(Flags(buttons, icon, defaultButton, options).value as int)
      && r.value.args[1] == S(if title != NoneV then PyStr(title) else "")
      && r.value.args[2] == S(PyStr(text)) && r.value.args[3] == timeout
  {
    match Flags(buttons, icon, defaultButton, options)
    case Err(e) => Err(e)
    case Ok(w) => Ok(Call("MsgBox", [I(w as int), S(if title != NoneV then PyStr(title) else ""), S(PyStr(text)), timeout]))
  }

  /** The host's "timeout" reply becomes None; any other reply is returned. */
  function Reply(result: Value): (r: Option<Value>)
    ensures r.None? <==> result == S("timeout")
    ensures r.Some? ==> r.value == result
  {
    if result == S("timeout") then None else Some(result)
  }

  /** `message_box`'s text: None becomes "Press OK to continue." for a plain OK box, else "". */
  function DefaultText(text: Value, buttons: string, icon: Option<string>): (t: Value)
    ensures text != NoneV ==> t == text
    ensures text == NoneV ==> (t == S("Press OK to continue.") <==> buttons == "ok" && icon.None?)
    ensures text == NoneV ==> (t == S("") <==> !(buttons == "ok" && icon.None?))
  {
    if text != NoneV then text
    else if buttons == "ok" && icon.None? then S("Press OK to continue.")
    else S("")
  }

  function MessageBoxCall(text: Value, title: Value, buttons: string, icon: Option<string>,
                          defaultButton: int, options: seq<string>, timeout: Value): Result<Call>
  {
    MsgBoxCall(DefaultText(text, buttons, icon), title, buttons, icon, defaultButton, options, timeout)
  }

  /** `message_box()` with every default sends flags 0, no title and "Press OK to continue.". */
  lemma MessageBoxDefaults()
    ensures MessageBoxCall(NoneV, NoneV, "ok", None, 1, [], NoneV) ==
            Ok(Call("MsgBox", [I(0), S(""), S("Press OK to continue."), NoneV]))
  {
    assert OptionsWord([]) == Ok(0);
    assert Flags("ok", None, 1, []) == Ok(0);
  }

  /** `ok_cancel`, `yes_no`, `retry_cancel`: a timeout stays None, else whether the expected button was chosen. */
  function Answer(reply: Option<Value>, yes: string): (r: Option<bool>)
    ensures r.None? <==> reply.None?
    ensures r.Some? ==> (r.value <==> reply.value == S(yes))
  {
    if reply.None? then None else Some(reply.value == S(yes))
  }

  /**
   * The static helpers' flag words: info 0x40, warning 0x30, error 0x10,
   * ok_cancel 0x41, yes_no 0x44, yes_no_cancel 0x43, retry_cancel 0x35,
   * and cancel_try_continue 0x136 with the second button as default.
   */
  lemma StaticFlags()
    ensures Flags("ok", Some("info"), 1, []) == Ok(0x40)
    ensures Flags("ok", Some("warning"), 1, []) == Ok(0x30)
    ensures Flags("ok", Some("error"), 1, []) == Ok(0x10)
    ensures Flags("ok_cancel", Some("info"), 1, []) == Ok(0x41)
    ensures Flags("yes_no", Some("info"), 1, []) == Ok(0x44)
    ensures Flags("yes_no_cancel", Some("info"), 1, []) == Ok(0x43)
    ensures Flags("retry_cancel", Some("warning"), 1, []) == Ok(0x35)
    ensures Flags("cancel_try_continue", Some("warning"), 2, []) == Ok(0x136)
  {
    assert OptionsWord([]) == Ok(0);
  }

  /** A reusable message box (`MessageBox` dataclass). */
  datatype Box = Box(text: Value, title: Value, buttons: string, icon: Option<string>,
                     defaultButton: int, options: seq<string>, timeout: Value)

  const DefaultBox := Box(NoneV, NoneV, "ok", None, 1, [], NoneV)

  /** Keyword attributes passed to `show`; Unset/None means the attribute was not passed. */
  datatype Attrs = Attrs(buttons: Option<string>, icon: Arg<string>, defaultButton: Option<int>,
                         options: Option<seq<string>>, timeout: Option<Value>)

  /** The `dc.replace` copy `show` works on: text and title fall back to the box's own. */
  function Replaced(mb: Box, text: Value, title: Value, attrs: Attrs): (m: Box)
    ensures m.text == (if text != NoneV then text else mb.text)
    ensures m.title == (if title != NoneV then title else mb.title)
    ensures m.buttons == (if attrs.buttons.Some? then attrs.buttons.value else mb.buttons)
    ensures m.icon == (match attrs.icon case Unset => mb.icon case Null => None case Given(i) => Some(i))
    ensures m.defaultButton == (if attrs.defaultButton.Some? then attrs.defaultButton.value else mb.defaultButton)
    ensures m.options == (if attrs.options.Some? then attrs.options.value else mb.options)
    ensures m.timeout == (if attrs.timeout.Some? then attrs.timeout.value else mb.timeout)
  {
    mb.(text := if text != NoneV then text else mb.text,
        title := if title != NoneV then title else mb.title,
        buttons := if attrs.buttons.Some? then attrs.buttons.value else mb.buttons,
        icon := match attrs.icon case Unset => mb.icon case Null => None case Given(i) => Some(i),
        defaultButton := if attrs.defaultButton.Some? then attrs.defaultButton.value else mb.defaultButton,
        options := if attrs.options.Some? then attrs.options.value else mb.options,
        timeout := if attrs.timeout.Some? then attrs.timeout.value else mb.timeout)
  }

  /** `MessageBox.show(text, title, **attrs)`: `message_box` on the replaced copy. */
  function Show(mb: Box, text: Value, title: Value, attrs: Attrs): Result<Call>
  {
    var m := Replaced(mb, text, title, attrs);
    MessageBoxCall(m.text, m.title, m.buttons, m.icon, m.defaultButton, m.options, m.timeout)
  }

  /** With no arguments `show` shows the box as stored; the box itself is a value and is not changed. */
  lemma ShowWithoutArguments(mb: Box)
    ensures Replaced(mb, NoneV, NoneV, Attrs(None, Unset, None, None, None)) == mb
    ensures Show(mb, NoneV, NoneV, Attrs(None, Unset, None, None, None)) ==
            MessageBoxCall(mb.text, mb.title, mb.buttons, mb.icon, mb.defaultButton, mb.options, mb.timeout)
  {
  }

  /** `show(text=...)` overrides the stored text for that call only. */
  lemma ShowTextOverride(mb: Box, text: Value)
    ensures var r := Show(mb, text, NoneV, Attrs(None, Unset, None, None, None));
      text != NoneV && r.Ok? ==> r.value.args[2] == S(PyStr(text))
  {
  }

  /** `message_box(text, title, options, timeout)` of the `ahk` package: a bare MsgBox for None. */
  function LegacyMessageBox(text: Value, title: string, options: int, timeout: Value): (c: Call)
    ensures text == NoneV <==> c.args == []
    ensures c.cmd == "MsgBox"
    ensures text != NoneV ==> c.args == [I(options), S(title), S(PyStr(text)), timeout]
  {
    if text == NoneV then Call("MsgBox", []) else Call("MsgBox", [I(options), S(title), S(PyStr(text)), timeout])
  }
}
