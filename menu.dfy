/**
 * Menus (`menu` module): item references, the item option string, and
 * the ordered Menu commands that inserting or updating an item sends;
 * tray icon helpers. The host is the append-only command log of `Base.Host`.
 * The `legacy` flag selects the older `menu` module's differences.
 */
module Menu {

  import opened Base
  import opened Text
  import St = Settings

  /** A menu: only its name, stored lower-cased. */
  datatype Menu = Menu(name: string)

  /** `Menu(name)`: the name lower-cased; a fresh uuid string when omitted. */
  function NewMenu(name: Option<string>, uuid: string): (m: Menu)
    ensures m.name == Lower(if name.Some? then name.value else uuid)
    ensures Lower(m.name) == m.name
  {
    LowerIdempotent(if name.Some? then name.value else uuid);
    Menu(Lower(if name.Some? then name.value else uuid))
  }

  /** `isinstance(v, int)`: ints, and bools, which Python counts as ints. */
  function IntOf(v: Value): Option<int>
  {
    match v
    case I(i) => Some(i)
    case B(b) => Some(if b then 1 else 0)
    case _ => None
  }

  /** `_item_name`: a position n becomes "<n+1>&"; a name is passed through. */
  function ItemName(ref: Value): (r: Value)
    ensures IntOf(ref).None? ==> r == ref
    ensures IntOf(ref).Some? ==> r == S(IntStr(IntOf(ref).value + 1) + "&")
  {
    if IntOf(ref).Some? then S(IntStr(IntOf(ref).value + 1) + "&") else ref
  }

  /** A position reference reads back as the position, and names never look like one. */
  lemma ItemNamePosition(n: int)
    ensures ItemName(I(n)).S? && |ItemName(I(n)).s| >= 2
    ensures var s := ItemName(I(n)).s; s[|s| - 1] == '&' && ParseInt(s[..|s| - 1]) == Some(n + 1)
    ensures ItemName(I(0)) == S("1&")
    ensures ItemName(S("Open")) == S("Open")
  {
    var s := IntStr(n + 1) + "&";
    assert s[..|s| - 1] == IntStr(n + 1);
    IntStrRoundTrip(n + 1);
    assert IntStr(1) == "1";
  }

  function MenuCall(menu: Menu, args: seq<Value>): Call
  {
    Call("Menu", [S(menu.name)] + args)
  }

  /**
   * What an item runs: ":<submenu>" for a submenu (which wins); for a
   * callback, `_wrap_callback(functools.partial(callback, *args), ...)`,
   * where partial refuses a non-callable; otherwise None. The handler
   * object `_wrap_callback` returns is `Wrapped(partial, 0)`: menu items
   * never compare their handlers, so one serial serves them all.
   */
  function Thing(submenu: Option<Menu>, callback: Value, args: seq<Value>): (r: Result<Value>)
    ensures submenu.Some? ==> r == Ok(S(":" + submenu.value.name))
    ensures submenu.None? && callback == NoneV ==> r == Ok(NoneV)
    ensures submenu.None? && callback != NoneV ==>
              && (r.Err? <==> !Callable(callback))
              && (r.Err? ==> r.error == PartialError)
              && (r.Ok? ==> r.value == Wrapped(Partial(callback, args), 0))
    ensures r.Ok? && r.value == NoneV <==> submenu.None? && callback == NoneV
  {
    if submenu.Some? then Ok(S(":" + submenu.value.name))
    else if callback == NoneV then Ok(NoneV)
    else match PartialOf(callback, args)
      case Err(e) => Err(e)
      case Ok(f) => Ok(Wrapped(f, 0))
  }

  // ----- the option string -----

  /** The item options; `right` exists only in the older module. */
  datatype Options = Options(priority: Option<int>, radio: Option<bool>, right: Option<bool>,
                             newColumn: Option<bool>, barColumn: Option<bool>)

  const NoOptions := Options(None, None, None, None, None)

  function SignPart(v: Option<bool>, word: string): seq<string>
  {
    if v.None? then [] else [(if v.value then "+" else "-") + word]
  }

  function PriorityPart(priority: Option<int>): seq<string>
  {
    if priority.Some? then ["P" + IntStr(priority.value)] else []
  }

  function Parts(o: Options): seq<string>
  {
    PriorityPart(o.priority)
    + SignPart(o.radio, "Radio") + SignPart(o.right, "Right")
    + SignPart(o.newColumn, "Break") + SignPart(o.barColumn, "BarBreak")
  }

  function Encode(o: Options): string
  {
    Join(Parts(o), " ")
  }

  /**
   * The option string of `_insert_or_update`: P<priority>, ±Radio,
   * ±Right (older module), ±Break, ±BarBreak, each only when given, joined
   * with single spaces.
   */
  method OptionString(priority: Option<int>, radio: Option<bool>, right: Option<bool>,
                      newColumn: Option<bool>, barColumn: Option<bool>) returns (s: string)
    ensures s == Encode(Options(priority, radio, right, newColumn, barColumn))
    ensures Decode(s) == Some(Options(priority, radio, right, newColumn, barColumn))
  {
    var optionList: seq<string> := [];
    if priority.Some? {
      optionList := optionList + ["P" + IntStr(priority.value)];
    }
    assert optionList == PriorityPart(priority);
    optionList := AppendSign(optionList, radio, "Radio");
    optionList := AppendSign(optionList, right, "Right");
    optionList := AppendSign(optionList, newColumn, "Break");
    optionList := AppendSign(optionList, barColumn, "BarBreak");
    s := Join(optionList, " ");
    DecodeEncode(Options(priority, radio, right, newColumn, barColumn));
  }

  /** Appends "+word" or "-word" when the flag is given. */
  method AppendSign(optionList: seq<string>, v: Option<bool>, word: string) returns (r: seq<string>)
    ensures r == optionList + SignPart(v, word)
  {
    r := optionList;
    if v.Some? {
      r := r + [(if v.value then "+" else "-") + word];
    }
  }

  /**
   * `insert`'s defaults (priority 0; radio, new_column and bar_column
   * False) give the words P0 -Radio -Break -BarBreak.
   */
  lemma InsertDefaultOptions()
    ensures Parts(Options(Some(0), Some(false), None, Some(false), Some(false))) == ["P0", "-Radio", "-Break", "-BarBreak"]
    ensures Encode(Options(Some(0), Some(false), None, Some(false), Some(false))) == Join(["P0", "-Radio", "-Break", "-BarBreak"], " ")
  {
    assert IntStr(0) == "0";
    assert "-" + "Radio" == "-Radio" && "-" + "Break" == "-Break" && "-" + "BarBreak" == "-BarBreak";
    assert "P" + "0" == "P0";
    assert SignPart(Some(false), "Radio") == ["-Radio"];
    assert SignPart(Some(false), "Break") == ["-Break"];
    assert SignPart(Some(false), "BarBreak") == ["-BarBreak"];
  }

  // ----- reading the option string back -----

  function ReadPriority(ws: seq<string>): (Option<int>, seq<string>)
  {
    if |ws| > 0 && |ws[0]| >= 1 && ws[0][0] == 'P' && ParseInt(ws[0][1..]).Some? then
      (ParseInt(ws[0][1..]), ws[1..])
    else (None, ws)
  }

  function ReadSign(word: string, ws: seq<string>): (Option<bool>, seq<string>)
  {
    if |ws| > 0 && ws[0] == "+" + word then (Some(true), ws[1..])
    else if |ws| > 0 && ws[0] == "-" + word then (Some(false), ws[1..])
    else (None, ws)
  }

  /** Reading an option string back: split at spaces, then the words in their fixed order. */
  function Decode(s: string): Option<Options>
  {
    if s == "" then Some(NoOptions) else DecodeWords(Split(s, ' '))
  }

  function DecodeWords(ws: seq<string>): Option<Options>
  {
    var p := ReadPriority(ws);
    ReadSigns(p.0, p.1)
  }

  function ReadSigns(priority: Option<int>, ws: seq<string>): Option<Options>
  {
    var r := ReadSign("Radio", ws);
    var rt := ReadSign("Right", r.1);
    var b := ReadSign("Break", rt.1);
    var bb := ReadSign("BarBreak", b.1);
    if bb.1 == [] then Some(Options(priority, r.0, rt.0, b.0, bb.0)) else None
  }

  /** No sign word is mistaken for another. */
  predicate NotSign(word: string, ws: seq<string>)
  {
    ws == [] || (ws[0] != "+" + word && ws[0] != "-" + word)
  }

  lemma ReadSignPart(v: Option<bool>, word: string, rest: seq<string>)
    requires NotSign(word, rest)
    ensures ReadSign(word, SignPart(v, word) + rest) == (v, rest)
  {
    if v.Some? {
      assert (SignPart(v, word) + rest)[1..] == rest;
      assert ("-" + word)[0] != ("+" + word)[0];
    } else {
      assert SignPart(v, word) + rest == rest;
    }
  }

  lemma NotSignConcat(word: string, a: seq<string>, b: seq<string>)
    requires NotSign(word, a) && NotSign(word, b)
    ensures NotSign(word, a + b)
  {
    if a == [] {
      assert a + b == b;
    } else {
      assert (a + b)[0] == a[0];
    }
  }

  /** The words that follow the priority all start with a sign. */
  predicate SignStart(ws: seq<string>)
  {
    ws == [] || (|ws[0]| >= 1 && ws[0][0] in {'+', '-'})
  }

  lemma SignStartConcat(a: seq<string>, b: seq<string>)
    requires SignStart(a) && SignStart(b)
    ensures SignStart(a + b)
  {
    if a == [] {
      assert a + b == b;
    } else {
      assert (a + b)[0] == a[0];
    }
  }

  lemma ReadPriorityPart(o: Options, rest: seq<string>)
    requires SignStart(rest)
    ensures ReadPriority(PriorityPart(o.priority) + rest) == (o.priority, rest)
  {
    if o.priority.Some? {
      var w := "P" + IntStr(o.priority.value);
      assert w[1..] == IntStr(o.priority.value);
      IntStrRoundTrip(o.priority.value);
      assert ([w] + rest)[1..] == rest;
      assert ([w] + rest)[0] == w;
    } else {
      assert [] + rest == rest;
    }
  }

  lemma SignWordDistinct(v: Option<bool>, word: string, other: string)
    requires word != other
    ensures NotSign(other, SignPart(v, word))
    ensures SignStart(SignPart(v, word))
  {
    if v.Some? {
      var w := (if v.value then "+" else "-") + word;
      assert w[1..] == word;
      assert ("+" + other)[1..] == other;
      assert ("-" + other)[1..] == other;
    }
  }

  lemma PartsShape(o: Options)
    ensures forall k :: 0 <= k < |Parts(o)| ==> ' ' !in Parts(o)[k] && |Parts(o)[k]| >= 1
    ensures Parts(o) == [] <==> o == NoOptions
  {
    var p, r, rt := PriorityPart(o.priority), SignPart(o.radio, "Radio"), SignPart(o.right, "Right");
    var b, bb := SignPart(o.newColumn, "Break"), SignPart(o.barColumn, "BarBreak");
    if o.priority.Some? {
      IntStrChars(o.priority.value);
      assert ' ' !in IntStr(o.priority.value);
    }
    SignPartWord(o.radio, "Radio");
    SignPartWord(o.right, "Right");
    SignPartWord(o.newColumn, "Break");
    SignPartWord(o.barColumn, "BarBreak");
    SpacelessConcat(p, r);
    SpacelessConcat(p + r, rt);
    SpacelessConcat(p + r + rt, b);
    SpacelessConcat(p + r + rt + b, bb);
    assert |Parts(o)| == |p| + |r| + |rt| + |b| + |bb|;
  }

  /** Non-empty words without spaces. */
  predicate Spaceless(ws: seq<string>)
  {
    forall k :: 0 <= k < |ws| ==> ' ' !in ws[k] && |ws[k]| >= 1
  }

  lemma SignPartWord(v: Option<bool>, word: string)
    requires ' ' !in word
    ensures Spaceless(SignPart(v, word)) && (SignPart(v, word) == [] <==> v.None?)
  {
    if v.Some? {
      var w := (if v.value then "+" else "-") + word;
      assert forall i :: 1 <= i < |w| ==> w[i] == word[i - 1];
    }
  }

  lemma SpacelessConcat(a: seq<string>, b: seq<string>)
    requires Spaceless(a) && Spaceless(b)
    ensures Spaceless(a + b)
  {
  }

  function SignParts(o: Options): seq<string>
  {
    SignPart(o.radio, "Radio") + (SignPart(o.right, "Right") + (SignPart(o.newColumn, "Break") + SignPart(o.barColumn, "BarBreak")))
  }

  lemma SignsRead(o: Options)
    ensures ReadSigns(o.priority, SignParts(o)) == Some(o)
    ensures SignStart(SignParts(o))
  {
    var bb := SignPart(o.barColumn, "BarBreak");
    var b := SignPart(o.newColumn, "Break");
    var rt := SignPart(o.right, "Right");
    var r := SignPart(o.radio, "Radio");
    SignWordDistinct(o.barColumn, "BarBreak", "Break");
    SignWordDistinct(o.barColumn, "BarBreak", "Right");
    SignWordDistinct(o.barColumn, "BarBreak", "Radio");
    SignWordDistinct(o.newColumn, "Break", "Right");
    SignWordDistinct(o.newColumn, "Break", "Radio");
    SignWordDistinct(o.right, "Right", "Radio");
    SignWordDistinct(o.radio, "Radio", "Right");
    SignStartConcat(b, bb);
    SignStartConcat(rt, b + bb);
    SignStartConcat(r, rt + (b + bb));
    NotSignConcat("Radio", b, bb);
    NotSignConcat("Radio", rt, b + bb);
    NotSignConcat("Right", b, bb);
    NotSignConcat("Break", bb, []);
    ReadSignPart(o.radio, "Radio", rt + (b + bb));
    ReadSignPart(o.right, "Right", b + bb);
    ReadSignPart(o.newColumn, "Break", bb);
    ReadSignPart(o.barColumn, "BarBreak", []);
    assert bb + [] == bb;
  }

  lemma DecodeWordsParts(o: Options)
    ensures DecodeWords(Parts(o)) == Some(o)
  {
    var pp := PriorityPart(o.priority);
    var sp := SignParts(o);
    Prepend4(pp, SignPart(o.radio, "Radio"), SignPart(o.right, "Right"), SignPart(o.newColumn, "Break"),
            SignPart(o.barColumn, "BarBreak"));
    assert Parts(o) == pp + sp;
    SignsRead(o);
    ReadPriorityPart(o, sp);
  }

  /** The option string reads back as the options it was built from. */
  lemma DecodeEncode(o: Options)
    ensures Decode(Encode(o)) == Some(o)
  {
    PartsShape(o);
    var parts := Parts(o);
    if parts == [] {
      assert Encode(o) == "";
    } else {
      assert |parts[0]| >= 1;
      JoinNonEmpty(parts, " ");
      SplitJoin(parts, ' ');
      DecodeWordsParts(o);
    }
  }

  lemma {:induction false} JoinNonEmpty(parts: seq<string>, sep: string)
    requires |parts| >= 1 && |parts[0]| >= 1
    ensures Join(parts, sep) != ""
  {
    if |parts| > 1 {
      assert Join(parts, sep)[0] == parts[0][0];
    }
  }

  /** Different options never share an option string. */
  lemma EncodeInjective(o: Options, o': Options)
    requires Encode(o) == Encode(o')
    ensures o == o'
  {
    DecodeEncode(o);
    DecodeEncode(o');
  }

  // ----- the commands -----

  /** `set_icon(item_name, filename, number, width)`: the icon number is sent one-based, None counting as 0. */
  function SetIconCall(menu: Menu, item: Value, filename: string, number: Option<int>, width: Value): (c: Call)
    ensures c == MenuCall(menu, [S("Icon"), ItemName(item), S(filename),
                                 I(if number.Some? then number.value + 1 else 1), width])
  {
    MenuCall(menu, [S("Icon"), ItemName(item), S(filename), I((if number.Some? then number.value else 0) + 1), width])
  }

  function NameValue(newName: Option<string>): Value
  {
    if newName.Some? then S(newName.value) else NoneV
  }

  /** A given icon file name is truthy when it is not empty; UNSET and None are falsy. */
  predicate IconGiven(icon: Arg<string>) { icon.Given? && icon.value != "" }

  function IconFile(icon: Arg<string>): string { if icon.Given? then icon.value else "" }

  /** One command when the condition holds, none otherwise. */
  function When(b: bool, c: Call): seq<Call> { if b then [c] else [] }

  /** The first command when the first condition holds, else the second when the second holds. */
  function Either(b1: bool, c1: Call, b2: bool, c2: Call): seq<Call> { if b1 then [c1] else if b2 then [c2] else [] }

  /** The insert path: Insert, then for a named item the Default, Disable, Check and Icon follow-ups. */
  function InsertCalls(menu: Menu, item: Value, newName: Option<string>, thing: Value, opts: string,
                       default: Value, enabled: Value, checked: Value, icon: Arg<string>,
                       iconNumber: Option<int>, iconWidth: Value): seq<Call>
  {
    [MenuCall(menu, [S("Insert"), item, NameValue(newName), thing, S(opts)])]
    + if newName.Some? && newName.value != "" then FollowUps(menu, newName.value, default, enabled, checked, icon, iconNumber, iconWidth)
      else []
  }

  function FollowUps(menu: Menu, name: string, default: Value, enabled: Value, checked: Value, icon: Arg<string>,
                     iconNumber: Option<int>, iconWidth: Value): seq<Call>
  {
    When(Truthy(default), MenuCall(menu, [S("Default"), S(name)]))
    + When(!Truthy(enabled), MenuCall(menu, [S("Disable"), S(name)]))
    + When(Truthy(checked), MenuCall(menu, [S("Check"), S(name)]))
    + When(IconGiven(icon), SetIconCall(menu, S(name), IconFile(icon), iconNumber, iconWidth))
  }

  /** The subcommand word of a Menu command. */
  function Word(c: Call): Value { if |c.args| >= 2 then c.args[1] else NoneV }

  /** The subcommand words of a sequence of commands, in order. */
  function Words(cs: seq<Call>): (ws: seq<Value>)
    ensures |ws| == |cs|
  {
    if cs == [] then [] else [Word(cs[0])] + Words(cs[1..])
  }

  lemma {:induction false} WordsAppend(a: seq<Call>, b: seq<Call>)
    ensures Words(a + b) == Words(a) + Words(b)
  {
    if a == [] {
      assert a + b == b;
    } else {
      assert (a + b)[1..] == a[1..] + b;
      WordsAppend(a[1..], b);
    }
  }

  /** Every command is about the item `v` (its third argument). */
  predicate Targets(cs: seq<Call>, v: Value)
  {
    forall k :: 0 <= k < |cs| ==> |cs[k].args| >= 3 && cs[k].args[2] == v
  }

  lemma TargetsAppend(a: seq<Call>, b: seq<Call>, v: Value)
    requires Targets(a, v) && Targets(b, v)
    ensures Targets(a + b, v)
  {
    forall k | 0 <= k < |a + b|
      ensures |(a + b)[k].args| >= 3 && (a + b)[k].args[2] == v
    {
      if k >= |a| {
        assert (a + b)[k] == b[k - |a|];
      }
    }
  }

  lemma WordsWhen(b: bool, c: Call, w: Value)
    requires Word(c) == w
    ensures Words(When(b, c)) == if b then [w] else []
  {
  }

  /** The follow-ups after a named insert: Default, Disable, Check, Icon, in that order, each for the name. */
  lemma FollowUpsOrder(menu: Menu, name: string, default: Value, enabled: Value, checked: Value, icon: Arg<string>,
                       iconNumber: Option<int>, iconWidth: Value)
    ensures var cs := FollowUps(menu, name, default, enabled, checked, icon, iconNumber, iconWidth);
      && Words(cs) == (if Truthy(default) then [S("Default")] else [])
           + (if !Truthy(enabled) then [S("Disable")] else [])
           + (if Truthy(checked) then [S("Check")] else [])
           + (if IconGiven(icon) then [S("Icon")] else [])
  {
    var d := When(Truthy(default), MenuCall(menu, [S("Default"), S(name)]));
    var e := When(!Truthy(enabled), MenuCall(menu, [S("Disable"), S(name)]));
    var c := When(Truthy(checked), MenuCall(menu, [S("Check"), S(name)]));
    var i := When(IconGiven(icon), SetIconCall(menu, S(name), IconFile(icon), iconNumber, iconWidth));
    WordsWhen(Truthy(default), MenuCall(menu, [S("Default"), S(name)]), S("Default"));
    WordsWhen(!Truthy(enabled), MenuCall(menu, [S("Disable"), S(name)]), S("Disable"));
    WordsWhen(Truthy(checked), MenuCall(menu, [S("Check"), S(name)]), S("Check"));
    WordsWhen(IconGiven(icon), SetIconCall(menu, S(name), IconFile(icon), iconNumber, iconWidth), S("Icon"));
    WordsAppend(d + e + c, i);
    WordsAppend(d + e, c);
    WordsAppend(d, e);
  }

  lemma FollowUpsTargets(menu: Menu, name: string, default: Value, enabled: Value, checked: Value, icon: Arg<string>,
                         iconNumber: Option<int>, iconWidth: Value)
    ensures Targets(FollowUps(menu, name, default, enabled, checked, icon, iconNumber, iconWidth), S(name))
  {
    var d := When(Truthy(default), MenuCall(menu, [S("Default"), S(name)]));
    var e := When(!Truthy(enabled), MenuCall(menu, [S("Disable"), S(name)]));
    var c := When(Truthy(checked), MenuCall(menu, [S("Check"), S(name)]));
    var i := When(IconGiven(icon), SetIconCall(menu, S(name), IconFile(icon), iconNumber, iconWidth));
    TargetsAppend(d, e, S(name));
    TargetsAppend(d + e, c, S(name));
    TargetsAppend(d + e + c, i, S(name));
  }

  /**
   * The insert path sends one Insert command and then, only for a named
   * (non-separator) item, Default, Disable, Check and Icon, in that order,
   * each for the new name.
   */
  lemma InsertOrder(menu: Menu, item: Value, newName: Option<string>, thing: Value, opts: string,
                    default: Value, enabled: Value, checked: Value, icon: Arg<string>,
                    iconNumber: Option<int>, iconWidth: Value)
    ensures var cs := InsertCalls(menu, item, newName, thing, opts, default, enabled, checked, icon, iconNumber, iconWidth);
      var named := newName.Some? && newName.value != "";
      && cs[0] == MenuCall(menu, [S("Insert"), item, NameValue(newName), thing, S(opts)])
      && (!named ==> |cs| == 1)
      && Words(cs) == [S("Insert")]
           + (if named && Truthy(default) then [S("Default")] else [])
           + (if named && !Truthy(enabled) then [S("Disable")] else [])
           + (if named && Truthy(checked) then [S("Check")] else [])
           + (if named && IconGiven(icon) then [S("Icon")] else [])
  {
    var named := newName.Some? && newName.value != "";
    var head := [MenuCall(menu, [S("Insert"), item, NameValue(newName), thing, S(opts)])];
    var cs := InsertCalls(menu, item, newName, thing, opts, default, enabled, checked, icon, iconNumber, iconWidth);
    var a := if named && Truthy(default) then [S("Default")] else [];
    var b := if named && !Truthy(enabled) then [S("Disable")] else [];
    var c := if named && Truthy(checked) then [S("Check")] else [];
    var d := if named && IconGiven(icon) then [S("Icon")] else [];
    assert Words(head) == [S("Insert")];
    if named {
      var f := FollowUps(menu, newName.value, default, enabled, checked, icon, iconNumber, iconWidth);
      FollowUpsOrder(menu, newName.value, default, enabled, checked, icon, iconNumber, iconWidth);
      assert cs == head + f;
      assert Words(f) == a + b + c + d;
      WordsAppend(head, f);
      Prepend4([S("Insert")], a, b, c, d);
    } else {
      assert cs == head + [];
      assert a + b + c + d == [];
    }
  }

  /** Every follow-up of an insert is about the new name. */
  lemma InsertTargets(menu: Menu, item: Value, newName: Option<string>, thing: Value, opts: string,
                      default: Value, enabled: Value, checked: Value, icon: Arg<string>,
                      iconNumber: Option<int>, iconWidth: Value)
    ensures Targets(InsertCalls(menu, item, newName, thing, opts, default, enabled, checked, icon, iconNumber, iconWidth)[1..],
                    NameValue(newName))
  {
    var head := [MenuCall(menu, [S("Insert"), item, NameValue(newName), thing, S(opts)])];
    if newName.Some? && newName.value != "" {
      var f := FollowUps(menu, newName.value, default, enabled, checked, icon, iconNumber, iconWidth);
      FollowUpsTargets(menu, newName.value, default, enabled, checked, icon, iconNumber, iconWidth);
      assert (head + f)[1..] == f;
    }
  }

  /**
   * The update path: the options (only when non-empty), the action,
   * Enable/Disable, Check/Uncheck, Icon/NoIcon (the older module never
   * removes an icon) and Rename when a new name was passed, each for the item.
   */
  function UpdateCalls(menu: Menu, item: Value, newName: Arg<string>, thing: Value, opts: string,
                       enabled: Value, checked: Value, icon: Arg<string>, iconNumber: Option<int>,
                       iconWidth: Value, legacy: bool): seq<Call>
  {
    UpdateHead(menu, item, thing, opts, legacy)
    + UpdateStates(menu, item, enabled, checked, icon, iconNumber, iconWidth, legacy)
    + When(!newName.Unset?, RenameCall(menu, item, newName))
  }

  /** The options (sent with None as the action, "" in the older module) and the action. */
  function UpdateHead(menu: Menu, item: Value, thing: Value, opts: string, legacy: bool): seq<Call>
  {
    When(opts != "", MenuCall(menu, [S("Add"), item, if legacy then S("") else NoneV, S(opts)]))
    + When(thing != NoneV, MenuCall(menu, [S("Add"), item, thing]))
  }

  function RenameCall(menu: Menu, item: Value, newName: Arg<string>): Call
  {
    MenuCall(menu, [S("Rename"), item, if newName.Given? then S(newName.value) else NoneV])
  }

  function UpdateStates(menu: Menu, item: Value, enabled: Value, checked: Value, icon: Arg<string>,
                        iconNumber: Option<int>, iconWidth: Value, legacy: bool): seq<Call>
  {
    Either(Truthy(enabled), MenuCall(menu, [S("Enable"), item]), enabled != NoneV, MenuCall(menu, [S("Disable"), item]))
    + Either(Truthy(checked), MenuCall(menu, [S("Check"), item]), checked != NoneV, MenuCall(menu, [S("Uncheck"), item]))
    + Either(IconGiven(icon), SetIconCall(menu, item, IconFile(icon), iconNumber, iconWidth),
             icon.Null? && !legacy, MenuCall(menu, [S("NoIcon"), item]))
  }

  lemma WordsEither(b1: bool, c1: Call, b2: bool, c2: Call, v: Value)
    requires |c1.args| >= 3 && c1.args[2] == v && |c2.args| >= 3 && c2.args[2] == v
    ensures Words(Either(b1, c1, b2, c2)) == if b1 then [Word(c1)] else if b2 then [Word(c2)] else []
    ensures Targets(Either(b1, c1, b2, c2), v)
  {
  }

  lemma UpdateStatesOrder(menu: Menu, item: Value, enabled: Value, checked: Value, icon: Arg<string>,
                          iconNumber: Option<int>, iconWidth: Value, legacy: bool)
    requires IntOf(item).None?
    ensures var cs := UpdateStates(menu, item, enabled, checked, icon, iconNumber, iconWidth, legacy);
      Words(cs) == (if Truthy(enabled) then [S("Enable")] else if enabled != NoneV then [S("Disable")] else [])
           + (if Truthy(checked) then [S("Check")] else if checked != NoneV then [S("Uncheck")] else [])
           + (if IconGiven(icon) then [S("Icon")] else if icon.Null? && !legacy then [S("NoIcon")] else [])
  {
    var e := Either(Truthy(enabled), MenuCall(menu, [S("Enable"), item]), enabled != NoneV, MenuCall(menu, [S("Disable"), item]));
    var c := Either(Truthy(checked), MenuCall(menu, [S("Check"), item]), checked != NoneV, MenuCall(menu, [S("Uncheck"), item]));
    var i := Either(IconGiven(icon), SetIconCall(menu, item, IconFile(icon), iconNumber, iconWidth),
                    icon.Null? && !legacy, MenuCall(menu, [S("NoIcon"), item]));
    WordsEither(Truthy(enabled), MenuCall(menu, [S("Enable"), item]), enabled != NoneV, MenuCall(menu, [S("Disable"), item]), item);
    WordsEither(Truthy(checked), MenuCall(menu, [S("Check"), item]), checked != NoneV, MenuCall(menu, [S("Uncheck"), item]), item);
    WordsEither(IconGiven(icon), SetIconCall(menu, item, IconFile(icon), iconNumber, iconWidth),
                icon.Null? && !legacy, MenuCall(menu, [S("NoIcon"), item]), item);
    WordsAppend(e + c, i);
    WordsAppend(e, c);
  }

  lemma UpdateStatesTargets(menu: Menu, item: Value, enabled: Value, checked: Value, icon: Arg<string>,
                            iconNumber: Option<int>, iconWidth: Value, legacy: bool)
    requires IntOf(item).None?
    ensures Targets(UpdateStates(menu, item, enabled, checked, icon, iconNumber, iconWidth, legacy), item)
  {
    var e := Either(Truthy(enabled), MenuCall(menu, [S("Enable"), item]), enabled != NoneV, MenuCall(menu, [S("Disable"), item]));
    var c := Either(Truthy(checked), MenuCall(menu, [S("Check"), item]), checked != NoneV, MenuCall(menu, [S("Uncheck"), item]));
    var i := Either(IconGiven(icon), SetIconCall(menu, item, IconFile(icon), iconNumber, iconWidth),
                    icon.Null? && !legacy, MenuCall(menu, [S("NoIcon"), item]));
    WordsEither(Truthy(enabled), MenuCall(menu, [S("Enable"), item]), enabled != NoneV, MenuCall(menu, [S("Disable"), item]), item);
    WordsEither(Truthy(checked), MenuCall(menu, [S("Check"), item]), checked != NoneV, MenuCall(menu, [S("Uncheck"), item]), item);
    WordsEither(IconGiven(icon), SetIconCall(menu, item, IconFile(icon), iconNumber, iconWidth),
                icon.Null? && !legacy, MenuCall(menu, [S("NoIcon"), item]), item);
    TargetsAppend(e, c, item);
    TargetsAppend(e + c, i, item);
  }

  lemma UpdateHeadOrder(menu: Menu, item: Value, thing: Value, opts: string, legacy: bool)
    ensures Words(UpdateHead(menu, item, thing, opts, legacy))
      == (if opts != "" then [S("Add")] else []) + (if thing != NoneV then [S("Add")] else [])
    ensures Targets(UpdateHead(menu, item, thing, opts, legacy), item)
  {
    var oc := MenuCall(menu, [S("Add"), item, if legacy then S("") else NoneV, S(opts)]);
    var tc := MenuCall(menu, [S("Add"), item, thing]);
    assert UpdateHead(menu, item, thing, opts, legacy) == When(opts != "", oc) + When(thing != NoneV, tc);
    WordsWhen(opts != "", oc, S("Add"));
    WordsWhen(thing != NoneV, tc, S("Add"));
    WordsAppend(When(opts != "", oc), When(thing != NoneV, tc));
    TargetsAppend(When(opts != "", oc), When(thing != NoneV, tc), item);
  }

  /**
   * The update path's commands, in order: Add for the options and for the
   * action, then Enable/Disable, Check/Uncheck, Icon/NoIcon, then Rename.
   */
  lemma UpdateOrder(menu: Menu, item: Value, newName: Arg<string>, thing: Value, opts: string,
                    enabled: Value, checked: Value, icon: Arg<string>, iconNumber: Option<int>,
                    iconWidth: Value, legacy: bool)
    requires IntOf(item).None?
    ensures Words(UpdateCalls(menu, item, newName, thing, opts, enabled, checked, icon, iconNumber, iconWidth, legacy))
      == (if opts != "" then [S("Add")] else []) + (if thing != NoneV then [S("Add")] else [])
           + (if Truthy(enabled) then [S("Enable")] else if enabled != NoneV then [S("Disable")] else [])
           + (if Truthy(checked) then [S("Check")] else if checked != NoneV then [S("Uncheck")] else [])
           + (if IconGiven(icon) then [S("Icon")] else if icon.Null? && !legacy then [S("NoIcon")] else [])
           + (if !newName.Unset? then [S("Rename")] else [])
  {
    var h := UpdateHead(menu, item, thing, opts, legacy);
    var s := UpdateStates(menu, item, enabled, checked, icon, iconNumber, iconWidth, legacy);
    var rn := When(!newName.Unset?, RenameCall(menu, item, newName));
    UpdateHeadOrder(menu, item, thing, opts, legacy);
    UpdateStatesOrder(menu, item, enabled, checked, icon, iconNumber, iconWidth, legacy);
    WordsWhen(!newName.Unset?, RenameCall(menu, item, newName), S("Rename"));
    WordsAppend(h + s, rn);
    WordsAppend(h, s);
    var a := if opts != "" then [S("Add")] else [];
    var b := if thing != NoneV then [S("Add")] else [];
    var c := if Truthy(enabled) then [S("Enable")] else if enabled != NoneV then [S("Disable")] else [];
    var d := if Truthy(checked) then [S("Check")] else if checked != NoneV then [S("Uncheck")] else [];
    var e := if IconGiven(icon) then [S("Icon")] else if icon.Null? && !legacy then [S("NoIcon")] else [];
    var g := if !newName.Unset? then [S("Rename")] else [];
    assert Words(h) == a + b && Words(s) == c + d + e && Words(rn) == g;
    Regroup6(a, b, c, d, e, g);
  }

  lemma Regroup6<T>(a: seq<T>, b: seq<T>, c: seq<T>, d: seq<T>, e: seq<T>, g: seq<T>)
    ensures (a + b) + (c + d + e) + g == a + b + c + d + e + g
  {
  }

  /** With nothing to change, the update path sends nothing. */
  lemma UpdateNothing(menu: Menu, item: Value, icon: Arg<string>, iconNumber: Option<int>, iconWidth: Value, legacy: bool)
    requires !IconGiven(icon) && (legacy || !icon.Null?)
    ensures UpdateCalls(menu, item, Unset, NoneV, "", NoneV, NoneV, icon, iconNumber, iconWidth, legacy) == []
  {
  }

  /** Every command of the update path is about the item. */
  lemma UpdateTargets(menu: Menu, item: Value, newName: Arg<string>, thing: Value, opts: string,
                      enabled: Value, checked: Value, icon: Arg<string>, iconNumber: Option<int>,
                      iconWidth: Value, legacy: bool)
    requires IntOf(item).None?
    ensures Targets(UpdateCalls(menu, item, newName, thing, opts, enabled, checked, icon, iconNumber, iconWidth, legacy), item)
  {
    var h := UpdateHead(menu, item, thing, opts, legacy);
    var s := UpdateStates(menu, item, enabled, checked, icon, iconNumber, iconWidth, legacy);
    var rn := When(!newName.Unset?, RenameCall(menu, item, newName));
    UpdateHeadOrder(menu, item, thing, opts, legacy);
    UpdateStatesTargets(menu, item, enabled, checked, icon, iconNumber, iconWidth, legacy);
    TargetsAppend(h, s, item);
    TargetsAppend(h + s, rn, item);
  }

  /** Regrouping concatenations. */
  lemma Prepend3<T>(l: seq<T>, a: seq<T>, b: seq<T>, c: seq<T>)
    ensures l + (a + b + c) == l + a + b + c
  {
  }

  lemma Prepend4<T>(l: seq<T>, a: seq<T>, b: seq<T>, c: seq<T>, d: seq<T>)
    ensures l + (a + b + c + d) == l + a + b + c + d
  {
  }

  method EmitWhen(host: Host, b: bool, c: Call)
    modifies host
    ensures host.log == old(host.log) + When(b, c)
  {
    if b {
      host.Emit(c);
    }
  }

  method EmitEither(host: Host, b1: bool, c1: Call, b2: bool, c2: Call)
    modifies host
    ensures host.log == old(host.log) + Either(b1, c1, b2, c2)
  {
    if b1 {
      host.Emit(c1);
    } else if b2 {
      host.Emit(c2);
    }
  }

  /**
   * `_insert_or_update` on the insert path (add, add_submenu, insert,
   * insert_submenu): the item reference converted, the action chosen (a
   * non-callable callback raises partial's TypeError before anything is
   * sent), the option string built, then the commands sent in order.
   */
  method InsertItem(host: Host, menu: Menu, insertBefore: Value, newName: Option<string>,
                    callback: Value, args: seq<Value>, submenu: Option<Menu>, priority: Option<int>, default: Value,
                    enabled: Value, checked: Value, radio: Option<bool>, right: Option<bool>,
                    newColumn: Option<bool>, barColumn: Option<bool>, icon: Arg<string>,
                    iconNumber: Option<int>, iconWidth: Value) returns (err: Option<Error>)
    modifies host
    ensures var t := Thing(submenu, callback, args);
      && (err.Some? <==> t.Err?)
      && (t.Err? ==> err == Some(t.error) && host.log == old(host.log))
      && (t.Ok? ==>
            host.log == old(host.log) + InsertCalls(menu, ItemName(insertBefore), newName, t.value,
                                                   Encode(Options(priority, radio, right, newColumn, barColumn)),
                                                   default, enabled, checked, icon, iconNumber, iconWidth))
  {
    var item := ItemName(insertBefore);
    var t := Thing(submenu, callback, args);
    if t.Err? {
      return Some(t.error);
    }
    var opts := OptionString(priority, radio, right, newColumn, barColumn);
    var head := MenuCall(menu, [S("Insert"), item, NameValue(newName), t.value, S(opts)]);
    host.Emit(head);
    if newName.Some? && newName.value != "" {
      EmitFollowUps(host, menu, newName.value, default, enabled, checked, icon, iconNumber, iconWidth);
      Append3(old(host.log), [head], FollowUps(menu, newName.value, default, enabled, checked, icon, iconNumber, iconWidth));
    } else {
      assert [head] + [] == [head];
    }
    err := None;
  }

  method EmitFollowUps(host: Host, menu: Menu, name: string, default: Value, enabled: Value, checked: Value,
                       icon: Arg<string>, iconNumber: Option<int>, iconWidth: Value)
    modifies host
    ensures host.log == old(host.log) + FollowUps(menu, name, default, enabled, checked, icon, iconNumber, iconWidth)
  {
    EmitWhen(host, Truthy(default), MenuCall(menu, [S("Default"), S(name)]));
    EmitWhen(host, !Truthy(enabled), MenuCall(menu, [S("Disable"), S(name)]));
    EmitWhen(host, Truthy(checked), MenuCall(menu, [S("Check"), S(name)]));
    EmitWhen(host, IconGiven(icon), SetIconCall(menu, S(name), IconFile(icon), iconNumber, iconWidth));
  }

  /**
   * `insert`/`insert_submenu`: None as insert_before raises TypeError, and
   * a non-callable callback partial's TypeError, before anything is sent.
   */
  method Insert(host: Host, menu: Menu, insertBefore: Value, newName: Option<string>,
                callback: Value, args: seq<Value>, submenu: Option<Menu>, priority: Option<int>, default: Value,
                enabled: Value, checked: Value, radio: Option<bool>, right: Option<bool>,
                newColumn: Option<bool>, barColumn: Option<bool>, icon: Arg<string>,
                iconNumber: Option<int>, iconWidth: Value) returns (err: Option<Error>)
    modifies host
    ensures err.Some? <==> insertBefore == NoneV || Thing(submenu, callback, args).Err?
    ensures insertBefore == NoneV ==> err == Some(TypeError("insert_before must not be None"))
    ensures insertBefore != NoneV && submenu.None? && callback != NoneV && !Callable(callback) ==>
              err == Some(PartialError)
    ensures err.Some? ==> host.log == old(host.log)
    ensures err.None? ==>
      host.log == old(host.log) + InsertCalls(menu, ItemName(insertBefore), newName,
                                             Thing(submenu, callback, args).value,
                                             Encode(Options(priority, radio, right, newColumn, barColumn)),
                                             default, enabled, checked, icon, iconNumber, iconWidth)
  {
    if insertBefore == NoneV {
      return Some(TypeError("insert_before must not be None"));
    }
    err := InsertItem(host, menu, insertBefore, newName, callback, args, submenu, priority, default, enabled,
                      checked, radio, right, newColumn, barColumn, icon, iconNumber, iconWidth);
  }

  /**
   * `update(item_name, ...)`: None as item_name raises TypeError, and a
   * non-callable callback partial's TypeError, before anything is sent;
   * otherwise the update commands, in order. `update` binds no arguments.
   */
  method Update(host: Host, menu: Menu, itemName: Value, newName: Arg<string>, callback: Value,
                submenu: Option<Menu>, priority: Option<int>, enabled: Value, checked: Value,
                radio: Option<bool>, right: Option<bool>, newColumn: Option<bool>, barColumn: Option<bool>,
                icon: Arg<string>, iconNumber: Option<int>, iconWidth: Value, legacy: bool)
    returns (err: Option<Error>)
    modifies host
    ensures err.Some? <==> itemName == NoneV || Thing(submenu, callback, []).Err?
    ensures itemName == NoneV ==> err == Some(TypeError("item_name must not be None"))
    ensures itemName != NoneV && submenu.None? && callback != NoneV && !Callable(callback) ==>
              err == Some(PartialError)
    ensures err.Some? ==> host.log == old(host.log)
    ensures err.None? ==>
      host.log == old(host.log) + UpdateCalls(menu, ItemName(itemName), newName, Thing(submenu, callback, []).value,
                                             Encode(Options(priority, radio, right, newColumn, barColumn)),
                                             enabled, checked, icon, iconNumber, iconWidth, legacy)
  {
    if itemName == NoneV {
      return Some(TypeError("item_name must not be None"));
    }
    err := UpdateItem(host, menu, itemName, newName, callback, submenu, priority, enabled, checked, radio, right,
                      newColumn, barColumn, icon, iconNumber, iconWidth, legacy);
  }

  /** `_insert_or_update` on the update path, once the item reference is known not to be None. */
  method UpdateItem(host: Host, menu: Menu, itemName: Value, newName: Arg<string>, callback: Value,
                    submenu: Option<Menu>, priority: Option<int>, enabled: Value, checked: Value,
                    radio: Option<bool>, right: Option<bool>, newColumn: Option<bool>, barColumn: Option<bool>,
                    icon: Arg<string>, iconNumber: Option<int>, iconWidth: Value, legacy: bool)
    returns (err: Option<Error>)
    modifies host
    ensures var t := Thing(submenu, callback, []);
      && (err.Some? <==> t.Err?)
      && (t.Err? ==> err == Some(t.error) && host.log == old(host.log))
      && (t.Ok? ==>
            host.log == old(host.log) + UpdateCalls(menu, ItemName(itemName), newName, t.value,
                                                   Encode(Options(priority, radio, right, newColumn, barColumn)),
                                                   enabled, checked, icon, iconNumber, iconWidth, legacy))
  {
    var item := ItemName(itemName);
    var t := Thing(submenu, callback, []);
    if t.Err? {
      return Some(t.error);
    }
    var opts := OptionString(priority, radio, right, newColumn, barColumn);
    EmitUpdate(host, menu, item, newName, t.value, opts, enabled, checked, icon, iconNumber, iconWidth, legacy);
    err := None;
  }

  /** The update commands for a known reference, action and option string, sent in order. */
  method EmitUpdate(host: Host, menu: Menu, item: Value, newName: Arg<string>, thing: Value, opts: string,
                    enabled: Value, checked: Value, icon: Arg<string>, iconNumber: Option<int>, iconWidth: Value,
                    legacy: bool)
    modifies host
    ensures host.log == old(host.log) + UpdateCalls(menu, item, newName, thing, opts,
                                                   enabled, checked, icon, iconNumber, iconWidth, legacy)
  {
    EmitWhen(host, opts != "", MenuCall(menu, [S("Add"), item, if legacy then S("") else NoneV, S(opts)]));
    EmitWhen(host, thing != NoneV, MenuCall(menu, [S("Add"), item, thing]));
    EmitStates(host, menu, item, enabled, checked, icon, iconNumber, iconWidth, legacy);
    EmitWhen(host, !newName.Unset?, RenameCall(menu, item, newName));
    Prepend4(old(host.log), When(opts != "", MenuCall(menu, [S("Add"), item, if legacy then S("") else NoneV, S(opts)])),
             When(thing != NoneV, MenuCall(menu, [S("Add"), item, thing])),
             UpdateStates(menu, item, enabled, checked, icon, iconNumber, iconWidth, legacy),
             When(!newName.Unset?, RenameCall(menu, item, newName)));
  }

  method EmitStates(host: Host, menu: Menu, item: Value, enabled: Value, checked: Value, icon: Arg<string>,
                    iconNumber: Option<int>, iconWidth: Value, legacy: bool)
    modifies host
    ensures host.log == old(host.log) + UpdateStates(menu, item, enabled, checked, icon, iconNumber, iconWidth, legacy)
  {
    EmitEither(host, Truthy(enabled), MenuCall(menu, [S("Enable"), item]), enabled != NoneV, MenuCall(menu, [S("Disable"), item]));
    EmitEither(host, Truthy(checked), MenuCall(menu, [S("Check"), item]), checked != NoneV, MenuCall(menu, [S("Uncheck"), item]));
    EmitEither(host, IconGiven(icon), SetIconCall(menu, item, IconFile(icon), iconNumber, iconWidth),
               icon.Null? && !legacy, MenuCall(menu, [S("NoIcon"), item]));
  }

  /** `add_separator`: a bare Insert; the older module sends Insert with no name, action or options. */
  function AddSeparator(menu: Menu, legacy: bool): (c: Call)
    ensures legacy ==> [c] == InsertCalls(menu, NoneV, None, NoneV, Encode(NoOptions), B(false), B(true), B(false),
                                          Null, None, NoneV)
  {
    if legacy then MenuCall(menu, [S("Insert"), NoneV, NoneV, NoneV, S("")]) else MenuCall(menu, [S("Insert")])
  }

  /** `insert_separator(insert_before)`: TypeError for None, else Insert before the item. */
  function InsertSeparator(menu: Menu, insertBefore: Value, legacy: bool): (r: Result<Call>)
    ensures r.Err? <==> insertBefore == NoneV
    ensures r.Err? ==> r.error == TypeError("insert_before must not be None")
    ensures r.Ok? && !legacy ==> r.value == MenuCall(menu, [S("Insert"), ItemName(insertBefore)])
    ensures r.Ok? && legacy ==> [r.value] == InsertCalls(menu, ItemName(insertBefore), None, NoneV, Encode(NoOptions),
                                                         B(false), B(true), B(false), Null, None, NoneV)
  {
    if insertBefore == NoneV then Err(TypeError("insert_before must not be None"))
    else if legacy then Ok(MenuCall(menu, [S("Insert"), ItemName(insertBefore), NoneV, NoneV, S("")]))
    else Ok(MenuCall(menu, [S("Insert"), ItemName(insertBefore)]))
  }

  /** `set_color(color, affects_submenus)`: "Single" when the submenus are not affected. */
  function SetColor(menu: Menu, color: Value, affectsSubmenus: Value): (c: Call)
    ensures c.cmd == "Menu" && |c.args| == 4
    ensures c.args[3] == S("Single") <==> !Truthy(affectsSubmenus)
    ensures c.args[3] == NoneV <==> Truthy(affectsSubmenus)
    ensures c.args[..3] == [S(menu.name), S("Color"), color]
  {
    MenuCall(menu, [S("Color"), color, if !Truthy(affectsSubmenus) then S("Single") else NoneV])
  }

  /** `show(x, y, relative_to)`: the coordinate mode for menus, then Show. */
  function Show(menu: Menu, x: Value, y: Value, relativeTo: string): (r: Result<seq<Call>>)
    ensures r.Err? <==> relativeTo !in St.CoordModes
    ensures r.Err? ==> r.error == ValueError(Repr(relativeTo) + " is not a valid coord mode")
    ensures r.Ok? ==> r.value == [Call("CoordMode", [S("menu"), S(relativeTo)]), MenuCall(menu, [S("Show"), x, y])]
  {
    if relativeTo !in St.CoordModes then Err(ValueError(Repr(relativeTo) + " is not a valid coord mode"))
    else Ok([St.SetCoordMode("menu", relativeTo).value, MenuCall(menu, [S("Show"), x, y])])
  }

  // ----- the tray menu -----

  const Tray := Menu("tray")

  /** The Icon command's freeze word: "0" when affected by Suspend, "1" when not, None when unspecified. */
  function Freeze(affectedBySuspend: Value): (v: Value)
    ensures Truthy(affectedBySuspend) ==> v == S("0")
    ensures !Truthy(affectedBySuspend) && affectedBySuspend != NoneV ==> v == S("1")
    ensures affectedBySuspend == NoneV ==> v == NoneV
  {
    if Truthy(affectedBySuspend) then S("0") else if affectedBySuspend != NoneV then S("1") else NoneV
  }

  /**
   * `TrayMenu.set_tray_icon(filename, number=..., affected_by_suspend=...)`:
   * None resets the default icon with "*" (dropping the other arguments),
   * an int number is sent one-based.
   */
  function SetTrayIcon(filename: Arg<string>, number: Value, affectedBySuspend: Value): (c: Call)
    ensures filename.Null? ==> c == MenuCall(Tray, [S("Icon"), S("*"), NoneV, NoneV])
    ensures c.cmd == "Menu" && |c.args| == 5
    ensures !filename.Null? ==> c.args[2] == S(if filename.Given? then filename.value else "")
                                && c.args[4] == Freeze(affectedBySuspend)
    ensures !filename.Null? && IntOf(number).Some? ==> c.args[3] == I(IntOf(number).value + 1)
    ensures !filename.Null? && IntOf(number).None? ==> c.args[3] == number
  {
    if filename.Null? then MenuCall(Tray, [S("Icon"), S("*"), NoneV, NoneV])
    else
      var n := if IntOf(number).Some? then I(IntOf(number).value + 1) else number;
      MenuCall(Tray, [S("Icon"), S(if filename.Given? then filename.value else ""), n, Freeze(affectedBySuspend)])
  }

  /** The older `set_tray_icon(filename=None, number=0, ...)`: the file as given and number+1. */
  function LegacySetTrayIcon(filename: Value, number: int, affectedBySuspend: Value): (c: Call)
    ensures c == MenuCall(Tray, [S("Icon"), filename, I(number + 1), Freeze(affectedBySuspend)])
  {
    MenuCall(Tray, [S("Icon"), filename, I(number + 1), Freeze(affectedBySuspend)])
  }

  /** `tray_icon_number`: the host's A_IconNumber minus 1 when it is an int, else None. */
  function TrayIconNumber(reply: Value): (n: Option<int>)
    ensures n.Some? <==> IntOf(reply).Some?
    ensures n.Some? ==> n.value + 1 == IntOf(reply).value
  {
    if IntOf(reply).Some? then Some(IntOf(reply).value - 1) else None
  }

  /** Setting an icon number and reading it back gives the number: the one-based offset cancels. */
  lemma TrayIconNumberRoundTrip(file: string, number: int)
    ensures TrayIconNumber(SetTrayIcon(Given(file), I(number), NoneV).args[3]) == Some(number)
    ensures TrayIconNumber(LegacySetTrayIcon(S(file), number, NoneV).args[3]) == Some(number)
  {
  }

  /** `tray_icon_file`: the host's A_IconFile, None when empty. */
  function TrayIconFile(reply: Value): (f: Value)
    ensures f == NoneV <==> !Truthy(reply) || reply == NoneV
    ensures Truthy(reply) ==> f == reply
  {
    if Truthy(reply) then reply else NoneV
  }

  /** The `tray_icon_number` setter: only when an icon file is set, that file with the new number. */
  function SetTrayIconNumber(fileReply: Value, number: Value): (cs: seq<Call>)
    ensures cs == [] <==> !Truthy(fileReply)
    ensures Truthy(fileReply) && fileReply.S? ==> cs == [SetTrayIcon(Given(fileReply.s), number, NoneV)]
  {
    var f := TrayIconFile(fileReply);
    if !Truthy(f) then []
    else [SetTrayIcon(Given(PyStr(f)), number, NoneV)]
  }
}
