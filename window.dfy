/**
 * Window criteria (`Windows` in the `window` module, and the older copy):
 * the immutable query object that `filter` and `exclude` refine, the four
 * WinTitle/WinText/ExcludeTitle/ExcludeText strings it is turned into,
 * its repr(), the title match mode commands, and the setup commands sent
 * before each window command.
 */
module Window {

  import opened Base
  import opened Text
  import St = Settings

  const TitleMatchModes: set<string> := {"startswith", "contains", "exact", "regex"}
  const TextMatchModes: set<string> := {"fast", "slow"}

  /**
   * A `Windows` instance. A criterion is UNSET (not part of the query), None
   * (the criteria of a window that does not exist) or a value.
   */
  datatype Windows = Windows(
    title: Arg<string>, className: Arg<string>, id: Arg<int>, pid: Arg<int>, exe: Arg<string>,
    text: Arg<string>, excludeTitle: Arg<string>, excludeText: Arg<string>,
    hiddenWindows: bool, hiddenText: bool, titleMode: string, textMode: string)

  /** `windows = Windows()`: the dataclass defaults. */
  const Visible := Windows(Unset, Unset, Unset, Unset, Unset, Unset, Unset, Unset, false, true, "startswith", "fast")

  /** The inclusion criteria that `filter` accepts. */
  datatype Criteria = Criteria(
    title: Arg<string>, className: Arg<string>, id: Arg<int>, pid: Arg<int>, exe: Arg<string>, text: Arg<string>)

  const NoCriteria := Criteria(Unset, Unset, Unset, Unset, Unset, Unset)

  /** The new value of a field: the argument unless it is UNSET. */
  function Pick<T>(given: Arg<T>, current: Arg<T>): Arg<T>
  {
    if given.Unset? then current else given
  }

  function Either<T>(given: Option<T>, current: T): T
  {
    if given.Some? then given.value else current
  }

  const MatchModeError := " is not a valid title match mode"

  /**
   * `_filter`: the same object when nothing is given, a ValueError for an
   * unknown match mode, otherwise a copy with the given criteria and mode.
   */
  function Filter(w: Windows, c: Criteria, mode: Option<string>): (r: Result<Windows>)
    ensures c == NoCriteria && mode.None? ==> r == Ok(w)
    ensures r.Err? <==> mode.Some? && mode.value !in TitleMatchModes
    ensures r.Err? ==> r.error == ValueError(Repr(mode.value) + MatchModeError)
    ensures r.Ok? ==> var v := r.value;
      && (c.title.Unset? ==> v.title == w.title) && (!c.title.Unset? ==> v.title == c.title)
      && (c.className.Unset? ==> v.className == w.className) && (!c.className.Unset? ==> v.className == c.className)
      && (c.id.Unset? ==> v.id == w.id) && (!c.id.Unset? ==> v.id == c.id)
      && (c.pid.Unset? ==> v.pid == w.pid) && (!c.pid.Unset? ==> v.pid == c.pid)
      && (c.exe.Unset? ==> v.exe == w.exe) && (!c.exe.Unset? ==> v.exe == c.exe)
      && (c.text.Unset? ==> v.text == w.text) && (!c.text.Unset? ==> v.text == c.text)
      && v.titleMode == (if mode.Some? then mode.value else w.titleMode)
      && v.excludeTitle == w.excludeTitle && v.excludeText == w.excludeText
      && v.hiddenWindows == w.hiddenWindows && v.hiddenText == w.hiddenText && v.textMode == w.textMode
  {
    if c == NoCriteria && mode.None? then Ok(w)
    else if mode.Some? && mode.value !in TitleMatchModes then Err(ValueError(Repr(mode.value) + MatchModeError))
    else Ok(w.(title := Pick(c.title, w.title), className := Pick(c.className, w.className),
               id := Pick(c.id, w.id), pid := Pick(c.pid, w.pid), exe := Pick(c.exe, w.exe),
               text := Pick(c.text, w.text), titleMode := Either(mode, w.titleMode)))
  }

  /** Later criteria override earlier ones field by field. */
  function Merge(later: Criteria, earlier: Criteria): Criteria
  {
    Criteria(Pick(later.title, earlier.title), Pick(later.className, earlier.className),
             Pick(later.id, earlier.id), Pick(later.pid, earlier.pid),
             Pick(later.exe, earlier.exe), Pick(later.text, earlier.text))
  }

  function OrElse<T>(later: Option<T>, earlier: Option<T>): Option<T>
  {
    if later.Some? then later else earlier
  }

  /**
   * Chained filters: `w.filter(a).filter(b)` is `w.filter(a and then b)`,
   * and filtering twice with the same criteria changes nothing more.
   */
  lemma FilterCompose(w: Windows, c1: Criteria, m1: Option<string>, c2: Criteria, m2: Option<string>)
    requires Filter(w, c1, m1).Ok?
    ensures Filter(Filter(w, c1, m1).value, c2, m2) == Filter(w, Merge(c2, c1), OrElse(m2, m1))
  {
    if c2 == NoCriteria && m2.None? {
      assert Merge(c2, c1) == c1;
    } else if c1 == NoCriteria && m1.None? {
      assert Merge(c2, c1) == c2;
    }
  }

  /** Refiltering with the same criteria changes nothing more. */
  lemma FilterIdempotent(w: Windows, c: Criteria, m: Option<string>)
    requires Filter(w, c, m).Ok?
    ensures Filter(Filter(w, c, m).value, c, m) == Filter(w, c, m)
  {
    FilterCompose(w, c, m, c, m);
    assert Merge(c, c) == c;
  }

  /**
   * `exclude(title, text, match)`: the same object when nothing is given,
   * a ValueError for an unknown match mode, otherwise a copy with the
   * given exclusions and mode.
   */
  function Exclude(w: Windows, title: Arg<string>, text: Arg<string>, mode: Option<string>): (r: Result<Windows>)
    ensures title.Unset? && text.Unset? && mode.None? ==> r == Ok(w)
    ensures r.Err? <==> mode.Some? && mode.value !in TitleMatchModes
    ensures r.Err? ==> r.error == ValueError(Repr(mode.value) + MatchModeError)
    ensures r.Ok? ==> var v := r.value;
      && (title.Unset? ==> v.excludeTitle == w.excludeTitle) && (!title.Unset? ==> v.excludeTitle == title)
      && (text.Unset? ==> v.excludeText == w.excludeText) && (!text.Unset? ==> v.excludeText == text)
      && v.titleMode == (if mode.Some? then mode.value else w.titleMode)
      && v.title == w.title && v.className == w.className && v.id == w.id && v.pid == w.pid
      && v.exe == w.exe && v.text == w.text
      && v.hiddenWindows == w.hiddenWindows && v.hiddenText == w.hiddenText && v.textMode == w.textMode
  {
    if title.Unset? && text.Unset? && mode.None? then Ok(w)
    else if mode.Some? && mode.value !in TitleMatchModes then Err(ValueError(Repr(mode.value) + MatchModeError))
    else Ok(w.(excludeTitle := Pick(title, w.excludeTitle), excludeText := Pick(text, w.excludeText),
               titleMode := Either(mode, w.titleMode)))
  }

  /** Excluding and filtering touch disjoint criteria, so their order does not matter. */
  lemma FilterExcludeCommute(w: Windows, c: Criteria, title: Arg<string>, text: Arg<string>)
    ensures Filter(w, c, None).Ok? && Exclude(w, title, text, None).Ok?
    ensures Exclude(Filter(w, c, None).value, title, text, None) ==
            Filter(Exclude(w, title, text, None).value, c, None)
  {
  }

  /** `repr(match)` in the older module, where a None match is also rejected. */
  function MatchRepr(mode: Arg<string>): string
  {
    if mode.Given? then Repr(mode.value) else "None"
  }

  /**
   * The older `_filter`: the match mode defaults to UNSET, so passing None
   * is an invalid mode rather than "no change".
   */
  function LegacyFilter(w: Windows, c: Criteria, mode: Arg<string>): (r: Result<Windows>)
    ensures c == NoCriteria && mode.Unset? ==> r == Ok(w)
    ensures r.Err? <==> mode.Null? || (mode.Given? && mode.value !in TitleMatchModes)
    ensures r.Err? ==> r.error == ValueError(MatchRepr(mode) + MatchModeError)
    ensures mode.Null? ==> r == Err(ValueError("None" + MatchModeError))
    ensures r.Ok? ==> r == Filter(w, c, if mode.Given? then Some(mode.value) else None)
  {
    if c == NoCriteria && mode.Unset? then Ok(w)
    else if !mode.Unset? && !(mode.Given? && mode.value in TitleMatchModes) then
      Err(ValueError(MatchRepr(mode) + MatchModeError))
    else Ok(w.(title := Pick(c.title, w.title), className := Pick(c.className, w.className),
               id := Pick(c.id, w.id), pid := Pick(c.pid, w.pid), exe := Pick(c.exe, w.exe),
               text := Pick(c.text, w.text), titleMode := if mode.Given? then mode.value else w.titleMode))
  }

  /** The older `exclude`: no match mode, so it never fails and changes only the two exclusions. */
  function LegacyExclude(w: Windows, title: Arg<string>, text: Arg<string>): (v: Windows)
    ensures title.Unset? && text.Unset? ==> v == w
    ensures Exclude(w, title, text, None) == Ok(v)
  {
    if title.Unset? && text.Unset? then w
    else w.(excludeTitle := Pick(title, w.excludeTitle), excludeText := Pick(text, w.excludeText))
  }

  // ----- the query strings -----

  /** `str(v)` of a string criterion. */
  function StrOf(a: Arg<string>): string
  {
    match a
    case Given(s) => s
    case _ => "None"
  }

  /** `str(v)` of an integer criterion. */
  function IntOf(a: Arg<int>): string
  {
    match a
    case Given(i) => IntStr(i)
    case _ => "None"
  }

  /** A part of the WinTitle string, present only when its criterion is set. */
  function Part(prefix: string, present: bool, v: string): seq<string>
  {
    if present then [prefix + v] else []
  }

  /** The parts `_include` collects: title, class, id, pid, exe, in that order. */
  function IncludeParts(w: Windows): seq<string>
  {
    Part("", !w.title.Unset?, StrOf(w.title))
    + Part("ahk_class ", !w.className.Unset?, StrOf(w.className))
    + Part("ahk_id ", !w.id.Unset?, IntOf(w.id))
    + Part("ahk_pid ", !w.pid.Unset?, IntOf(w.pid))
    + Part("ahk_exe ", !w.exe.Unset?, StrOf(w.exe))
  }

  /** The WinTitle string: the parts joined with single spaces. */
  function WinTitle(w: Windows): string
  {
    Join(IncludeParts(w), " ")
  }

  /** A text or exclusion slot: "" when UNSET. */
  function Slot(a: Arg<string>): string
  {
    if a.Unset? then "" else StrOf(a)
  }

  /** `_query()`: WinTitle, WinText, ExcludeTitle, ExcludeText. */
  function Query(w: Windows): (string, string, string, string)
  {
    (WinTitle(w), Slot(w.text), Slot(w.excludeTitle), Slot(w.excludeText))
  }

  method AppendPart(parts: seq<string>, prefix: string, present: bool, v: string) returns (r: seq<string>)
    ensures r == parts + Part(prefix, present, v)
  {
    r := parts;
    if present {
      r := r + [prefix + v];
    }
  }

  /** `_include()`: collects the set criteria in order and joins them; the text slot beside it. */
  method Include(w: Windows) returns (winTitle: string, winText: string)
    ensures winTitle == WinTitle(w)
    ensures winText == Slot(w.text)
  {
    var parts: seq<string> := [];
    parts := AppendPart(parts, "", !w.title.Unset?, StrOf(w.title));
    assert parts == Part("", !w.title.Unset?, StrOf(w.title));
    parts := AppendPart(parts, "ahk_class ", !w.className.Unset?, StrOf(w.className));
    parts := AppendPart(parts, "ahk_id ", !w.id.Unset?, IntOf(w.id));
    parts := AppendPart(parts, "ahk_pid ", !w.pid.Unset?, IntOf(w.pid));
    parts := AppendPart(parts, "ahk_exe ", !w.exe.Unset?, StrOf(w.exe));
    winTitle := Join(parts, " ");
    winText := if w.text.Unset? then "" else StrOf(w.text);
  }

  /** `_exclude()`: the two exclusion slots. */
  function ExcludeSlots(w: Windows): (r: (string, string))
    ensures w.excludeTitle.Given? ==> r.0 == w.excludeTitle.value
    ensures w.excludeText.Given? ==> r.1 == w.excludeText.value
    ensures w.excludeTitle.Unset? ==> r.0 == ""
    ensures w.excludeText.Unset? ==> r.1 == ""
  {
    (Slot(w.excludeTitle), Slot(w.excludeText))
  }

  // ----- reading the WinTitle string back -----

  const Tags: set<string> := {"ahk_class", "ahk_id", "ahk_pid", "ahk_exe"}

  /** The inclusion criteria as they can be read back from a WinTitle string. */
  datatype Selector = Selector(title: Option<string>, className: Option<string>, id: Option<int>,
                               pid: Option<int>, exe: Option<string>)

  function Known<T>(a: Arg<T>): Option<T>
  {
    if a.Given? then Some(a.value) else None
  }

  function SelectorOf(w: Windows): Selector
  {
    Selector(Known(w.title), Known(w.className), Known(w.id), Known(w.pid), Known(w.exe))
  }

  /**
   * The criteria that survive the space-joined encoding: none is None, and
   * no value contains a space; a title is not empty and is not a tag word.
   */
  predicate Readable(w: Windows)
  {
    && !w.title.Null? && !w.className.Null? && !w.id.Null? && !w.pid.Null? && !w.exe.Null?
    && (w.title.Given? ==> w.title.value != "" && ' ' !in w.title.value && w.title.value !in Tags)
    && (w.className.Given? ==> ' ' !in w.className.value)
    && (w.exe.Given? ==> ' ' !in w.exe.value)
  }

  /** A tag and the word after it, if the words start with that tag. */
  function ReadField(tag: string, ws: seq<string>): (Option<string>, seq<string>)
  {
    if |ws| >= 2 && ws[0] == tag then (Some(ws[1]), ws[2..]) else (None, ws)
  }

  /** An optional integer word: None inside when absent, None outside when malformed. */
  function ReadIntWord(v: Option<string>): Option<Option<int>>
  {
    if v.None? then Some(None)
    else match ParseInt(v.value)
      case None => None
      case Some(i) => Some(Some(i))
  }

  /** The criteria named by a WinTitle string, or None when it is not one `_include` produces. */
  function DecodeWinTitle(s: string): Option<Selector>
  {
    if s == "" then Some(Selector(None, None, None, None, None))
    else DecodeWords(Split(s, ' '))
  }

  function DecodeWords(ws: seq<string>): Option<Selector>
  {
    if |ws| == 0 then None
    else
      var t := if ws[0] in Tags then None else Some(ws[0]);
      var r0 := if ws[0] in Tags then ws else ws[1..];
      DecodeTagged(t, r0)
  }

  function DecodeTagged(t: Option<string>, r0: seq<string>): Option<Selector>
  {
    var (c, r1) := ReadField("ahk_class", r0);
    var (i, r2) := ReadField("ahk_id", r1);
    var (p, r3) := ReadField("ahk_pid", r2);
    var (e, r4) := ReadField("ahk_exe", r3);
    var id := ReadIntWord(i);
    var pid := ReadIntWord(p);
    if r4 != [] || id.None? || pid.None? then None
    else Some(Selector(t, c, id.value, pid.value, e))
  }

  /** The words of a tagged part. */
  function TagWords(tag: string, present: bool, v: string): seq<string>
  {
    if present then [tag, v] else []
  }

  function Tail1(w: Windows): seq<string> { TagWords("ahk_exe", !w.exe.Unset?, StrOf(w.exe)) }
  function Tail2(w: Windows): seq<string> { TagWords("ahk_pid", !w.pid.Unset?, IntOf(w.pid)) + Tail1(w) }
  function Tail3(w: Windows): seq<string> { TagWords("ahk_id", !w.id.Unset?, IntOf(w.id)) + Tail2(w) }
  function Tail4(w: Windows): seq<string> { TagWords("ahk_class", !w.className.Unset?, StrOf(w.className)) + Tail3(w) }

  function TitleWords(w: Windows): seq<string> { if w.title.Unset? then [] else [StrOf(w.title)] }

  /** A tagged part splits into its tag and its value. */
  lemma SplitPart(prefix: string, tag: string, present: bool, v: string)
    requires prefix == tag + " " && ' ' !in tag && ' ' !in v
    ensures SplitAll(Part(prefix, present, v), ' ') == TagWords(tag, present, v)
  {
    if present {
      assert prefix + v == tag + [' '] + v;
      SplitConcat(tag, v, ' ');
      SplitNoSep(tag, ' ');
      SplitNoSep(v, ' ');
      assert [prefix + v][1..] == [];
    }
  }

  lemma IntStrNoSpace(i: int)
    ensures ' ' !in IntStr(i)
  {
    IntStrChars(i);
    assert forall k :: 0 <= k < |IntStr(i)| ==> IntStr(i)[k] != ' ';
  }

  lemma SplitAll5(a: seq<string>, b: seq<string>, c: seq<string>, d: seq<string>, e: seq<string>)
    ensures SplitAll(a + b + c + d + e, ' ') ==
            SplitAll(a, ' ') + SplitAll(b, ' ') + SplitAll(c, ' ') + SplitAll(d, ' ') + SplitAll(e, ' ')
  {
    SplitAllConcat(a + b + c + d, e, ' ');
    SplitAllConcat(a + b + c, d, ' ');
    SplitAllConcat(a + b, c, ' ');
    SplitAllConcat(a, b, ' ');
  }

  lemma SplitTitlePart(w: Windows)
    requires Readable(w)
    ensures SplitAll(Part("", !w.title.Unset?, StrOf(w.title)), ' ') == TitleWords(w)
  {
    if !w.title.Unset? {
      SplitNoSep(StrOf(w.title), ' ');
      assert "" + StrOf(w.title) == StrOf(w.title);
      assert [StrOf(w.title)][1..] == [];
    }
  }

  lemma SplitTagParts(w: Windows)
    requires Readable(w)
    ensures SplitAll(Part("ahk_class ", !w.className.Unset?, StrOf(w.className)), ' ')
            == TagWords("ahk_class", !w.className.Unset?, StrOf(w.className))
    ensures SplitAll(Part("ahk_id ", !w.id.Unset?, IntOf(w.id)), ' ') == TagWords("ahk_id", !w.id.Unset?, IntOf(w.id))
    ensures SplitAll(Part("ahk_pid ", !w.pid.Unset?, IntOf(w.pid)), ' ') == TagWords("ahk_pid", !w.pid.Unset?, IntOf(w.pid))
    ensures SplitAll(Part("ahk_exe ", !w.exe.Unset?, StrOf(w.exe)), ' ') == TagWords("ahk_exe", !w.exe.Unset?, StrOf(w.exe))
  {
    if w.id.Given? { IntStrNoSpace(w.id.value); }
    if w.pid.Given? { IntStrNoSpace(w.pid.value); }
    SplitPart("ahk_class ", "ahk_class", !w.className.Unset?, StrOf(w.className));
    SplitPart("ahk_id ", "ahk_id", !w.id.Unset?, IntOf(w.id));
    SplitPart("ahk_pid ", "ahk_pid", !w.pid.Unset?, IntOf(w.pid));
    SplitPart("ahk_exe ", "ahk_exe", !w.exe.Unset?, StrOf(w.exe));
  }

  lemma Assoc5<T>(a: seq<T>, b: seq<T>, c: seq<T>, d: seq<T>, e: seq<T>)
    ensures a + b + c + d + e == a + (b + (c + (d + e)))
  {
  }

  /** The words of a readable WinTitle string. */
  lemma SplitWinTitle(w: Windows)
    requires Readable(w) && IncludeParts(w) != []
    ensures Split(WinTitle(w), ' ') == TitleWords(w) + Tail4(w)
  {
    var a := Part("", !w.title.Unset?, StrOf(w.title));
    var b := Part("ahk_class ", !w.className.Unset?, StrOf(w.className));
    var c := Part("ahk_id ", !w.id.Unset?, IntOf(w.id));
    var d := Part("ahk_pid ", !w.pid.Unset?, IntOf(w.pid));
    var e := Part("ahk_exe ", !w.exe.Unset?, StrOf(w.exe));
    assert IncludeParts(w) == a + b + c + d + e;
    SplitJoinAll(IncludeParts(w), ' ');
    SplitAll5(a, b, c, d, e);
    SplitTitlePart(w);
    SplitTagParts(w);
    Assoc5(SplitAll(a, ' '), SplitAll(b, ' '), SplitAll(c, ' '), SplitAll(d, ' '), SplitAll(e, ' '));
  }

  lemma ReadFieldPresent(tag: string, v: string, rest: seq<string>)
    ensures ReadField(tag, [tag, v] + rest) == (Some(v), rest)
  {
    assert ([tag, v] + rest)[2..] == rest;
  }

  /** The word of a set criterion, as it follows its tag. */
  function WordOf(present: bool, v: string): Option<string>
  {
    if present then Some(v) else None
  }

  /** The tag words differ in their fifth letter. */
  lemma TagsDiffer()
    ensures "ahk_class" != "ahk_id" && "ahk_class" != "ahk_pid" && "ahk_class" != "ahk_exe"
    ensures "ahk_id" != "ahk_pid" && "ahk_id" != "ahk_exe" && "ahk_pid" != "ahk_exe"
  {
    assert "ahk_class"[4] == 'c' && "ahk_id"[4] == 'i' && "ahk_pid"[4] == 'p' && "ahk_exe"[4] == 'e';
  }

  lemma ReadClass(w: Windows)
    ensures ReadField("ahk_class", Tail4(w)) == (WordOf(!w.className.Unset?, StrOf(w.className)), Tail3(w))
  {
    if !w.className.Unset? {
      ReadFieldPresent("ahk_class", StrOf(w.className), Tail3(w));
    } else {
      TagsDiffer();
      assert Tail4(w) == Tail3(w);
      assert |Tail3(w)| == 0 || Tail3(w)[0] in {"ahk_id", "ahk_pid", "ahk_exe"};
    }
  }

  lemma ReadId(w: Windows)
    ensures ReadField("ahk_id", Tail3(w)) == (WordOf(!w.id.Unset?, IntOf(w.id)), Tail2(w))
  {
    if !w.id.Unset? {
      ReadFieldPresent("ahk_id", IntOf(w.id), Tail2(w));
    } else {
      TagsDiffer();
      assert Tail3(w) == Tail2(w);
      assert |Tail2(w)| == 0 || Tail2(w)[0] in {"ahk_pid", "ahk_exe"};
    }
  }

  lemma ReadPid(w: Windows)
    ensures ReadField("ahk_pid", Tail2(w)) == (WordOf(!w.pid.Unset?, IntOf(w.pid)), Tail1(w))
  {
    if !w.pid.Unset? {
      ReadFieldPresent("ahk_pid", IntOf(w.pid), Tail1(w));
    } else {
      TagsDiffer();
      assert Tail2(w) == Tail1(w);
      assert |Tail1(w)| == 0 || Tail1(w)[0] == "ahk_exe";
    }
  }

  lemma ReadExe(w: Windows)
    ensures ReadField("ahk_exe", Tail1(w)) == (WordOf(!w.exe.Unset?, StrOf(w.exe)), [])
  {
    if !w.exe.Unset? {
      ReadFieldPresent("ahk_exe", StrOf(w.exe), []);
      assert Tail1(w) == ["ahk_exe", StrOf(w.exe)] + [];
    }
  }

  lemma ReadIntArg(a: Arg<int>)
    requires !a.Null?
    ensures ReadIntWord(WordOf(!a.Unset?, IntOf(a))) == Some(Known(a))
  {
    if a.Given? { IntStrRoundTrip(a.value); }
  }

  /** Reading the tagged words back, one field at a time. */
  lemma DecodeTails(w: Windows)
    requires Readable(w)
    ensures DecodeTagged(Known(w.title), Tail4(w)) == Some(SelectorOf(w))
  {
    ReadClass(w);
    ReadId(w);
    ReadPid(w);
    ReadExe(w);
    ReadIntArg(w.id);
    ReadIntArg(w.pid);
    assert WordOf(!w.className.Unset?, StrOf(w.className)) == Known(w.className);
    assert WordOf(!w.exe.Unset?, StrOf(w.exe)) == Known(w.exe);
  }

  /**
   * The WinTitle string `_include` builds names every set criterion
   * unambiguously: reading it back gives the criteria.
   */
  lemma DecodeWinTitleInclude(w: Windows)
    requires Readable(w)
    ensures DecodeWinTitle(WinTitle(w)) == Some(SelectorOf(w))
  {
    if IncludeParts(w) == [] {
      assert WinTitle(w) == "";
    } else {
      SplitWinTitle(w);
      var ws := TitleWords(w) + Tail4(w);
      DecodeTails(w);
      if w.title.Unset? {
        assert ws == Tail4(w);
        assert |ws| > 0 && ws[0] in Tags;
      } else {
        assert ws[0] !in Tags && ws[1..] == Tail4(w);
      }
      var p := IncludeParts(w);
      assert p[0] != "" && WinTitle(w) == (if |p| == 1 then p[0] else p[0] + " " + Join(p[1..], " "));
    }
  }

  /** Two readable criteria sets with the same WinTitle string are the same criteria. */
  lemma WinTitleInjective(w: Windows, v: Windows)
    requires Readable(w) && Readable(v) && WinTitle(w) == WinTitle(v)
    ensures SelectorOf(w) == SelectorOf(v)
  {
    DecodeWinTitleInclude(w);
    DecodeWinTitleInclude(v);
  }

  /** The default query is four empty strings, and a title filter puts just the title first. */
  lemma QueryExamples(title: string)
    ensures Query(Visible) == ("", "", "", "")
    ensures Query(Filter(Visible, NoCriteria.(title := Given(title)), None).value) == (title, "", "", "")
    ensures Query(Filter(Visible, NoCriteria.(id := Given(42)), None).value).0 == "ahk_id 42"
  {
    assert "" + title == title;
    assert IntStr(42) == "42";
  }

  /** `get_active`: the active window ("A") when the query is all empty. */
  function ActiveQuery(w: Windows): (q: (string, string, string, string))
    ensures Query(w) == ("", "", "", "") ==> q == ("A", "", "", "")
    ensures Query(w) != ("", "", "", "") ==> q == Query(w)
  {
    if Query(w) == ("", "", "", "") then ("A", "", "", "") else Query(w)
  }

  /** With no criterion set, `get_active` asks for the active window. */
  lemma ActiveWithoutCriteria(w: Windows)
    requires w.title.Unset? && w.className.Unset? && w.id.Unset? && w.pid.Unset? && w.exe.Unset?
    requires w.text.Unset? && w.excludeTitle.Unset? && w.excludeText.Unset?
    ensures ActiveQuery(w) == ("A", "", "", "")
  {
    assert IncludeParts(w) == [];
  }

  // ----- repr -----

  /** A dataclass field as `__repr__` sees it: UNSET, or a value. */
  datatype Field = Field(name: string, value: Option<Value>)

  function StrValue(a: Arg<string>): Option<Value>
  {
    match a
    case Unset => None
    case Null => Some(NoneV)
    case Given(s) => Some(S(s))
  }

  function IntValue(a: Arg<int>): Option<Value>
  {
    match a
    case Unset => None
    case Null => Some(NoneV)
    case Given(i) => Some(I(i))
  }

  /** `dc.fields(self)` with their values, in declaration order. */
  function Fields(w: Windows): (fs: seq<Field>)
    ensures |fs| == 12
  {
    [Field("title", StrValue(w.title)), Field("class_name", StrValue(w.className)),
     Field("id", IntValue(w.id)), Field("pid", IntValue(w.pid)), Field("exe", StrValue(w.exe)),
     Field("text", StrValue(w.text)), Field("exclude_title", StrValue(w.excludeTitle)),
     Field("exclude_text", StrValue(w.excludeText)),
     Field("hidden_windows", Some(B(w.hiddenWindows))), Field("hidden_text", Some(B(w.hiddenText))),
     Field("title_mode", Some(S(w.titleMode))), Field("text_mode", Some(S(w.textMode)))]
  }

  function FieldStr(f: Field): string
    requires f.value.Some?
  {
    f.name + "=" + PyRepr(f.value.value)
  }

  /** The `name=repr(value)` strings of the fields that are not UNSET, in order. */
  function FieldStrs(fs: seq<Field>): (r: seq<string>)
    ensures |r| <= |fs|
  {
    if |fs| == 0 then []
    else
      var last := fs[|fs| - 1];
      FieldStrs(fs[..|fs| - 1]) + (if last.value.None? then [] else [FieldStr(last)])
  }

  /** How many fields are not UNSET. */
  function SetCount(fs: seq<Field>): nat
  {
    if |fs| == 0 then 0 else SetCount(fs[..|fs| - 1]) + (if fs[|fs| - 1].value.None? then 0 else 1)
  }

  /** `__repr__`: loops over the fields, keeping the ones that are not UNSET. */
  method ReprWindows(w: Windows) returns (s: string)
    ensures s == "Windows(" + Join(FieldStrs(Fields(w)), ", ") + ")"
  {
    var fs := Fields(w);
    var fieldStrs: seq<string> := [];
    for k := 0 to |fs|
      invariant fieldStrs == FieldStrs(fs[..k])
    {
      assert fs[..k + 1][..k] == fs[..k];
      if fs[k].value.Some? {
        fieldStrs := fieldStrs + [FieldStr(fs[k])];
      }
    }
    assert fs[..|fs|] == fs;
    s := "Windows(" + Join(fieldStrs, ", ") + ")";
  }

  /** FieldStrs keeps exactly the fields that are not UNSET, as many as there are. */
  lemma {:induction false} FieldStrsCount(fs: seq<Field>)
    ensures |FieldStrs(fs)| == SetCount(fs)
  {
    if |fs| > 0 {
      FieldStrsCount(fs[..|fs| - 1]);
    }
  }

  lemma {:induction false} FieldStrsAppend(fs: seq<Field>, gs: seq<Field>)
    ensures FieldStrs(fs + gs) == FieldStrs(fs) + FieldStrs(gs)
  {
    if |gs| > 0 {
      assert (fs + gs)[..|fs + gs| - 1] == fs + gs[..|gs| - 1];
      FieldStrsAppend(fs, gs[..|gs| - 1]);
    } else {
      assert fs + gs == fs;
    }
  }

  lemma {:induction false} FieldStrsAllSet(fs: seq<Field>)
    requires forall k :: 0 <= k < |fs| ==> fs[k].value.Some?
    ensures |FieldStrs(fs)| == |fs|
    ensures forall k :: 0 <= k < |fs| ==> FieldStrs(fs)[k] == FieldStr(fs[k])
  {
    if |fs| > 0 {
      var init := fs[..|fs| - 1];
      FieldStrsAllSet(init);
      var r := FieldStrs(fs);
      assert r == FieldStrs(init) + [FieldStr(fs[|fs| - 1])];
      forall k | 0 <= k < |fs|
        ensures r[k] == FieldStr(fs[k])
      {
        if k < |fs| - 1 {
          assert fs[k] == init[k];
        }
      }
    }
  }

  lemma {:induction false} FieldStrsNoneSet(fs: seq<Field>)
    requires forall k :: 0 <= k < |fs| ==> fs[k].value.None?
    ensures FieldStrs(fs) == []
  {
    if |fs| > 0 {
      FieldStrsNoneSet(fs[..|fs| - 1]);
    }
  }

  /**
   * repr() lists one entry per set criterion, and always ends with the four
   * settings, which are never UNSET.
   */
  lemma ReprFields(w: Windows)
    ensures var r := FieldStrs(Fields(w));
      && |r| == SetCount(Fields(w)[..8]) + 4
      && r[|r| - 4..] == [FieldStr(Fields(w)[8]), FieldStr(Fields(w)[9]), FieldStr(Fields(w)[10]), FieldStr(Fields(w)[11])]
  {
    var fs := Fields(w);
    var head, tail := fs[..8], fs[8..];
    assert fs == head + tail;
    FieldStrsAppend(head, tail);
    FieldStrsCount(head);
    FieldStrsAllSet(tail);
    assert tail == [fs[8], fs[9], fs[10], fs[11]];
  }

  /**
   * repr(windows) shows only the four settings, with their default values:
   * `hidden_windows=False, hidden_text=True, title_mode='startswith', text_mode='fast'`.
   */
  lemma ReprDefault()
    ensures FieldStrs(Fields(Visible)) ==
      [FieldStr(Field("hidden_windows", Some(B(false)))), FieldStr(Field("hidden_text", Some(B(true)))),
       FieldStr(Field("title_mode", Some(S("startswith")))), FieldStr(Field("text_mode", Some(S("fast"))))]
    ensures PyRepr(B(false)) == "False" && PyRepr(B(true)) == "True"
    ensures PyRepr(S("fast")) == "'fast'"
  {
    var fs := Fields(Visible);
    assert fs == fs[..8] + fs[8..];
    FieldStrsAppend(fs[..8], fs[8..]);
    FieldStrsNoneSet(fs[..8]);
    FieldStrsAllSet(fs[8..]);
  }

  // ----- match modes and the setup commands -----

  /** `_set_title_match_mode`: 1, 2, 3 or "regex", or a ValueError. */
  function SetTitleMatchMode(mode: string): (r: Result<Call>)
    ensures r.Ok? <==> mode in TitleMatchModes
    ensures r.Err? ==> r.error == ValueError(Repr(mode) + MatchModeError)
    ensures r.Ok? ==> r.value.cmd == "SetTitleMatchMode" && |r.value.args| == 1
  {
    if mode == "startswith" then Ok(Call("SetTitleMatchMode", [I(1)]))
    else if mode == "contains" then Ok(Call("SetTitleMatchMode", [I(2)]))
    else if mode == "exact" then Ok(Call("SetTitleMatchMode", [I(3)]))
    else if mode == "regex" then Ok(Call("SetTitleMatchMode", [S("regex")]))
    else Err(ValueError(Repr(mode) + MatchModeError))
  }

  /** Different match modes send different commands. */
  lemma SetTitleMatchModeInjective(m1: string, m2: string)
    requires SetTitleMatchMode(m1).Ok? && SetTitleMatchMode(m1) == SetTitleMatchMode(m2)
    ensures m1 == m2
  {
  }

  function OnOff(b: bool): Value { S(if b then "On" else "Off") }

  /** A window that does not exist: one of the inclusion criteria is None. */
  predicate Missing(w: Windows)
  {
    w.title.Null? || w.className.Null? || w.id.Null? || w.pid.Null? || w.exe.Null? || w.text.Null?
  }

  /** The DetectHidden* commands `_call` starts with. */
  function DetectCalls(w: Windows): seq<Call>
  {
    [Call("DetectHiddenWindows", [OnOff(w.hiddenWindows)])]
    + (if !w.text.Unset? || !w.excludeText.Unset? then [Call("DetectHiddenText", [OnOff(w.hiddenText)])] else [])
  }

  /**
   * `_call(cmd, *args, set_delay)`: nothing for a missing window; otherwise
   * the hidden-window and hidden-text switches, the title match mode, the
   * text match speed, SetWinDelay when asked, and the command. An invalid
   * mode stops the sequence where it is checked.
   */
  function WinCall(w: Windows, cmd: string, args: seq<Value>, setDelay: bool, st: St.Values): Outcome
  {
    if Missing(w) then Outcome([], None)
    else match SetTitleMatchMode(w.titleMode)
      case Err(e) => Outcome(DetectCalls(w), Some(e))
      case Ok(mode) =>
        if w.textMode !in TextMatchModes then
          Outcome(DetectCalls(w) + [mode], Some(ValueError(Repr(w.textMode) + " is not a valid text match mode")))
        else
          Outcome(DetectCalls(w) + [mode, Call("SetTitleMatchMode", [S(w.textMode)])]
                  + (if setDelay then [Call("SetWinDelay", [I(St.OptionalMs(Some(st.winDelay)))])] else [])
                  + [Call(cmd, args)], None)
  }

  /**
   * What `_call` sends: nothing at all for a missing window; otherwise
   * DetectHiddenWindows first, DetectHiddenText only when a text criterion
   * is set, an error exactly for an invalid title or text mode, and on
   * success the command itself last.
   */
  lemma WinCallShape(w: Windows, cmd: string, args: seq<Value>, setDelay: bool, st: St.Values)
    ensures var o := WinCall(w, cmd, args, setDelay, st);
      && (Missing(w) ==> o == Outcome([], None))
      && (!Missing(w) ==> |o.calls| >= 1 && o.calls[0] == Call("DetectHiddenWindows", [OnOff(w.hiddenWindows)]))
      && (!Missing(w) ==> (o.error.Some? <==> w.titleMode !in TitleMatchModes || w.textMode !in TextMatchModes))
      && (!Missing(w) && w.titleMode !in TitleMatchModes ==> o.calls == DetectCalls(w))
      && (!Missing(w) && o.error.None? ==>
            (o.calls[|o.calls| - 1] == Call(cmd, args) && |o.calls| == |DetectCalls(w)| + 3 + (if setDelay then 1 else 0)))
  {
  }

  /** Hidden text matters only when a text criterion is set. */
  lemma DetectHiddenText(w: Windows)
    ensures |DetectCalls(w)| == 2 <==> !w.text.Unset? || !w.excludeText.Unset?
    ensures |DetectCalls(w)| == 2 ==> DetectCalls(w)[1] == Call("DetectHiddenText", [OnOff(w.hiddenText)])
  {
  }

  // ----- the `ahk` package -----

  /** `detect_hidden_windows(value)` of the `ahk` package. */
  function LegacyDetectHiddenWindows(value: Value): (c: Call)
    ensures c == Call("DetectHiddenWindows", [S(if Truthy(value) then "On" else "Off")])
  {
    Call("DetectHiddenWindows", [OnOff(Truthy(value))])
  }

  const LegacyMatchModes: map<string, string> :=
    map["startswith" := "1", "contains" := "2", "exact" := "3", "1" := "1", "2" := "2", "3" := "3", "regex" := "regex"]

  /**
   * `set_title_match_mode(mode, speed)` of the `ahk` package: the mode
   * (looked up by `str(mode).lower()`) is sent before the speed is checked.
   */
  function LegacySetTitleMatchMode(mode: Value, speed: Option<string>): Outcome
  {
    var modeCalls := if mode != NoneV && Lower(PyStr(mode)) in LegacyMatchModes
                     then [Call("SetTitleMatchMode", [S(LegacyMatchModes[Lower(PyStr(mode))])])] else [];
    if mode != NoneV && Lower(PyStr(mode)) !in LegacyMatchModes then
      Outcome([], Some(ValueError("unknown match mode " + PyRepr(mode))))
    else if speed.None? then Outcome(modeCalls, None)
    else if Lower(speed.value) !in {"fast", "slow"} then
      Outcome(modeCalls, Some(ValueError("unknown speed " + Repr(speed.value))))
    else Outcome(modeCalls + [Call("SetTitleMatchMode", [S(speed.value)])], None)
  }

  /**
   * Nothing is sent when both arguments are None; the mode goes first; an
   * unknown speed fails after the mode was already sent; modes are matched
   * case-insensitively.
   */
  lemma LegacySetTitleMatchModeShape(mode: Value, speed: Option<string>)
    ensures LegacySetTitleMatchMode(NoneV, None) == Outcome([], None)
    ensures var o := LegacySetTitleMatchMode(mode, speed);
      && (mode != NoneV && Lower(PyStr(mode)) in LegacyMatchModes ==>
            |o.calls| >= 1 && o.calls[0] == Call("SetTitleMatchMode", [S(LegacyMatchModes[Lower(PyStr(mode))])]))
      && (o.error.Some? <==>
            ((mode != NoneV && Lower(PyStr(mode)) !in LegacyMatchModes) || (speed.Some? && Lower(speed.value) !in {"fast", "slow"})))
      && (o.error.None? && speed.Some? ==> o.calls[|o.calls| - 1] == Call("SetTitleMatchMode", [S(speed.value)]))
    ensures LegacySetTitleMatchMode(S("Exact"), None) == Outcome([Call("SetTitleMatchMode", [S("3")])], None)
  {
    assert Lower("Exact") == "exact";
  }
}
