/**
 * Control and window properties of the `window` module (and the older
 * copy): the line of an Edit control, the items of a ListView, the
 * opacity setting, and the style bits behind `is_enabled`, `is_visible`
 * and `always_on_top`. What the host answers is a parameter.
 */
module Control {

  import opened Base
  import opened Text

  /** What a ControlGet/WinGet query gives back: a value, None (no such window), or an Error with a message. */
  datatype HostReply = Returned(v: Option<Value>) | Raised(message: Value)

  // ----- get_line -----

  /** A negative line number counts from the end. */
  function ResolveIndex(n: int, count: int): int
  {
    if n < 0 then count + n else n
  }

  const LineRangeError := AhkError("line number out of range")

  /**
   * `Control.get_line(lineno)`: None without a line count; an Error outside
   * the lines; otherwise the text of line n (sent as n + 1). When the host
   * fails with message 1 the line is taken to be blank if it is still
   * below the recounted number of lines (asked again as `recount`), and
   * otherwise the failure becomes the range error.
   */
  function GetLine(lineCount: Option<int>, lineno: int, reply: HostReply, recount: Option<int>): (r: Result<Option<string>>)
    ensures lineCount.None? ==> r == Ok(None)
    ensures lineCount.Some? && !(0 <= ResolveIndex(lineno, lineCount.value) < lineCount.value) ==> r == Err(LineRangeError)
    ensures r.Ok? && r.value.Some? && lineCount.Some? ==>
              0 <= ResolveIndex(lineno, lineCount.value) < lineCount.value
              && ((reply.Returned? && reply.v.Some? && r.value.value == PyStr(reply.v.value))
                  || (reply == Raised(I(1)) && r.value.value == ""))
    ensures reply.Raised? && reply.message != I(1) && r.Err? ==> r.error in {LineRangeError, AhkError(PyStr(reply.message))}
    ensures lineCount.Some? && 0 <= ResolveIndex(lineno, lineCount.value) < lineCount.value
            && reply == Raised(I(1)) && recount.Some? ==>
              r == (if ResolveIndex(lineno, lineCount.value) < recount.value then Ok(Some("")) else Err(LineRangeError))
  {
    if lineCount.None? then Ok(None)
    else
      var n := ResolveIndex(lineno, lineCount.value);
      if !(0 <= n < lineCount.value) then Err(LineRangeError)
      else match reply
        case Returned(v) => if v.None? then Ok(None) else Ok(Some(PyStr(v.value)))
        case Raised(m) =>
          if m != I(1) then Err(AhkError(PyStr(m)))
          else if recount.None? then Err(TypeError("'<' not supported between instances of 'int' and 'NoneType'"))
          else if n < recount.value then Ok(Some(""))
          else Err(LineRangeError)
  }

  /** The 1-based line that `get_line` asks the host for. */
  function LineArg(lineCount: int, lineno: int): int
  {
    ResolveIndex(lineno, lineCount) + 1
  }

  /**
   * Negative line numbers index from the end as Python sequences do: every
   * number from -count to count - 1 names exactly one line, `lineno % count`,
   * and every other number is out of range.
   */
  lemma GetLineIndexing(count: int, lineno: int)
    requires count > 0
    ensures 0 <= ResolveIndex(lineno, count) < count <==> -count <= lineno < count
    ensures -count <= lineno < count ==> ResolveIndex(lineno, count) == lineno % count
    ensures -count <= lineno < count ==> 1 <= LineArg(count, lineno) <= count
  {
    if -count <= lineno < 0 {
      assert lineno == (-1) * count + (count + lineno);
    }
  }

  /** A three-line control: -1, -2, -3 are lines 2, 1, 0, and 3, 4, -5 are out of range. */
  lemma GetLineExamples(reply: HostReply, recount: Option<int>)
    ensures ResolveIndex(-1, 3) == 2 && ResolveIndex(-2, 3) == 1 && ResolveIndex(-3, 3) == 0
    ensures GetLine(Some(3), 3, reply, recount) == Err(LineRangeError)
    ensures GetLine(Some(3), 4, reply, recount) == Err(LineRangeError)
    ensures GetLine(Some(3), -5, reply, recount) == Err(LineRangeError)
    ensures GetLine(Some(3), -1, Raised(I(1)), Some(3)) == Ok(Some(""))
    ensures GetLine(Some(3), 2, Raised(I(1)), Some(2)) == Err(LineRangeError)
  {
  }

  /**
   * The older `get_line`: no negative indexing and no range check; on
   * message 1 only the last line counts as blank.
   */
  function LegacyGetLine(lineno: int, reply: HostReply, recount: Option<int>): (r: Result<Option<string>>)
    ensures reply.Returned? ==> r == Ok(if reply.v.None? then None else Some(PyStr(reply.v.value)))
    ensures reply == Raised(I(1)) ==> r == Ok(if recount == Some(lineno + 1) then Some("") else None)
    ensures reply.Raised? && reply.message != I(1) ==> r == Err(AhkError(PyStr(reply.message)))
  {
    match reply
    case Returned(v) => if v.None? then Ok(None) else Ok(Some(PyStr(v.value)))
    case Raised(m) =>
      if m != I(1) then Err(AhkError(PyStr(m)))
      else if recount == Some(lineno + 1) then Ok(Some(""))
      else Ok(None)
  }

  /**
   * The two versions differ on a failing in-range line: the newer one calls
   * every such line blank, the older one only the last line.
   */
  lemma GetLineVersionsDiffer(count: int, lineno: int)
    requires 0 <= lineno < count
    ensures GetLine(Some(count), lineno, Raised(I(1)), Some(count)) == Ok(Some(""))
    ensures LegacyGetLine(lineno, Raised(I(1)), Some(count)) == Ok(Some("")) <==> lineno == count - 1
    ensures GetLine(Some(count), lineno, Returned(Some(S("x"))), Some(count)) ==
            LegacyGetLine(lineno, Returned(Some(S("x"))), Some(count))
  {
  }

  // ----- list items -----

  function When(b: bool, w: string): seq<string> { if b then [w] else [] }

  /** The option words `get_list_items` collects. */
  function ListOptionWords(selected: bool, focused: bool, column: Option<int>, columnCount: int): seq<string>
  {
    When(selected, "Selected") + When(focused, "Focused")
    + (if column.Some? then ["Col" + IntStr(ResolveIndex(column.value, columnCount) + 1)] else [])
  }

  method AppendWhen(words: seq<string>, b: bool, w: string) returns (r: seq<string>)
    ensures r == words + When(b, w)
  {
    r := words;
    if b {
      r := r + [w];
    }
  }

  /**
   * The option string of `get_list_items(selected, focused, column)`, with
   * a negative column counted from the end; None when the column count is
   * unknown (the control does not exist).
   */
  method ListOptions(selected: bool, focused: bool, column: Option<int>, columnCount: Option<int>)
    returns (opts: Option<string>)
    ensures columnCount.None? <==> opts.None?
    ensures opts.Some? ==> opts.value == Join(ListOptionWords(selected, focused, column, columnCount.value), " ")
  {
    var options: seq<string> := [];
    options := AppendWhen(options, selected, "Selected");
    assert options == When(selected, "Selected");
    options := AppendWhen(options, focused, "Focused");
    assert options == When(selected, "Selected") + When(focused, "Focused");
    if columnCount.None? {
      return None;
    }
    if column.Some? {
      var c := column.value;
      if c < 0 {
        c := columnCount.value + c;
      }
      assert c == ResolveIndex(column.value, columnCount.value);
      options := options + ["Col" + IntStr(c + 1)];
    } else {
      assert options == options + [];
    }
    opts := Some(Join(options, " "));
  }

  /** The column a "Col<n>" word names (0-based), if the last word is one. */
  function ColumnOf(ws: seq<string>): Option<int>
  {
    if |ws| == 0 then None
    else
      var last := ws[|ws| - 1];
      if |last| >= 3 && last[..3] == "Col" then
        match ParseInt(last[3..])
        case Some(n) => Some(n - 1)
        case None => None
      else None
  }

  /** The words of an option string. */
  function OptionWordsOf(s: string): seq<string>
  {
    if s == "" then [] else Split(s, ' ')
  }

  lemma OptionWordsShape(selected: bool, focused: bool, column: Option<int>, count: int)
    ensures var ws := ListOptionWords(selected, focused, column, count);
      forall k :: 0 <= k < |ws| ==> ws[k] != "" && ' ' !in ws[k]
  {
    if column.Some? {
      var n := ResolveIndex(column.value, count) + 1;
      IntStrChars(n);
      assert forall k :: 0 <= k < |IntStr(n)| ==> IntStr(n)[k] != ' ';
      var w := "Col" + IntStr(n);
      assert forall k :: 0 <= k < |w| ==> w[k] == (if k < 3 then "Col"[k] else IntStr(n)[k - 3]);
    }
  }

  /** The option string splits back into its words. */
  lemma OptionWordsRoundTrip(ws: seq<string>)
    requires forall k :: 0 <= k < |ws| ==> ws[k] != "" && ' ' !in ws[k]
    ensures OptionWordsOf(Join(ws, " ")) == ws
  {
    if |ws| > 0 {
      SplitJoin(ws, ' ');
      assert Join(ws, " ") != "" by {
        assert |ws| == 1 ==> Join(ws, " ") == ws[0];
        assert |ws| >= 2 ==> Join(ws, " ") == ws[0] + " " + Join(ws[1..], " ");
      }
    }
  }

  lemma ColumnWord(n: int)
    ensures var w := "Col" + IntStr(n);
      && w[..3] == "Col" && ParseInt(w[3..]) == Some(n)
      && w != "Selected" && w != "Focused"
  {
    var w := "Col" + IntStr(n);
    assert w[..3] == "Col" && w[3..] == IntStr(n);
    IntStrRoundTrip(n);
    assert w[0] == 'C' && "Selected"[0] == 'S' && "Focused"[0] == 'F';
  }

  lemma FlagWords()
    ensures "Selected" != "Focused"
    ensures "Selected"[..3] != "Col" && "Focused"[..3] != "Col"
  {
    assert "Selected"[0] != "Focused"[0];
    assert "Selected"[..3][0] == 'S' && "Focused"[..3][0] == 'F';
  }

  /**
   * The option string can be read back: Selected and Focused appear
   * exactly when asked for, and the column word names the resolved column.
   */
  lemma ListOptionsDecode(selected: bool, focused: bool, column: Option<int>, count: int)
    ensures var ws := OptionWordsOf(Join(ListOptionWords(selected, focused, column, count), " "));
      && ("Selected" in ws <==> selected)
      && ("Focused" in ws <==> focused)
      && ColumnOf(ws) == (if column.Some? then Some(ResolveIndex(column.value, count)) else None)
  {
    var ws := ListOptionWords(selected, focused, column, count);
    OptionWordsShape(selected, focused, column, count);
    OptionWordsRoundTrip(ws);
    ListOptionFlags(selected, focused, column, count);
    ListOptionColumn(selected, focused, column, count);
  }

  lemma ListOptionFlags(selected: bool, focused: bool, column: Option<int>, count: int)
    ensures var ws := ListOptionWords(selected, focused, column, count);
      ("Selected" in ws <==> selected) && ("Focused" in ws <==> focused)
  {
    FlagWords();
    var cw := if column.Some? then ["Col" + IntStr(ResolveIndex(column.value, count) + 1)] else [];
    if column.Some? {
      ColumnWord(ResolveIndex(column.value, count) + 1);
    }
    assert "Selected" !in cw && "Focused" !in cw;
    assert "Focused" !in When(selected, "Selected") && "Selected" !in When(focused, "Focused");
  }

  lemma ListOptionColumn(selected: bool, focused: bool, column: Option<int>, count: int)
    ensures ColumnOf(ListOptionWords(selected, focused, column, count))
            == (if column.Some? then Some(ResolveIndex(column.value, count)) else None)
  {
    var ws := ListOptionWords(selected, focused, column, count);
    FlagWords();
    if column.Some? {
      var n := ResolveIndex(column.value, count) + 1;
      ColumnWord(n);
      assert ws[|ws| - 1] == "Col" + IntStr(n);
    } else if |ws| > 0 {
      assert ws[|ws| - 1] in {"Selected", "Focused"};
    }
  }

  /** The rows of a list, each split into its columns. */
  function SplitEach(rows: seq<string>, c: char): (r: seq<seq<string>>)
    ensures |r| == |rows|
  {
    if |rows| == 0 then [] else [Split(rows[0], c)] + SplitEach(rows[1..], c)
  }

  /** `_split_list_items`: "" is no rows; otherwise rows on newlines, columns on tabs. */
  function SplitListItems(s: string): (r: seq<seq<string>>)
    ensures s == "" <==> r == []
    ensures s != "" ==> |r| == |Split(s, '\n')|
  {
    if s == "" then [] else SplitEach(Split(s, '\n'), '\t')
  }

  function JoinEach(rows: seq<seq<string>>, sep: string): (r: seq<string>)
    ensures |r| == |rows|
  {
    if |rows| == 0 then [] else [Join(rows[0], sep)] + JoinEach(rows[1..], sep)
  }

  /** The text a ListView reports for a table: tab-separated columns, newline-separated rows. */
  function JoinListItems(rows: seq<seq<string>>): string
  {
    Join(JoinEach(rows, "\t"), "\n")
  }

  lemma {:induction false} JoinEachSplitEach(rows: seq<string>, c: char)
    ensures JoinEach(SplitEach(rows, c), [c]) == rows
  {
    if |rows| > 0 {
      JoinSplit(rows[0], c);
      JoinEachSplitEach(rows[1..], c);
      assert SplitEach(rows, c)[1..] == SplitEach(rows[1..], c);
    }
  }

  /** Joining the split rows and columns rebuilds the host's text. */
  lemma JoinSplitListItems(s: string)
    ensures JoinListItems(SplitListItems(s)) == s
  {
    if s != "" {
      JoinEachSplitEach(Split(s, '\n'), '\t');
      assert "\t" == ['\t'];
      JoinSplit(s, '\n');
    }
  }

  /** A table whose text the splitting reads back exactly. */
  predicate WellFormedTable(rows: seq<seq<string>>)
  {
    && |rows| >= 1
    && (forall i :: 0 <= i < |rows| ==> |rows[i]| >= 1)
    && (forall i, j :: 0 <= i < |rows| && 0 <= j < |rows[i]| ==> '\t' !in rows[i][j] && '\n' !in rows[i][j])
    && !(|rows| == 1 && rows[0] == [""])
  }

  /** No separator-free part and a separator without c make a join with c. */
  lemma {:induction false} JoinFree(parts: seq<string>, sep: string, c: char)
    requires c !in sep
    requires forall k :: 0 <= k < |parts| ==> c !in parts[k]
    ensures c !in Join(parts, sep)
  {
    if |parts| >= 2 {
      JoinFree(parts[1..], sep, c);
    }
  }

  lemma {:induction false} SplitEachJoinEach(rows: seq<seq<string>>)
    requires forall i :: 0 <= i < |rows| ==> |rows[i]| >= 1
    requires forall i, j :: 0 <= i < |rows| && 0 <= j < |rows[i]| ==> '\t' !in rows[i][j]
    ensures SplitEach(JoinEach(rows, "\t"), '\t') == rows
  {
    if |rows| > 0 {
      assert "\t" == ['\t'];
      SplitJoin(rows[0], '\t');
      SplitEachJoinEach(rows[1..]);
      assert JoinEach(rows, "\t")[1..] == JoinEach(rows[1..], "\t");
    }
  }

  lemma {:induction false} JoinEachFree(rows: seq<seq<string>>)
    requires forall i, j :: 0 <= i < |rows| && 0 <= j < |rows[i]| ==> '\n' !in rows[i][j]
    ensures forall k :: 0 <= k < |JoinEach(rows, "\t")| ==> '\n' !in JoinEach(rows, "\t")[k]
  {
    if |rows| > 0 {
      JoinFree(rows[0], "\t", '\n');
      JoinEachFree(rows[1..]);
      assert JoinEach(rows, "\t")[1..] == JoinEach(rows[1..], "\t");
    }
  }

  /** Splitting the text of a well-formed table gives the table back. */
  lemma SplitJoinListItems(rows: seq<seq<string>>)
    requires WellFormedTable(rows)
    ensures SplitListItems(JoinListItems(rows)) == rows
  {
    var lines := JoinEach(rows, "\t");
    JoinEachFree(rows);
    assert "\n" == ['\n'];
    SplitJoin(lines, '\n');
    SplitEachJoinEach(rows);
  }

  /** Case-sensitive substring test, `sub in s`. */
  predicate Contains(s: string, sub: string)
  {
    StartsWith(s, sub) || (|s| > 0 && Contains(s[1..], sub))
  }

  /** The list items: one column's cells, or all rows with their columns. */
  datatype Items = Column(cells: seq<string>) | Rows(rows: seq<seq<string>>)

  /**
   * `get_list_items(column=...)` after the options are sent: None without a
   * column count or a reply; the cells of one column or the split table;
   * on message 1 None unless the control is a SysListView32, else an
   * Error that says whether the column was out of range.
   */
  function ListItems(column: Option<int>, columnCount: Option<int>, reply: HostReply, className: Option<string>)
    : (r: Result<Option<Items>>)
    ensures columnCount.None? ==> r == Ok(None)
    ensures columnCount.Some? && reply.Returned? && reply.v.Some? && reply.v.value.S? ==>
              r == Ok(Some(if column.Some? then Column(Split(reply.v.value.s, '\n'))
                           else Rows(SplitListItems(reply.v.value.s))))
    ensures columnCount.Some? && reply == Raised(I(1)) && className.Some?
            && Contains(Lower(className.value), "syslistview32") ==>
              r.Err? && (r.error == AhkError("column index out of range") <==>
                         column.Some? && columnCount.value < ResolveIndex(column.value, columnCount.value) + 1)
    ensures (columnCount.Some? && reply == Raised(I(1))
             && (className.None? || !Contains(Lower(className.value), "syslistview32"))) ==> r == Ok(None)
  {
    if columnCount.None? then Ok(None)
    else
      var col := if column.Some? then Some(ResolveIndex(column.value, columnCount.value)) else None;
      match reply
      case Returned(v) =>
        if v.None? then Ok(None)
        else if col.Some? then Ok(Some(Column(Split(PyStr(v.value), '\n'))))
        else Ok(Some(Rows(SplitListItems(PyStr(v.value)))))
      case Raised(m) =>
        if m != I(1) then Err(AhkError(PyStr(m)))
        else if className.None? then Ok(None)
        else if !Contains(Lower(className.value), "syslistview32") then Ok(None)
        else if col.Some? && columnCount.value < col.value + 1 then Err(AhkError("column index out of range"))
        else Err(AhkError("there was a problem getting list items"))
  }

  // ----- opacity and style bits -----

  const OpacityError := ValueError("opacity value must be between 0 and 255")

  /** The `opacity` setter: None turns transparency "Off"; levels 0..255 are sent as ints. */
  function SetOpacity(value: Option<Num>): (r: Result<Call>)
    ensures value.None? ==> r == Ok(Call("WinSet", [S("Transparent"), S("Off")]))
    ensures value.Some? ==> (r.Err? <==> !(0.0 <= value.value.Value() <= 255.0))
    ensures r.Err? ==> r.error == OpacityError
    ensures r.Ok? && value.Some? ==>
              r.value.cmd == "WinSet" && |r.value.args| == 2 && r.value.args[1].I?
              && 0 <= r.value.args[1].i <= 255 && r.value.args[1].i as real <= value.value.Value()
    ensures r.Ok? && value.Some? && value.value.PyInt? ==> r.value.args[1] == I(value.value.i)
  {
    if value.None? then Ok(Call("WinSet", [S("Transparent"), S("Off")]))
    else if !(0.0 <= value.value.Value() <= 255.0) then Err(OpacityError)
    else Ok(Call("WinSet", [S("Transparent"), I(Trunc(value.value.Value()))]))
  }

  /** Distinct integer levels send distinct commands, and none of them turns transparency off. */
  lemma SetOpacityInjective(a: int, b: int)
    requires 0 <= a <= 255 && 0 <= b <= 255
    ensures SetOpacity(Some(PyInt(a))) != SetOpacity(None)
    ensures SetOpacity(Some(PyInt(a))) == SetOpacity(Some(PyInt(b))) ==> a == b
  {
    assert Trunc(a as real) == a && Trunc(b as real) == b;
  }

  const DisabledBit: bv32 := 0x0800_0000
  const VisibleBit: bv32 := 0x1000_0000
  const TopmostBit: bv32 := 0x0000_0008

  /** `flag in style` for an IntFlag. */
  predicate HasFlag(style: bv32, flag: bv32) { style & flag == flag }

  /** `is_enabled`: None for a missing window, otherwise whether DISABLED is clear. */
  function IsEnabled(style: Option<bv32>): (r: Option<bool>)
    ensures style.None? <==> r.None?
    ensures style.Some? ==> (r.value <==> (style.value & DisabledBit) == 0)
  {
    if style.None? then None else Some(!HasFlag(style.value, DisabledBit))
  }

  /** `is_visible`: False (not None) for a missing window, otherwise whether VISIBLE is set. */
  function IsVisible(style: Option<bv32>): (r: bool)
    ensures r ==> style.Some?
    ensures style.Some? ==> (r <==> (style.value & VisibleBit) != 0)
  {
    style.Some? && HasFlag(style.value, VisibleBit)
  }

  /** `always_on_top`: None for a missing window, otherwise whether TOPMOST is set in the extended style. */
  function AlwaysOnTop(exStyle: Option<bv32>): (r: Option<bool>)
    ensures exStyle.None? <==> r.None?
    ensures exStyle.Some? ==> (r.value <==> (exStyle.value & TopmostBit) != 0)
  {
    if exStyle.None? then None else Some(HasFlag(exStyle.value, TopmostBit))
  }

  /**
   * The flags are separate bits: setting or clearing DISABLED decides
   * `is_enabled` and leaves VISIBLE as it was.
   */
  lemma StyleBitsIndependent(style: bv32)
    ensures (style | DisabledBit) & DisabledBit == DisabledBit
    ensures (style & !DisabledBit) & DisabledBit == 0
    ensures (style | DisabledBit) & VisibleBit == style & VisibleBit
    ensures (style & !DisabledBit) & VisibleBit == style & VisibleBit
  {
  }

  /** The `always_on_top` setter: WinSet AlwaysOnTop On or Off by truthiness. */
  function SetAlwaysOnTop(value: Value): (c: Call)
    ensures c.cmd == "WinSet" && |c.args| == 2 && (c.args[1] == S("On") <==> Truthy(value))
  {
    Call("WinSet", [S("AlwaysOnTop"), S(if Truthy(value) then "On" else "Off")])
  }
}
