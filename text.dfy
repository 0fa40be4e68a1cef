/**
 * The string operations of Python that the library relies on, restricted
 * to what it uses: ASCII lower-casing, decimal and hexadecimal formatting of
 * integers, parsing them back, `sep.join(parts)` and `s.split(c)`.
 */
module Text {

  import opened Base

  function LowerChar(c: char): char
  {
    if 'A' <= c <= 'Z' then (c as int + 32) as char else c
  }

  /** Regrouping a concatenation of three sequences. */
  lemma Append3<T>(a: seq<T>, b: seq<T>, c: seq<T>)
    ensures a + (b + c) == a + b + c
  {
  }

  /** `s.lower()` on ASCII letters. */
  function Lower(s: string): (r: string)
    ensures |r| == |s|
    ensures forall i :: 0 <= i < |s| ==> r[i] == LowerChar(s[i])
  {
    seq(|s|, i requires 0 <= i < |s| => LowerChar(s[i]))
  }

  lemma LowerIdempotent(s: string)
    ensures Lower(Lower(s)) == Lower(s)
  {
  }

  /** Python's repr() of a str that holds no quote, backslash or control character. */
  function Repr(s: string): string { "'" + s + "'" }

  /** Python truthiness of a value the host returns. */
  predicate Truthy(v: Value)
  {
    match v
    case S(s) => s != ""
    case I(i) => i != 0
    case B(b) => b
    case NoneV => false
    case Callback(_) => true
    case Wrapped(_, _) => true
    case Partial(_, _) => true
  }

  /** `str(v)`. */
  function PyStr(v: Value): string
  {
    match v
    case S(s) => s
    case I(i) => IntStr(i)
    case B(b) => if b then "True" else "False"
    case NoneV => "None"
    case Callback(_) => "<function>"
    case Wrapped(_, _) => "<function>"
    case Partial(_, _) => "<function>"
  }

  /** `repr(v)`. */
  function PyRepr(v: Value): string
  {
    if v.S? then Repr(v.s) else PyStr(v)
  }

  /** `f"{n}"` of a Python number. */
  function NumStr(n: Num): string
  {
    match n
    case PyInt(i) => IntStr(i)
    case PyFloat(_, text) => text
  }

  predicate StartsWith(s: string, prefix: string)
  {
    |prefix| <= |s| && s[..|prefix|] == prefix
  }

  // ----- decimal -----

  predicate IsDigit(c: char) { '0' <= c <= '9' }

  predicate AllDigits(s: string) { forall i :: 0 <= i < |s| ==> IsDigit(s[i]) }

  function DigitChar(d: nat): (c: char)
    requires d < 10
    ensures IsDigit(c)
  {
    ('0' as int + d) as char
  }

  function DigitValue(c: char): (d: nat)
    requires IsDigit(c)
    ensures d < 10
  {
    c as int - '0' as int
  }

  /** `str(n)` for a non-negative int. */
  function NatStr(n: nat): (r: string)
    ensures |r| >= 1 && AllDigits(r)
    decreases n
  {
    if n < 10 then [DigitChar(n)] else NatStr(n / 10) + [DigitChar(n % 10)]
  }

  /** The value of a string of decimal digits. */
  function ParseNat(s: string): nat
    requires AllDigits(s)
  {
    if |s| == 0 then 0 else ParseNat(s[..|s| - 1]) * 10 + DigitValue(s[|s| - 1])
  }

  lemma {:induction false} ParseNatStr(n: nat)
    ensures ParseNat(NatStr(n)) == n
    decreases n
  {
    if n >= 10 {
      var s := NatStr(n);
      assert s[..|s| - 1] == NatStr(n / 10);
      ParseNatStr(n / 10);
    }
  }

  /** `str(i)` (and the f-string `{i}`) for any int. */
  function IntStr(i: int): (r: string)
    ensures |r| >= 1
  {
    if i < 0 then "-" + NatStr(-i) else NatStr(i)
  }

  /** `int(s)` on an optionally signed string of decimal digits. */
  function ParseInt(s: string): Option<int>
  {
    if |s| >= 2 && s[0] == '-' && AllDigits(s[1..]) then Some(-(ParseNat(s[1..]) as int))
    else if |s| >= 1 && AllDigits(s) then Some(ParseNat(s) as int)
    else None
  }

  /** A decimal integer is written with digits and a leading minus sign only. */
  lemma IntStrChars(i: int)
    ensures forall k :: 0 <= k < |IntStr(i)| ==> IsDigit(IntStr(i)[k]) || (k == 0 && IntStr(i)[k] == '-')
  {
    var s := IntStr(i);
    if i < 0 {
      assert forall k :: 1 <= k < |s| ==> s[k] == NatStr(-i)[k - 1];
    }
  }

  lemma IntStrRoundTrip(i: int)
    ensures ParseInt(IntStr(i)) == Some(i)
  {
    if i < 0 {
      var d := NatStr(-i);
      var s := IntStr(i);
      assert s == "-" + d;
      assert s[1..] == d;
      ParseNatStr(-i);
    } else {
      var s := NatStr(i);
      assert IsDigit(s[0]);
      ParseNatStr(i);
    }
  }

  /** Formatting an int is injective: different ints give different text. */
  lemma IntStrInjective(i: int, j: int)
    requires IntStr(i) == IntStr(j)
    ensures i == j
  {
    IntStrRoundTrip(i);
    IntStrRoundTrip(j);
  }

  /** The length of the run of decimal digits that starts s. */
  function DigitRun(s: string): (k: nat)
    ensures k <= |s| && AllDigits(s[..k])
    ensures k < |s| ==> !IsDigit(s[k])
  {
    if |s| == 0 || !IsDigit(s[0]) then 0
    else
      var k := DigitRun(s[1..]) + 1;
      assert s[..k] == [s[0]] + s[1..][..k - 1];
      k
  }

  lemma {:induction false} DigitRunAppend(d: string, rest: string)
    requires AllDigits(d)
    requires rest == [] || !IsDigit(rest[0])
    ensures DigitRun(d + rest) == |d|
  {
    if |d| > 0 {
      assert (d + rest)[1..] == d[1..] + rest;
      DigitRunAppend(d[1..], rest);
    } else {
      assert d + rest == rest;
    }
  }

  /** Reads an optionally signed decimal int from the front of s: the value and what follows it. */
  function ReadInt(s: string): Option<(int, string)>
  {
    if |s| >= 1 && s[0] == '-' then
      var t := s[1..];
      var k := DigitRun(t);
      if k == 0 then None else Some((-(ParseNat(t[..k]) as int), t[k..]))
    else
      var k := DigitRun(s);
      if k == 0 then None else Some((ParseNat(s[..k]) as int, s[k..]))
  }

  /** An int written by `str` is read back whole when no digit follows it. */
  lemma ReadIntStr(i: int, rest: string)
    requires rest == [] || !IsDigit(rest[0])
    ensures ReadInt(IntStr(i) + rest) == Some((i, rest))
  {
    if i < 0 {
      ReadNegStr(-i, rest);
    } else {
      ReadNatStr(i, rest);
    }
  }

  lemma ReadNegStr(n: nat, rest: string)
    requires n > 0
    requires rest == [] || !IsDigit(rest[0])
    ensures ReadInt("-" + NatStr(n) + rest) == Some((-(n as int), rest))
  {
    var t := NatStr(n) + rest;
    var s := "-" + NatStr(n) + rest;
    assert s[1..] == t;
    ReadNatStr(n, rest);
  }

  lemma ReadNatStr(n: nat, rest: string)
    requires rest == [] || !IsDigit(rest[0])
    ensures var s := NatStr(n) + rest; var k := DigitRun(s);
      k == |NatStr(n)| && ParseNat(s[..k]) == n && s[k..] == rest && IsDigit(s[0])
    ensures ReadInt(NatStr(n) + rest) == Some((n as int, rest))
  {
    var d := NatStr(n);
    DigitRunAppend(d, rest);
    assert (d + rest)[..|d|] == d;
    assert (d + rest)[|d|..] == rest;
    ParseNatStr(n);
  }

  /** `f"{tag}{v}"` when v is given, nothing otherwise. */
  function TaggedInt(tag: char, v: Option<int>): string
  {
    if v.Some? then [tag] + IntStr(v.value) else ""
  }

  /** Reads an optional `<tag><int>` option from the front of s. */
  function ReadTagged(tag: char, s: string): (Option<int>, string)
  {
    if |s| >= 1 && s[0] == tag then
      match ReadInt(s[1..])
      case Some((n, rest)) => (Some(n), rest)
      case None => (None, s)
    else (None, s)
  }

  /** A tagged option is read back from the text that carries it, when the next character is not a digit or the tag. */
  lemma ReadTaggedInt(tag: char, v: Option<int>, rest: string)
    requires !IsDigit(tag)
    requires rest == [] || (!IsDigit(rest[0]) && rest[0] != tag)
    ensures ReadTagged(tag, TaggedInt(tag, v) + rest) == (v, rest)
  {
    if v.Some? {
      ReadTaggedPresent(tag, v.value, rest);
    } else {
      assert TaggedInt(tag, v) + rest == rest;
    }
  }

  lemma ReadTaggedPresent(tag: char, i: int, rest: string)
    requires rest == [] || !IsDigit(rest[0])
    ensures ReadTagged(tag, [tag] + IntStr(i) + rest) == (Some(i), rest)
  {
    var t := IntStr(i) + rest;
    var s := [tag] + IntStr(i) + rest;
    assert s == [tag] + t;
    assert s[0] == tag && s[1..] == t;
    ReadIntStr(i, rest);
  }

  // ----- hexadecimal -----

  function HexChar(d: nat): (c: char)
    requires d < 16
  {
    if d < 10 then ('0' as int + d) as char else ('a' as int + d - 10) as char
  }

  /** The value of one hex digit of either case, as `int(c, 16)` reads it. */
  function HexValue(c: char): Option<nat>
  {
    if '0' <= c <= '9' then Some(c as int - '0' as int)
    else if 'a' <= c <= 'f' then Some(c as int - 'a' as int + 10)
    else if 'A' <= c <= 'F' then Some(c as int - 'A' as int + 10)
    else None
  }

  lemma HexValueOfChar(d: nat)
    requires d < 16
    ensures HexValue(HexChar(d)) == Some(d)
  {
  }

  /** `f"{n:x}"` for a non-negative int: lower-case, no padding. */
  function NatHex(n: nat): (r: string)
    ensures |r| >= 1
    decreases n
  {
    if n < 16 then [HexChar(n)] else NatHex(n / 16) + [HexChar(n % 16)]
  }

  /** `f"{i:x}"` for any int: a minus sign before the digits of |i|. */
  function IntHex(i: int): (r: string)
  {
    if i < 0 then "-" + NatHex(-i) else NatHex(i)
  }

  /** `int(s, 16)` on a non-empty string of hex digits; None where it raises. */
  function ParseHex(s: string): Option<nat>
  {
    if |s| == 0 then None
    else if |s| == 1 then HexValue(s[0])
    else match (ParseHex(s[..|s| - 1]), HexValue(s[|s| - 1]))
      case (Some(h), Some(d)) => Some(h * 16 + d)
      case _ => None
  }

  lemma {:induction false} ParseNatHex(n: nat)
    ensures ParseHex(NatHex(n)) == Some(n)
    decreases n
  {
    HexValueOfChar(n % 16);
    if n >= 16 {
      var s := NatHex(n);
      assert s[..|s| - 1] == NatHex(n / 16);
      ParseNatHex(n / 16);
    }
  }

  /** Exactly the ints 16..255 have a two-digit hex form. */
  lemma {:induction false} NatHexTwoDigits(n: nat)
    ensures |NatHex(n)| == 2 <==> 16 <= n < 256
  {
    if n >= 256 {
      NatHexAtLeastTwo(n / 16);
    }
  }

  lemma NatHexAtLeastTwo(n: nat)
    requires n >= 16
    ensures |NatHex(n)| >= 2
  {
  }

  /** A parsed two-digit hex string is a byte value. */
  lemma ParseHexTwoBound(s: string)
    requires |s| == 2
    ensures ParseHex(s).Some? ==> ParseHex(s).value < 256
  {
    assert s[..1] == [s[0]];
  }

  // ----- join and split -----

  /** `sep.join(parts)`. */
  function Join(parts: seq<string>, sep: string): string
  {
    if |parts| == 0 then ""
    else if |parts| == 1 then parts[0]
    else parts[0] + sep + Join(parts[1..], sep)
  }

  /** Appending a part to a joined list: the separator goes in front of it unless the list was empty. */
  lemma {:induction false} JoinAppend(parts: seq<string>, x: string, sep: string)
    ensures Join(parts + [x], sep) == if |parts| == 0 then x else Join(parts, sep) + sep + x
  {
    if |parts| >= 2 {
      assert (parts + [x])[1..] == parts[1..] + [x];
      JoinAppend(parts[1..], x, sep);
    } else if |parts| == 1 {
      assert (parts + [x])[1..] == [x];
    }
  }

  /** `"".join(parts + [x])` is `"".join(parts) + x`. */
  lemma ConcatAppend(parts: seq<string>, x: string)
    ensures Join(parts + [x], "") == Join(parts, "") + x
  {
    JoinAppend(parts, x, "");
    if |parts| == 0 { assert [] + [x] == [x]; }
  }

  /** `s.split(c)`: the pieces between occurrences of c; never empty. */
  function Split(s: string, c: char): (r: seq<string>)
    ensures |r| >= 1
    ensures forall k :: 0 <= k < |r| ==> c !in r[k]
  {
    if |s| == 0 then [""]
    else
      var rest := Split(s[1..], c);
      if s[0] == c then [""] + rest else [[s[0]] + rest[0]] + rest[1..]
  }

  /** Joining the pieces of a split with the separator rebuilds the string. */
  lemma {:induction false} JoinSplit(s: string, c: char)
    ensures Join(Split(s, c), [c]) == s
  {
    if |s| > 0 {
      JoinSplit(s[1..], c);
      var rest := Split(s[1..], c);
      if s[0] == c {
        assert s == [c] + s[1..];
      } else {
        var r := Split(s, c);
        if |rest| == 1 {
          assert r == [[s[0]] + rest[0]];
        } else {
          assert r[1..] == rest[1..];
          assert Join(rest, [c]) == rest[0] + [c] + Join(rest[1..], [c]);
        }
      }
    }
  }

  /** Splitting a join of separator-free pieces gives the pieces back. */
  lemma {:induction false} SplitJoin(parts: seq<string>, c: char)
    requires |parts| >= 1
    requires forall k :: 0 <= k < |parts| ==> c !in parts[k]
    ensures Split(Join(parts, [c]), c) == parts
  {
    if |parts| == 1 {
      SplitNoSep(parts[0], c);
    } else {
      SplitJoin(parts[1..], c);
      SplitPrefix(parts[0], Join(parts[1..], [c]), c);
      assert [parts[0]] + parts[1..] == parts;
    }
  }

  lemma {:induction false} SplitNoSep(s: string, c: char)
    requires c !in s
    ensures Split(s, c) == [s]
  {
    if |s| > 0 {
      SplitNoSep(s[1..], c);
      assert [s[0]] + s[1..] == s;
    }
  }

  /** Splitting `p + [c] + t` where p has no separator. */
  lemma {:induction false} SplitPrefix(p: string, t: string, c: char)
    requires c !in p
    ensures Split(p + [c] + t, c) == [p] + Split(t, c)
  {
    var s := p + [c] + t;
    if |p| == 0 {
      assert s == [c] + t;
      assert s[1..] == t;
    } else {
      assert s[1..] == p[1..] + [c] + t;
      SplitPrefix(p[1..], t, c);
      assert [p[0]] + p[1..] == p;
    }
  }

  /** Splitting at any occurrence of the separator splits the two sides independently. */
  lemma {:induction false} SplitConcat(p: string, t: string, c: char)
    ensures Split(p + [c] + t, c) == Split(p, c) + Split(t, c)
  {
    var s := p + [c] + t;
    if |p| == 0 {
      assert s == [c] + t;
      assert s[1..] == t;
    } else {
      assert s[1..] == p[1..] + [c] + t;
      SplitConcat(p[1..], t, c);
    }
  }

  /** The pieces of every part, in order. */
  function SplitAll(parts: seq<string>, c: char): seq<string>
  {
    if |parts| == 0 then [] else Split(parts[0], c) + SplitAll(parts[1..], c)
  }

  lemma {:induction false} SplitAllConcat(a: seq<string>, b: seq<string>, c: char)
    ensures SplitAll(a + b, c) == SplitAll(a, c) + SplitAll(b, c)
  {
    if |a| > 0 {
      assert (a + b)[1..] == a[1..] + b;
      SplitAllConcat(a[1..], b, c);
    } else {
      assert a + b == b;
    }
  }

  /** Splitting a join splits each part in turn. */
  lemma {:induction false} SplitJoinAll(parts: seq<string>, c: char)
    requires |parts| >= 1
    ensures Split(Join(parts, [c]), c) == SplitAll(parts, c)
  {
    if |parts| == 1 {
      assert SplitAll(parts[1..], c) == [];
    } else {
      SplitJoinAll(parts[1..], c);
      SplitConcat(parts[0], Join(parts[1..], [c]), c);
    }
  }
}
