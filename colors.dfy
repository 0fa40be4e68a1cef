/**
 * RGB colors as AutoHotkey writes them: `to_hex(r, g, b)` and
 * `to_tuple(string)` of the `colors` module (the same file in both the
 * `ahk` and the `ahkpy` packages).
 */
module Colors {

  import opened Base
  import opened Text

  /** A color component as the caller passes it: an int, or any other object. */
  datatype Component = IntC(n: int) | NotInt

  datatype RGB = RGB(r: int, g: int, b: int)

  /** `to_hex`: each int component in unpadded lower-case hex. */
  function ToHex(r: Component, g: Component, b: Component): (res: Result<string>)
    ensures res.Err? <==> !(r.IntC? && g.IntC? && b.IntC?)
    ensures res.Err? ==> res.error == TypeError("color values must be integers")
  {
    if !(r.IntC? && g.IntC? && b.IntC?) then Err(TypeError("color values must be integers"))
    else Ok(IntHex(r.n) + IntHex(g.n) + IntHex(b.n))
  }

  /** `int(field, 16)`; raises ValueError on anything but hex digits. */
  function HexField(field: string): (res: Result<int>)
    ensures res.Ok? <==> ParseHex(field).Some?
  {
    match ParseHex(field)
    case Some(v) => Ok(v)
    case None => Err(ValueError("invalid literal for int() with base 16: " + Repr(field)))
  }

  /** `to_tuple`: three two-character base-16 fields of a six-character string. */
  function ToTuple(s: string): (res: Result<RGB>)
    ensures |s| != 6 ==> res == Err(ValueError("color string '" + Repr(s) + "' must be of length 6"))
    ensures res.Ok? ==> (ParseHex(s[..2]) == Some(res.value.r)
                         && ParseHex(s[2..4]) == Some(res.value.g)
                         && ParseHex(s[4..6]) == Some(res.value.b))
  {
    if |s| != 6 then Err(ValueError("color string '" + Repr(s) + "' must be of length 6"))
    else match (HexField(s[..2]), HexField(s[2..4]), HexField(s[4..6]))
      case (Ok(r), Ok(g), Ok(b)) => Ok(RGB(r, g, b))
      case (Err(e), _, _) => Err(e)
      case (_, Err(e), _) => Err(e)
      case (_, _, Err(e)) => Err(e)
  }

  predicate InByte(n: int) { 0 <= n < 256 }

  /** Every color that `to_tuple` accepts has components in 0..255. */
  lemma ToTupleInRange(s: string)
    ensures ToTuple(s).Ok? ==> InByte(ToTuple(s).value.r) && InByte(ToTuple(s).value.g) && InByte(ToTuple(s).value.b)
  {
    if |s| == 6 {
      ParseHexTwoBound(s[..2]);
      ParseHexTwoBound(s[2..4]);
      ParseHexTwoBound(s[4..6]);
    }
  }

  /** A six-character string of hex digits is always accepted. */
  lemma ToTupleAcceptsHexDigits(s: string)
    requires |s| == 6
    requires forall i :: 0 <= i < 6 ==> HexValue(s[i]).Some?
    ensures ToTuple(s).Ok?
  {
    ParseHexTwo(s[..2]);
    ParseHexTwo(s[2..4]);
    ParseHexTwo(s[4..6]);
  }

  lemma ParseHexTwo(t: string)
    requires |t| == 2 && HexValue(t[0]).Some? && HexValue(t[1]).Some?
    ensures ParseHex(t).Some?
  {
    assert t[..1] == [t[0]];
  }

  /** `to_tuple(to_hex(r, g, b)) == (r, g, b)` when every component is in 16..255. */
  lemma RoundTripTwoDigitComponents(r: int, g: int, b: int)
    requires 16 <= r < 256 && 16 <= g < 256 && 16 <= b < 256
    ensures ToHex(IntC(r), IntC(g), IntC(b)).Ok?
    ensures ToTuple(ToHex(IntC(r), IntC(g), IntC(b)).value) == Ok(RGB(r, g, b))
  {
    NatHexTwoDigits(r); NatHexTwoDigits(g); NatHexTwoDigits(b);
    ParseNatHex(r); ParseNatHex(g); ParseNatHex(b);
    var s := ToHex(IntC(r), IntC(g), IntC(b)).value;
    assert s[..2] == NatHex(r);
    assert s[2..4] == NatHex(g);
    assert s[4..6] == NatHex(b);
  }

  /**
   * Without zero padding the round trip fails for small components: pure
   * blue (0, 0, 255) is written "00ff", which `to_tuple` rejects.
   */
  lemma RoundTripFailsForBlue()
    ensures ToHex(IntC(0), IntC(0), IntC(255)) == Ok("00ff")
    ensures ToTuple("00ff").Err?
  {
    assert HexChar(0) == '0' && HexChar(15) == 'f';
    assert NatHex(255) == NatHex(15) + [HexChar(15)] == "ff";
    assert IntHex(0) == "0" && IntHex(255) == "ff";
    assert IntHex(0) + IntHex(0) + IntHex(255) == "00ff";
  }

  /** The evidently intended encoding, `f"{r:02x}{g:02x}{b:02x}"`. */
  function Pad2(s: string): (r: string)
    ensures |r| >= 2
  {
    if |s| == 0 then "00" else if |s| == 1 then "0" + s else s
  }

  function ToHexPadded(r: Component, g: Component, b: Component): (res: Result<string>)
    ensures res.Err? <==> !(r.IntC? && g.IntC? && b.IntC?)
    ensures res.Ok? && InByte(r.n) && InByte(g.n) && InByte(b.n) ==> |res.value| == 6
  {
    if !(r.IntC? && g.IntC? && b.IntC?) then Err(TypeError("color values must be integers"))
    else
      ByteHexTwo(r.n); ByteHexTwo(g.n); ByteHexTwo(b.n);
      Ok(Pad2(IntHex(r.n)) + Pad2(IntHex(g.n)) + Pad2(IntHex(b.n)))
  }

  lemma ByteHexTwo(n: int)
    ensures InByte(n) ==> |Pad2(IntHex(n))| == 2
  {
    if InByte(n) { NatHexTwoDigits(n); }
  }

  /** A padded two-digit field parses back for every byte value. */
  lemma ParsePadded(n: int)
    requires InByte(n)
    ensures ParseHex(Pad2(IntHex(n))) == Some(n)
  {
    NatHexTwoDigits(n);
    ParseNatHex(n);
    var h := NatHex(n);
    if |h| == 1 {
      var p := Pad2(h);
      assert p[..1] == "0";
      assert p[..|p| - 1] == "0";
    }
  }

  /** With padding the round trip holds for every color in 0..255. */
  lemma RoundTripPadded(r: int, g: int, b: int)
    requires InByte(r) && InByte(g) && InByte(b)
    ensures ToHexPadded(IntC(r), IntC(g), IntC(b)).Ok?
    ensures ToTuple(ToHexPadded(IntC(r), IntC(g), IntC(b)).value) == Ok(RGB(r, g, b))
  {
    ByteHexTwo(r); ByteHexTwo(g); ByteHexTwo(b);
    ParsePadded(r); ParsePadded(g); ParsePadded(b);
    var s := ToHexPadded(IntC(r), IntC(g), IntC(b)).value;
    assert s[..2] == Pad2(IntHex(r));
    assert s[2..4] == Pad2(IntHex(g));
    assert s[4..6] == Pad2(IntHex(b));
  }
}
