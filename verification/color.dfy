/** Colour values as a style writes them: `#RRGGBB` and `#RRGGBBAA` hex (section
  * 5.2 of CSS Color Module Level 4), `rgb(...)`/`rgba(...)`, and a subset of the
  * named colours of section 6.1 of the same standard. */
module Colors {
  import opened Common


  datatype ColorValue = Rgba(r: Byte, g: Byte, b: Byte, a: Byte) | Named(name: string)

  /** The value of an ASCII letter or digit read as a base-36 digit. */
  function DigitValue(c: char): (d: Option<nat>)
    ensures d.Some? ==> d.value < 36
  {
    if '0' <= c <= '9' then Some(c as int - '0' as int)
    else if 'a' <= c <= 'z' then Some(c as int - 'a' as int + 10)
    else if 'A' <= c <= 'Z' then Some(c as int - 'A' as int + 10)
    else None
  }

  predicate IsDigitIn(c: char, radix: nat) {
    DigitValue(c).Some? && DigitValue(c).value < radix
  }

  /** The value of a run of digits, most significant first. */
  function DigitsValue(s: string, radix: nat): nat
    requires forall i :: 0 <= i < |s| ==> IsDigitIn(s[i], radix)
  {
    if s == [] then 0
    else
      var init := s[..|s| - 1];
      DigitsPrefix(s, init, radix);
      var high := DigitsValue(init, radix);
      NatProduct(high, radix);
      high * radix + DigitValue(s[|s| - 1]).value
  }

  lemma DigitsPrefix(s: string, init: string, radix: nat)
    requires s != [] && init == s[..|s| - 1]
    requires forall i :: 0 <= i < |s| ==> IsDigitIn(s[i], radix)
    ensures forall i :: 0 <= i < |init| ==> IsDigitIn(init[i], radix)
    ensures DigitValue(s[|s| - 1]).Some?
  {
    assert IsDigitIn(s[|s| - 1], radix);
  }

  lemma NatProduct(a: nat, b: nat)
    ensures a * b >= 0
  {
  }

  /** The digits of a number text: the text less one optional leading `+`. */
  function Unsigned(s: string): string {
    if StartsWith(s, "+") then s[1..] else s
  }

  /** `u8::from_str_radix`, and `str::parse::<u8>` for radix 10: an optional
    * `+`, then at least one digit of the radix, with a value below 256. Any
    * other character, a minus sign included, makes the text no byte. */
  function ParseByte(s: string, radix: nat): (r: Option<Byte>)
    ensures r.Some? <==> var d := Unsigned(s);
                         && d != [] && (forall i :: 0 <= i < |d| ==> IsDigitIn(d[i], radix))
                         && DigitsValue(d, radix) < 256
    ensures r.Some? ==> r.value == DigitsValue(Unsigned(s), radix)
    ensures (exists i :: 0 <= i < |s| && !IsDigitIn(s[i], radix) && !(i == 0 && s[i] == '+')) ==> r.None?
    ensures StartsWith(s, "-") ==> r.None?
  {
    var digits := Unsigned(s);
    if digits != [] && (forall i :: 0 <= i < |digits| ==> IsDigitIn(digits[i], radix))
       && DigitsValue(digits, radix) < 256
    then
      DigitsCoverText(s, radix);
      Some(DigitsValue(digits, radix))
    else None
  }

  /** When the digits of a text are all digits of the radix, so is every
    * character of the text but a leading `+`. */
  lemma DigitsCoverText(s: string, radix: nat)
    requires forall i :: 0 <= i < |Unsigned(s)| ==> IsDigitIn(Unsigned(s)[i], radix)
    ensures forall i :: 0 <= i < |s| && !(i == 0 && s[i] == '+') ==> IsDigitIn(s[i], radix)
  {
    var d := Unsigned(s);
    forall i | 0 <= i < |s| && !(i == 0 && s[i] == '+')
      ensures IsDigitIn(s[i], radix)
    {
      if StartsWith(s, "+") {
        assert s[0] == '+';
        assert s[i] == d[i - 1];
      } else {
        assert s[i] == d[i];
      }
    }
  }

  /** `(af * 255.0) as u8`: a float-to-integer cast truncates toward zero and
    * saturates at both ends of the range. */
  function AlphaByte(af: real): (a: Byte)
    ensures af <= 0.0 ==> a == 0
    ensures af >= 1.0 ==> a == 255
    ensures 0.0 <= af <= 1.0 ==> a as real <= af * 255.0 < a as real + 1.0 || a == 255
  {
    var x := af * 255.0;
    if x <= 0.0 then 0 else if x >= 255.0 then 255 else x.Floor
  }

  /** `ColorValue::parse`. Only the hex and `rgb` forms can fail; a hex
    * form must have 6 or 8 digits after its `#`, and everything else is a
    * named colour, kept lower-cased when the table does not know it. */
  function Parse(input: string, numbers: NumberParsers): (r: Option<ColorValue>)
    ensures r.None? ==> StartsWith(Trim(input), "#") || StartsWith(Trim(input), "rgb(") || StartsWith(Trim(input), "rgba(")
    ensures StartsWith(Trim(input), "#") && |Trim(input)| != 7 && |Trim(input)| != 9 ==> r.None?
    ensures StartsWith(Trim(input), "#") && r.Some? ==> r.value.Rgba? && (|Trim(input)| == 7 ==> r.value.a == 255)
    ensures r.Some? && r.value.Named? ==> r.value.name == ToLower(Trim(input)) && !IsTableName(r.value.name)
  {
    var s := Trim(input);
    if StartsWith(s, "#") then ParseHex(s[1..])
    else if StartsWith(s, "rgb(") || StartsWith(s, "rgba(") then ParseRgb(s, numbers)
    else
      NamedColorTable(ToLower(s));
      Some(NamedColor(ToLower(s)))
  }

  /** The byte written by the two hex digits at `i`. */
  function HexByte(hex: string, i: nat): Option<Byte>
    requires i + 2 <= |hex|
  {
    ParseByte(hex[i..i + 2], 16)
  }

  /** The digits after `#`: exactly 6 or 8, read in pairs as red, green,
    * blue and, for 8, alpha; a pair that is not a byte fails the colour. */
  function ParseHex(hex: string): (r: Option<ColorValue>)
    ensures |hex| != 6 && |hex| != 8 ==> r.None?
    ensures r.Some? <==> && (|hex| == 6 || |hex| == 8)
                         && HexByte(hex, 0).Some? && HexByte(hex, 2).Some? && HexByte(hex, 4).Some?
                         && (|hex| == 8 ==> HexByte(hex, 6).Some?)
    ensures r.Some? ==> r.value == Rgba(HexByte(hex, 0).value, HexByte(hex, 2).value, HexByte(hex, 4).value,
                                        if |hex| == 6 then 255 else HexByte(hex, 6).value)
  {
    if |hex| == 6 then
      var r :- ParseByte(hex[0..2], 16);
      var g :- ParseByte(hex[2..4], 16);
      var b :- ParseByte(hex[4..6], 16);
      Some(Rgba(r, g, b, 255))
    else if |hex| == 8 then
      var r :- ParseByte(hex[0..2], 16);
      var g :- ParseByte(hex[2..4], 16);
      var b :- ParseByte(hex[4..6], 16);
      var a :- ParseByte(hex[6..8], 16);
      Some(Rgba(r, g, b, a))
    else None
  }

  /** Any character after `#` that is neither a hex digit nor `+` makes the
    * hex form no colour. */
  lemma HexRejectsNonDigit(hex: string, i: nat)
    requires |hex| == 6 || |hex| == 8
    requires i < |hex| && !IsDigitIn(hex[i], 16) && hex[i] != '+'
    ensures ParseHex(hex).None?
  {
    var p := i - i % 2;
    var pair := hex[p..p + 2];
    assert pair[i - p] == hex[i];
    assert ParseByte(pair, 16).None?;
    if p == 0 {
    } else if p == 2 {
    } else if p == 4 {
    } else {
      assert p == 6;
    }
  }

  /** `#` followed by a character that is not a hex digit is no colour. */
  lemma HashNonHexRejected(input: string, i: nat, numbers: NumberParsers)
    requires StartsWith(Trim(input), "#")
    requires 1 <= i < |Trim(input)| && !IsDigitIn(Trim(input)[i], 16) && Trim(input)[i] != '+'
    ensures Parse(input, numbers).None?
  {
    var t := Trim(input);
    if |t| == 7 || |t| == 9 {
      assert t[1..][i - 1] == t[i];
      HexRejectsNonDigit(t[1..], i - 1);
    }
  }

  /** The comma-separated components between `rgb(`/`rgba(` and `)`. */
  function RgbParts(s: string): seq<string> {
    SplitChar(TrimEndChar(TrimStartStr(TrimStartStr(s, "rgba("), "rgb("), ')'), ',')
  }

  /** The `rgb`/`rgba` form: at least three components, each a decimal
    * byte, and an optional fourth, a number read as the alpha fraction; any
    * component that does not read fails the colour. */
  function ParseRgb(s: string, numbers: NumberParsers): (r: Option<ColorValue>)
    ensures |RgbParts(s)| < 3 ==> r.None?
    ensures r.Some? <==> var p := RgbParts(s);
                         && |p| >= 3
                         && ParseByte(Trim(p[0]), 10).Some? && ParseByte(Trim(p[1]), 10).Some?
                         && ParseByte(Trim(p[2]), 10).Some?
                         && (|p| >= 4 ==> numbers.f32(Trim(p[3])).Some?)
    ensures r.Some? ==> var p := RgbParts(s);
                        && r.value.Rgba?
                        && r.value.r == ParseByte(Trim(p[0]), 10).value
                        && r.value.g == ParseByte(Trim(p[1]), 10).value
                        && r.value.b == ParseByte(Trim(p[2]), 10).value
                        && r.value.a == (if |p| == 3 then 255 else AlphaByte(numbers.f32(Trim(p[3])).value))
  {
    var parts := RgbParts(s);
    if |parts| >= 3 then
      var r :- ParseByte(Trim(parts[0]), 10);
      var g :- ParseByte(Trim(parts[1]), 10);
      var b :- ParseByte(Trim(parts[2]), 10);
      var a :- if |parts| >= 4 then
                 var af :- numbers.f32(Trim(parts[3]));
                 Some(AlphaByte(af))
               else Some(255);
      Some(Rgba(r, g, b, a))
    else None
  }

  predicate IsTableName(name: string) {
    name in {"white", "black", "red", "green", "blue", "yellow", "cyan", "magenta",
             "orange", "purple", "gray", "grey", "transparent"}
  }

  /** The fixed named-colour table; any other name is kept as `Named`. */
  function NamedColor(lower: string): (c: ColorValue)
  {
    match lower
    case "white" => Rgba(255, 255, 255, 255)
    case "black" => Rgba(0, 0, 0, 255)
    case "red" => Rgba(255, 0, 0, 255)
    case "green" => Rgba(0, 128, 0, 255)
    case "blue" => Rgba(0, 0, 255, 255)
    case "yellow" => Rgba(255, 255, 0, 255)
    case "cyan" => Rgba(0, 255, 255, 255)
    case "magenta" => Rgba(255, 0, 255, 255)
    case "orange" => Rgba(255, 165, 0, 255)
    case "purple" => Rgba(128, 0, 128, 255)
    case "gray" => Rgba(128, 128, 128, 255)
    case "grey" => Rgba(128, 128, 128, 255)
    case "transparent" => Rgba(0, 0, 0, 0)
    case other => Named(other)
  }

  // ----- Properties -----

  /** A name outside the table is kept as `Named`, lower-cased; only
    * `transparent` in the table has zero alpha. */
  lemma NamedColorTable(lower: string)
    ensures NamedColor(lower).Named? <==> !IsTableName(lower)
    ensures NamedColor(lower).Named? ==> NamedColor(lower).name == lower
    ensures NamedColor(lower).Rgba? ==> (NamedColor(lower).a == 0 <==> lower == "transparent")
  {
  }

  /** Surrounding whitespace never changes the result. */
  lemma ParseIgnoresSurroundingSpace(input: string, numbers: NumberParsers)
    ensures Parse(input, numbers) == Parse(Trim(input), numbers)
  {
    TrimIdempotent(input);
  }

  function HexDigit(d: nat): (c: char)
    requires d < 16
  {
    if d < 10 then ('0' as int + d) as char else ('a' as int + d - 10) as char
  }

  /** A byte written as two lower-case hex digits. */
  function HexPair(b: Byte): (s: string)
    ensures |s| == 2
  {
    [HexDigit(b / 16), HexDigit(b % 16)]
  }

  lemma HexDigitValue(d: nat)
    requires d < 16
    ensures DigitValue(HexDigit(d)) == Some(d)
  {
  }

  lemma {:induction false} HexPairParses(b: Byte)
    ensures ParseByte(HexPair(b), 16) == Some(b)
  {
    var s := HexPair(b);
    HexDigitValue(b / 16);
    HexDigitValue(b % 16);
    assert IsDigitIn(s[0], 16) && IsDigitIn(s[1], 16);
    FirstCharRulesOut(s, "+");
    assert s[..1][..0] == [];
    assert DigitsValue(s[..1], 16) == b / 16;
    assert DigitsValue(s, 16) == b;
  }

  lemma {:induction false} HexPairsParse(r: Byte, g: Byte, b: Byte)
    ensures ParseHex(HexPair(r) + HexPair(g) + HexPair(b)) == Some(Rgba(r, g, b, 255))
  {
    var hex := HexPair(r) + HexPair(g) + HexPair(b);
    assert hex[0..2] == HexPair(r) && hex[2..4] == HexPair(g) && hex[4..6] == HexPair(b);
    HexPairParses(r);
    HexPairParses(g);
    HexPairParses(b);
  }

  lemma {:induction false} HexQuadsParse(r: Byte, g: Byte, b: Byte, a: Byte)
    ensures ParseHex(HexPair(r) + HexPair(g) + HexPair(b) + HexPair(a)) == Some(Rgba(r, g, b, a))
  {
    var hex := HexPair(r) + HexPair(g) + HexPair(b) + HexPair(a);
    assert hex[0..2] == HexPair(r) && hex[2..4] == HexPair(g);
    assert hex[4..6] == HexPair(b) && hex[6..8] == HexPair(a);
    HexPairParses(r);
    HexPairParses(g);
    HexPairParses(b);
    HexPairParses(a);
  }

  /** `#RRGGBB` written from three bytes parses back to them, opaque. */
  lemma {:induction false} HexRoundTrip(r: Byte, g: Byte, b: Byte, numbers: NumberParsers)
    ensures Parse("#" + HexPair(r) + HexPair(g) + HexPair(b), numbers) == Some(Rgba(r, g, b, 255))
  {
    var s := "#" + HexPair(r) + HexPair(g) + HexPair(b);
    TrimNoop(s);
    assert s[1..] == HexPair(r) + HexPair(g) + HexPair(b);
    HexPairsParse(r, g, b);
  }

  /** `#RRGGBBAA` written from four bytes parses back to them. */
  lemma {:induction false} HexAlphaRoundTrip(r: Byte, g: Byte, b: Byte, a: Byte, numbers: NumberParsers)
    ensures Parse("#" + HexPair(r) + HexPair(g) + HexPair(b) + HexPair(a), numbers) == Some(Rgba(r, g, b, a))
  {
    var s := "#" + HexPair(r) + HexPair(g) + HexPair(b) + HexPair(a);
    TrimNoop(s);
    assert s[1..] == HexPair(r) + HexPair(g) + HexPair(b) + HexPair(a);
    HexQuadsParse(r, g, b, a);
  }

  lemma {:induction false} DecimalValue(n: nat)
    ensures forall i :: 0 <= i < |NatToString(n)| ==> IsDigitIn(NatToString(n)[i], 10)
    ensures DigitsValue(NatToString(n), 10) == n
    decreases n
  {
    var s := NatToString(n);
    if n < 10 {
      assert s[..0] == [];
    } else {
      DecimalValue(n / 10);
      assert s[..|s| - 1] == NatToString(n / 10);
    }
  }

  lemma ParseByteOfDigits(s: string, radix: nat)
    requires s != [] && !StartsWith(s, "+")
    requires forall i :: 0 <= i < |s| ==> IsDigitIn(s[i], radix)
    requires DigitsValue(s, radix) < 256
    ensures ParseByte(s, radix) == Some(DigitsValue(s, radix))
  {
  }

  lemma {:induction false} DecimalParses(n: Byte)
    ensures ParseByte(NatToString(n), 10) == Some(n)
    ensures AllDigits(NatToString(n))
  {
    var s := NatToString(n);
    DecimalValue(n);
    assert '0' <= s[0] <= '9' && '0' <= s[|s| - 1] <= '9';
    TrimNoop(s);
    FirstCharRulesOut(s, "+");
    ParseByteOfDigits(s, 10);
  }

  predicate AllDigits(d: string) {
    d != [] && forall i :: 0 <= i < |d| ==> '0' <= d[i] <= '9'
  }

  lemma DigitsTrimmed(d: string)
    requires AllDigits(d)
    ensures Trim(d) == d
  {
    assert '0' <= d[0] <= '9' && '0' <= d[|d| - 1] <= '9';
    TrimNoop(d);
  }

  lemma {:induction false} RgbInner(body: string)
    requires body != [] && '0' <= body[0] <= '9' && '0' <= body[|body| - 1] <= '9'
    ensures TrimEndChar(TrimStartStr(TrimStartStr("rgb(" + body + ")", "rgba("), "rgb("), ')') == body
  {
    var s := "rgb(" + body + ")";
    CharRulesOut(s, "rgba(", 3);
    assert TrimStartStr(s, "rgba(") == s;
    assert s[..4] == "rgb(";
    assert s[4..] == body + ")";
    FirstCharRulesOut(s[4..], "rgb(");
    assert TrimStartStr(s[4..], "rgb(") == s[4..];
    assert TrimStartStr(s, "rgb(") == body + ")";
    assert TrimEndChar(body, ')') == body;
    assert (body + ")")[..|body|] == body;
  }

  lemma {:induction false} SplitThree(dr: string, dg: string, db: string)
    requires ',' !in dr && ',' !in dg && ',' !in db
    ensures SplitChar(dr + "," + dg + "," + db, ',') == [dr, dg, db]
  {
    assert dr + "," + dg + "," + db == dr + [','] + (dg + "," + db);
    SplitCharConcat(dr, ',', dg + "," + db);
    assert dg + "," + db == dg + [','] + db;
    SplitCharConcat(dg, ',', db);
    assert SplitChar(db, ',') == [db];
  }

  lemma {:induction false} RgbPartsOfDigits(dr: string, dg: string, db: string)
    requires AllDigits(dr) && AllDigits(dg) && AllDigits(db)
    ensures RgbParts("rgb(" + dr + "," + dg + "," + db + ")") == [dr, dg, db]
  {
    var body := dr + "," + dg + "," + db;
    assert "rgb(" + dr + "," + dg + "," + db + ")" == "rgb(" + body + ")";
    assert body[0] == dr[0] && body[|body| - 1] == db[|db| - 1];
    RgbInner(body);
    assert ',' !in dr by { forall i | 0 <= i < |dr| ensures dr[i] != ',' { } }
    assert ',' !in dg by { forall i | 0 <= i < |dg| ensures dg[i] != ',' { } }
    assert ',' !in db by { forall i | 0 <= i < |db| ensures db[i] != ',' { } }
    SplitThree(dr, dg, db);
  }

  lemma ParseRgbThree(s: string, numbers: NumberParsers, r: Byte, g: Byte, b: Byte)
    requires |RgbParts(s)| == 3
    requires ParseByte(Trim(RgbParts(s)[0]), 10) == Some(r)
    requires ParseByte(Trim(RgbParts(s)[1]), 10) == Some(g)
    requires ParseByte(Trim(RgbParts(s)[2]), 10) == Some(b)
    ensures ParseRgb(s, numbers) == Some(Rgba(r, g, b, 255))
  {
  }

  /** `rgb(r,g,b)` written in decimal parses back to the three bytes, opaque. */
  lemma {:induction false} RgbRoundTrip(r: Byte, g: Byte, b: Byte, numbers: NumberParsers)
    ensures Parse("rgb(" + NatToString(r) + "," + NatToString(g) + "," + NatToString(b) + ")", numbers)
            == Some(Rgba(r, g, b, 255))
  {
    var dr, dg, db := NatToString(r), NatToString(g), NatToString(b);
    DecimalParses(r);
    DecimalParses(g);
    DecimalParses(b);
    RgbOfDigits(dr, dg, db, r, g, b, numbers);
  }

  lemma {:induction false} RgbOfDigits(dr: string, dg: string, db: string, r: Byte, g: Byte, b: Byte, numbers: NumberParsers)
    requires AllDigits(dr) && AllDigits(dg) && AllDigits(db)
    requires ParseByte(dr, 10) == Some(r) && ParseByte(dg, 10) == Some(g) && ParseByte(db, 10) == Some(b)
    ensures Parse("rgb(" + dr + "," + dg + "," + db + ")", numbers) == Some(Rgba(r, g, b, 255))
  {
    var s := "rgb(" + dr + "," + dg + "," + db + ")";
    assert ParseRgb(s, numbers) == Some(Rgba(r, g, b, 255)) by {
      RgbPartsOfDigits(dr, dg, db);
      DigitsTrimmed(dr);
      DigitsTrimmed(dg);
      DigitsTrimmed(db);
      ParseRgbThree(s, numbers, r, g, b);
    }
    assert Trim(s) == s && StartsWith(s, "rgb(") && !StartsWith(s, "#") by {
      RgbCallShape(dr + "," + dg + "," + db);
      ConcatAssoc("rgb(", dr, ",");
      ConcatAssoc("rgb(", dr + ",", dg);
      ConcatAssoc("rgb(", dr + "," + dg, ",");
      ConcatAssoc("rgb(", dr + "," + dg + ",", db);
    }
    RgbDispatch(s, numbers, Some(Rgba(r, g, b, 255)));
  }

  /** A call written `rgb(...)` is already trimmed and takes the `rgb` branch. */
  lemma RgbCallShape(body: string)
    ensures Trim("rgb(" + body + ")") == "rgb(" + body + ")"
    ensures StartsWith("rgb(" + body + ")", "rgb(") && !StartsWith("rgb(" + body + ")", "#")
  {
    RgbCallTrimmed(body);
    RgbCallPrefix(body);
    FirstCharRulesOut("rgb(" + body + ")", "#");
  }

  lemma RgbCallTrimmed(body: string)
    ensures Trim("rgb(" + body + ")") == "rgb(" + body + ")"
  {
    var s := "rgb(" + body + ")";
    assert s[0] == 'r' && s[|s| - 1] == ')';
    TrimNoop(s);
  }

  lemma RgbCallPrefix(body: string)
    ensures StartsWith("rgb(" + body + ")", "rgb(")
  {
    ConcatAssoc("rgb(", body, ")");
    StartsWithConcat("rgb(", body + ")");
  }

  lemma RgbDispatch(s: string, numbers: NumberParsers, x: Option<ColorValue>)
    requires Trim(s) == s && StartsWith(s, "rgb(") && !StartsWith(s, "#")
    requires ParseRgb(s, numbers) == x
    ensures Parse(s, numbers) == x
  {
  }

  /** An `rgb`/`rgba` form one of whose first three components is not a
    * decimal byte is no colour. */
  lemma RgbComponentRejected(input: string, k: nat, numbers: NumberParsers)
    requires StartsWith(Trim(input), "rgb(") || StartsWith(Trim(input), "rgba(")
    requires |RgbParts(Trim(input))| >= 3 && k < 3
    requires ParseByte(Trim(RgbParts(Trim(input))[k]), 10).None?
    ensures Parse(input, numbers).None?
  {
    var t := Trim(input);
    assert t[0] == 'r';
    FirstCharRulesOut(t, "#");
  }

  /** `rgb(r,g,b)` written with a decimal component of 256 or more is no
    * colour. */
  lemma {:induction false} RgbOutOfRangeRejected(dr: string, dg: string, db: string, numbers: NumberParsers)
    requires AllDigits(dr) && AllDigits(dg) && AllDigits(db)
    requires DigitsValue(dr, 10) >= 256
    ensures Parse("rgb(" + dr + "," + dg + "," + db + ")", numbers).None?
  {
    var s := "rgb(" + dr + "," + dg + "," + db + ")";
    assert ParseRgb(s, numbers).None? by {
      RgbPartsOfDigits(dr, dg, db);
      DigitsTrimmed(dr);
      assert dr[0] != '+';
      FirstCharRulesOut(dr, "+");
      assert ParseByte(dr, 10).None?;
    }
    assert Trim(s) == s && StartsWith(s, "rgb(") && !StartsWith(s, "#") by {
      RgbCallShape(dr + "," + dg + "," + db);
      ConcatAssoc("rgb(", dr, ",");
      ConcatAssoc("rgb(", dr + ",", dg);
      ConcatAssoc("rgb(", dr + "," + dg, ",");
      ConcatAssoc("rgb(", dr + "," + dg + ",", db);
    }
    RgbDispatch(s, numbers, None);
  }

  lemma StartsWithLower(t: string, p: string)
    requires ToLower(p) == p
    requires StartsWith(t, p)
    ensures StartsWith(ToLower(t), p)
  {
    assert ToLower(t)[..|p|] == ToLower(t[..|p|]);
  }

  /** A named colour is matched without regard to letter case. */
  lemma {:induction false} NamedCaseInsensitive(input: string, numbers: NumberParsers)
    requires !StartsWith(ToLower(Trim(input)), "#")
    requires !StartsWith(ToLower(Trim(input)), "rgb(") && !StartsWith(ToLower(Trim(input)), "rgba(")
    ensures Parse(ToLower(input), numbers) == Parse(input, numbers)
    ensures Parse(input, numbers).Some?
  {
    var t := Trim(input);
    TrimToLowerCommute(input);
    ToLowerIdempotent(t);
    if StartsWith(t, "#") { StartsWithLower(t, "#"); }
    if StartsWith(t, "rgb(") { StartsWithLower(t, "rgb("); }
    if StartsWith(t, "rgba(") { StartsWithLower(t, "rgba("); }
  }
}
