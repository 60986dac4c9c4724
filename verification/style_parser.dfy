/** The hand-written scanner that turns the flat JSON object a script sends as
  * a style into a `BoxStyle`: split at top-level commas, cut each pair at its
  * first colon, and apply each recognised key to the record. */
module StyleParser {
  import opened Common
  import opened Colors
  import opened StyleTypes

  // ----- Splitting at top-level commas -----

  /** The scanner's state before a character: nesting depth of braces and
    * brackets, whether it is inside a string literal, and whether the previous
    * character was a backslash inside a string. */
  datatype ScanState = ScanState(depth: int, inString: bool, escape: bool)

  const ScanStart := ScanState(0, false, false)

  /** The state after reading one character. */
  function Step(st: ScanState, c: char): ScanState {
    if st.escape then st.(escape := false)
    else if c == '\\' && st.inString then st.(escape := true)
    else if c == '"' then st.(inString := !st.inString)
    else if (c == '{' || c == '[') && !st.inString then st.(depth := st.depth + 1)
    else if (c == '}' || c == ']') && !st.inString then st.(depth := st.depth - 1)
    else st
  }

  /** The state before position `i` of `s`. */
  function StateAt(s: string, i: nat): ScanState
    requires i <= |s|
  {
    if i == 0 then ScanStart else Step(StateAt(s, i - 1), s[i - 1])
  }

  /** Position `i` holds a comma outside every string literal and every nested
    * object or array: the pair ends there. */
  predicate IsCut(s: string, i: nat)
    requires i < |s|
  {
    var st := StateAt(s, i);
    !st.escape && s[i] == ',' && !st.inString && st.depth == 0
  }

  /** The pieces of `s[start..]`, scanning from `i`: cut at every cut position,
    * and keep the last piece only when it is not empty. */
  function PiecesFrom(s: string, i: nat, start: nat): seq<string>
    requires start <= i <= |s|
    decreases |s| - i
  {
    if i == |s| then (if start < |s| then [s[start..]] else [])
    else if IsCut(s, i) then [s[start..i]] + PiecesFrom(s, i + 1, i + 1)
    else PiecesFrom(s, i + 1, start)
  }

  /** The pairs of an object's inside, as `split_json_pairs` finds them. */
  function JsonPairs(s: string): seq<string> {
    PiecesFrom(s, 0, 0)
  }

  /** `split_json_pairs`. */
  method SplitJsonPairs(s: string) returns (pairs: seq<string>)
    ensures pairs == JsonPairs(s)
  {
    pairs := [];
    var depth := 0;
    var inString := false;
    var escape := false;
    var start := 0;
    var i := 0;
    while i < |s|
      invariant 0 <= start <= i <= |s|
      invariant ScanState(depth, inString, escape) == StateAt(s, i)
      invariant pairs + PiecesFrom(s, i, start) == JsonPairs(s)
    {
      var c := s[i];
      if escape {
        escape := false;
      } else if c == '\\' && inString {
        escape := true;
      } else if c == '"' {
        inString := !inString;
      } else if (c == '{' || c == '[') && !inString {
        depth := depth + 1;
      } else if (c == '}' || c == ']') && !inString {
        depth := depth - 1;
      } else if c == ',' && !inString && depth == 0 {
        assert IsCut(s, i);
        assert pairs + [s[start..i]] + PiecesFrom(s, i + 1, i + 1) == JsonPairs(s);
        pairs := pairs + [s[start..i]];
        start := i + 1;
      }
      i := i + 1;
    }
    if start < |s| {
      pairs := pairs + [s[start..]];
    }
  }

  /** The pieces joined back with commas. */
  function JoinComma(pieces: seq<string>): string {
    if |pieces| == 0 then ""
    else if |pieces| == 1 then pieces[0]
    else pieces[0] + "," + JoinComma(pieces[1..])
  }

  lemma {:induction false} PiecesEmpty(s: string, i: nat, start: nat)
    requires start <= i <= |s|
    ensures PiecesFrom(s, i, start) == [] <==> start == |s|
    decreases |s| - i
  {
    if i < |s| && !IsCut(s, i) {
      PiecesEmpty(s, i + 1, start);
    }
  }

  lemma JoinCons(x: string, rest: seq<string>)
    ensures JoinComma([x] + rest) == if rest == [] then x else x + "," + JoinComma(rest)
  {
    if rest != [] {
      assert ([x] + rest)[1..] == rest;
    }
  }

  lemma {:induction false} PiecesRejoinFrom(s: string, i: nat, start: nat)
    requires start <= i <= |s|
    ensures var j := JoinComma(PiecesFrom(s, i, start));
            j == s[start..] || (j + "," == s[start..] && 0 < |s| && IsCut(s, |s| - 1))
    decreases |s| - i
  {
    if i == |s| {
    } else if IsCut(s, i) {
      var rest := PiecesFrom(s, i + 1, i + 1);
      assert PiecesFrom(s, i, start) == [s[start..i]] + rest;
      PiecesRejoinFrom(s, i + 1, i + 1);
      PiecesEmpty(s, i + 1, i + 1);
      JoinCons(s[start..i], rest);
      var head := s[start..i] + ",";
      assert s[start..] == head + s[i + 1..];
      if rest == [] {
        assert s[i + 1..] == [];
        assert JoinComma(PiecesFrom(s, i, start)) + "," == s[start..];
      } else if JoinComma(rest) == s[i + 1..] {
        assert JoinComma(PiecesFrom(s, i, start)) == head + JoinComma(rest);
      } else {
        assert JoinComma(PiecesFrom(s, i, start)) + "," == head + (JoinComma(rest) + ",");
      }
    } else {
      PiecesRejoinFrom(s, i + 1, start);
    }
  }

  /** The pairs are consecutive pieces of the input: joined back with commas
    * they give the input, less a final comma when the input ends with one at
    * the top level (the empty last piece is dropped). */
  lemma PairsRejoin(s: string)
    ensures JoinComma(JsonPairs(s)) == s
            || (JoinComma(JsonPairs(s)) + "," == s && 0 < |s| && IsCut(s, |s| - 1))
  {
    PiecesRejoinFrom(s, 0, 0);
  }

  /** Without a cut position the whole non-empty input is a single pair. */
  lemma {:induction false} NoCutOnePair(s: string)
    requires s != []
    requires forall i :: 0 <= i < |s| ==> !IsCut(s, i)
    ensures JsonPairs(s) == [s]
  {
    NoCutFrom(s, 0);
  }

  lemma {:induction false} NoCutFrom(s: string, i: nat)
    requires s != [] && i <= |s|
    requires forall k :: 0 <= k < |s| ==> !IsCut(s, k)
    ensures PiecesFrom(s, i, 0) == [s]
    decreases |s| - i
  {
    if i < |s| {
      NoCutFrom(s, i + 1);
    }
  }

  /** Inside a string literal a backslash makes the scanner skip the next
    * character, so an escaped quote does not end the string. */
  lemma EscapedCharStaysInString(s: string, i: nat)
    requires i + 2 <= |s|
    requires StateAt(s, i).inString && !StateAt(s, i).escape && s[i] == '\\'
    ensures StateAt(s, i + 2).inString && !StateAt(s, i + 2).escape
    ensures StateAt(s, i + 2).depth == StateAt(s, i).depth
  {
  }

  /** A comma inside a string literal never separates pairs. */
  lemma CommaInStringNoCut(s: string, i: nat)
    requires i < |s| && StateAt(s, i).inString
    ensures !IsCut(s, i)
  {
  }

  // ----- Pairs and values -----

  /** `parse_json_kv`: cut at the first colon; the key is trimmed and stripped
    * of quotes at both ends, the value trimmed. */
  function ParseJsonKv(pair: string): (r: Option<(string, string)>)
    ensures r.None? <==> ':' !in pair
  {
    match Find(pair, ':')
    case None => None
    case Some(c) => Some((Trim(TrimChar(Trim(pair[..c]), '"')), Trim(pair[c + 1..])))
  }

  /** A pair written `"key": value` gives back the key and the trimmed value. */
  lemma {:induction false} KvRoundTrip(key: string, value: string)
    requires key != [] && ':' !in key && '"' !in key
    requires !IsWhitespace(key[0]) && !IsWhitespace(key[|key| - 1])
    ensures ParseJsonKv("\"" + key + "\":" + value) == Some((key, Trim(value)))
  {
    var pair := "\"" + key + "\":" + value;
    var quoted := "\"" + key + "\"";
    assert pair == quoted + [':'] + value;
    assert ':' !in quoted;
    FindAfterFree(quoted, ':', value);
    assert pair[..|quoted|] == quoted;
    assert pair[|quoted| + 1..] == value;
    TrimNoop(quoted);
    assert TrimStartChar(quoted, '"') == key + "\"" by {
      assert quoted[1..] == key + "\"";
      assert (key + "\"")[0] == key[0];
    }
    assert TrimEndChar(key + "\"", '"') == key by {
      assert (key + "\"")[..|key|] == key;
      assert key[|key| - 1] != '"';
    }
    TrimNoop(key);
  }

  /** `unquote`: the trimmed input, with one pair of enclosing quotes removed
    * and `\"` then `\\` unescaped when it is quoted. */
  function Unquote(s: string): string {
    var t := Trim(s);
    if |t| >= 2 && t[0] == '"' && t[|t| - 1] == '"' then
      Replace(Replace(t[1..|t| - 1], "\\\"", "\""), "\\\\", "\\")
    else t
  }

  /** A quoted text without backslashes unquotes to itself. */
  lemma {:induction false} UnquoteQuoted(x: string)
    requires '\\' !in x
    ensures Unquote("\"" + x + "\"") == x
  {
    var q := "\"" + x + "\"";
    TrimNoop(q);
    assert q[1..|q| - 1] == x;
    ReplaceAbsent(x, "\\\"", "\"");
    ReplaceAbsent(x, "\\\\", "\\");
  }

  /** Text that is not quoted is only trimmed. */
  lemma UnquoteUnquoted(s: string)
    requires Trim(s) == [] || Trim(s)[0] != '"'
    ensures Unquote(s) == Trim(s)
  {
  }

  /** `parse_json_bool`: `true` or `false`, with or without quotes. */
  function ParseJsonBool(s: string): Option<bool> {
    var t := TrimChar(Trim(s), '"');
    if t == "true" then Some(true)
    else if t == "false" then Some(false)
    else None
  }

  function BoolText(b: bool): string {
    if b then "true" else "false"
  }

  /** A boolean written bare or quoted parses back to itself. */
  lemma BoolRoundTrip(b: bool)
    ensures ParseJsonBool(BoolText(b)) == Some(b)
    ensures ParseJsonBool("\"" + BoolText(b) + "\"") == Some(b)
  {
    var t := BoolText(b);
    TrimNoop(t);
    var q := "\"" + t + "\"";
    TrimNoop(q);
    var tq := t + "\"";
    assert q[1..] == tq;
    assert tq[0] != '"';
    assert TrimStartChar(q, '"') == tq;
    assert tq[..|tq| - 1] == t;
    assert TrimEndChar(t, '"') == t;
    assert TrimEndChar(tq, '"') == t;
  }

  /** `parse_json_f64`: the number inside optional quotes. */
  function ParseJsonF64(s: string, numbers: NumberParsers): Option<real> {
    numbers.f64(TrimChar(Trim(s), '"'))
  }

  // ----- Keyword tables -----

  /** A keyword value: unquoted, then lower-cased. */
  function Keyword(value: string): string {
    ToLower(Unquote(value))
  }

  function FontWeightOf(word: string): Option<real> {
    match word
    case "thin" => Some(100.0)
    case "extralight" | "extra-light" => Some(200.0)
    case "light" => Some(300.0)
    case "normal" | "regular" => Some(400.0)
    case "medium" => Some(500.0)
    case "semibold" | "semi-bold" => Some(600.0)
    case "bold" => Some(700.0)
    case "extrabold" | "extra-bold" => Some(800.0)
    case "black" => Some(900.0)
    case _ => None
  }

  function FontStyleOf(word: string): Option<FontStyleValue> {
    match word
    case "italic" => Some(Italic)
    case "normal" => Some(Normal)
    case _ => None
  }

  function TextAlignOf(word: string): Option<TextAlignValue> {
    match word
    case "start" | "left" => Some(AlignStart)
    case "center" => Some(AlignCenter)
    case "end" | "right" => Some(AlignEnd)
    case "justify" => Some(Justify)
    case _ => None
  }

  function DirectionOf(word: string): Option<FlexDirection> {
    match word
    case "row" | "horizontal" => Some(Row)
    case "column" | "vertical" => Some(Column)
    case _ => None
  }

  function CrossAlignOf(word: string): Option<CrossAlign> {
    match word
    case "start" | "flex-start" => Some(CrossStart)
    case "center" => Some(CrossCenter)
    case "end" | "flex-end" => Some(CrossEnd)
    case "fill" | "stretch" => Some(Fill)
    case "baseline" => Some(Baseline)
    case _ => None
  }

  /** Main-axis justification as written: the word is compared after
    * lower-casing, yet three spellings in the table are camel case. */
  function MainAlignAsWritten(word: string): Option<MainAlign> {
    match word
    case "start" | "flex-start" => Some(MainStart)
    case "center" => Some(MainCenter)
    case "end" | "flex-end" => Some(MainEnd)
    case "space-between" | "spaceBetween" => Some(SpaceBetween)
    case "space-around" | "spaceAround" => Some(SpaceAround)
    case "space-evenly" | "spaceEvenly" => Some(SpaceEvenly)
    case _ => None
  }

  /** Main-axis justification with the camel-case spellings compared in their
    * lower-cased form, so that `spaceBetween` and its siblings are accepted. */
  function MainAlignOf(word: string): Option<MainAlign> {
    match word
    case "start" | "flex-start" => Some(MainStart)
    case "center" => Some(MainCenter)
    case "end" | "flex-end" => Some(MainEnd)
    case "space-between" | "spacebetween" => Some(SpaceBetween)
    case "space-around" | "spacearound" => Some(SpaceAround)
    case "space-evenly" | "spaceevenly" => Some(SpaceEvenly)
    case _ => None
  }

  lemma LowerCharNotUpper(c: char)
    ensures !('A' <= LowerChar(c) <= 'Z')
  {
  }

  /** A word without a capital at index 5 is none of the camel-case
    * spellings. */
  lemma NotCamelCase(w: string)
    requires |w| > 5 ==> !('A' <= w[5] <= 'Z')
    ensures w != "spaceBetween" && w != "spaceAround" && w != "spaceEvenly"
  {
  }

  /** Outside the camel-case spellings and their lower-cased forms, the two
    * tables agree. */
  lemma TablesAgreeOffCamelCase(w: string)
    requires w != "spaceBetween" && w != "spaceAround" && w != "spaceEvenly"
    ensures MainAlignAsWritten(w) == MainAlignOf(w) || w in {"spacebetween", "spacearound", "spaceevenly"}
  {
  }

  /** A lower-cased keyword never equals a camel-case spelling, so those arms
    * of the as-written table are dead. */
  lemma CamelCaseArmsUnreachable(value: string)
    ensures MainAlignAsWritten(Keyword(value)) == MainAlignOf(Keyword(value))
            || Keyword(value) in {"spacebetween", "spacearound", "spaceevenly"}
    ensures Keyword(value) != "spaceBetween" && Keyword(value) != "spaceAround"
            && Keyword(value) != "spaceEvenly"
  {
    var w := Keyword(value);
    if |w| > 5 {
      LowerCharNotUpper(Unquote(value)[5]);
    }
    NotCamelCase(w);
    TablesAgreeOffCamelCase(w);
  }

  /** A value that trims to `"spaceBetween"` unquotes to its inner text. */
  lemma UnquoteSpaceBetween(value: string)
    requires Trim(value) == "\"spaceBetween\""
    ensures Unquote(value) == "spaceBetween"
  {
    var x: string := "spaceBetween";
    assert Trim(value)[1..|Trim(value)| - 1] == x;
    assert '\\' !in x;
    ReplaceAbsent(x, "\\\"", "\"");
    ReplaceAbsent(x, "\\\\", "\\");
  }

  lemma LowerSpaceBetween()
    ensures ToLower("spaceBetween") == "spacebetween"
  {
    var x: string := "spaceBetween";
    assert forall i :: 0 <= i < |x| ==> LowerChar(x[i]) == "spacebetween"[i];
  }

  lemma SpaceBetweenTables()
    ensures MainAlignAsWritten("spacebetween") == None
    ensures MainAlignOf("spacebetween") == Some(SpaceBetween)
  {
  }

  /** A value that reads `"spaceBetween"` once trimmed is rejected by the
    * table as written and accepted by the corrected one. */
  lemma SpaceBetweenCamelCase(value: string)
    requires Trim(value) == "\"spaceBetween\""
    ensures Keyword(value) == "spacebetween"
    ensures MainAlignAsWritten(Keyword(value)) == None
    ensures MainAlignOf(Keyword(value)) == Some(SpaceBetween)
  {
    UnquoteSpaceBetween(value);
    LowerSpaceBetween();
    SpaceBetweenTables();
  }

  /** The main-axis setter with the corrected table. It agrees with the
    * table as written wherever that table recognises the keyword, and it
    * also recognises the camel-case spellings once lower-cased. */
  function SetMainAxisIntended(style: BoxStyle, value: string): (r: BoxStyle)
    ensures SameExcept(style, r, MainAxisField)
    ensures MainAlignAsWritten(Keyword(value)).Some? ==> r.mainAxisAlignment == MainAlignAsWritten(Keyword(value))
  {
    CamelCaseArmsUnreachable(value);
    style.(mainAxisAlignment := MainAlignOf(Keyword(value)))
  }

  /** The value `"spaceBetween"` clears the justification as written and
    * sets it to `SpaceBetween` with the corrected table. */
  lemma SpaceBetweenCorrected(style: BoxStyle, value: string)
    requires Trim(value) == "\"spaceBetween\""
    ensures SetMainAxisIntended(style, value).mainAxisAlignment == Some(SpaceBetween)
    ensures MainAlignAsWritten(Keyword(value)) == None
  {
    SpaceBetweenCamelCase(value);
  }

  /** The canonical lower-case spelling of each keyword value. */
  function FontStyleName(v: FontStyleValue): string {
    match v
    case Normal => "normal"
    case Italic => "italic"
  }

  function TextAlignName(v: TextAlignValue): string {
    match v
    case AlignStart => "start"
    case AlignCenter => "center"
    case AlignEnd => "end"
    case Justify => "justify"
  }

  function DirectionName(v: FlexDirection): string {
    match v
    case Row => "row"
    case Column => "column"
  }

  function CrossAlignName(v: CrossAlign): string {
    match v
    case CrossStart => "start"
    case CrossCenter => "center"
    case CrossEnd => "end"
    case Fill => "fill"
    case Baseline => "baseline"
  }

  function MainAlignName(v: MainAlign): string {
    match v
    case MainStart => "start"
    case MainCenter => "center"
    case MainEnd => "end"
    case SpaceBetween => "space-between"
    case SpaceAround => "space-around"
    case SpaceEvenly => "space-evenly"
  }

  /** Every keyword value is reached by its canonical spelling. */
  lemma KeywordTablesCover()
    ensures forall v :: FontStyleOf(FontStyleName(v)) == Some(v)
    ensures forall v :: TextAlignOf(TextAlignName(v)) == Some(v)
    ensures forall v :: DirectionOf(DirectionName(v)) == Some(v)
    ensures forall v :: CrossAlignOf(CrossAlignName(v)) == Some(v)
    ensures forall v :: MainAlignAsWritten(MainAlignName(v)) == Some(v)
    ensures forall v :: MainAlignOf(MainAlignName(v)) == Some(v)
  {
  }

  /** A canonical keyword written in quotes reads back as that keyword. */
  lemma {:induction false} QuotedKeyword(name: string)
    requires '\\' !in name && ToLower(name) == name
    ensures Keyword("\"" + name + "\"") == name
  {
    UnquoteQuoted(name);
  }

  // ----- Applying one property -----

  /** The recognised keys and the property each one sets. */
  function FieldOfKey(key: string): Option<StyleField> {
    match key
    case "fontSize" | "font_size" => Some(FontSizeField)
    case "fontWeight" | "font_weight" => Some(FontWeightField)
    case "fontStyle" | "font_style" => Some(FontStyleField)
    case "fontFamily" | "font_family" => Some(FontFamilyField)
    case "color" => Some(ColorField)
    case "letterSpacing" | "letter_spacing" => Some(LetterSpacingField)
    case "lineHeight" | "line_height" => Some(LineHeightField)
    case "wordSpacing" | "word_spacing" => Some(WordSpacingField)
    case "underline" => Some(UnderlineField)
    case "strikethrough" => Some(StrikethroughField)
    case "textAlign" | "text_align" => Some(TextAlignField)
    case "background" | "backgroundColor" | "background_color" | "bg" => Some(BackgroundField)
    case "borderColor" | "border_color" => Some(BorderColorField)
    case "borderWidth" | "border_width" => Some(BorderWidthField)
    case "cornerRadius" | "corner_radius" | "borderRadius" | "border_radius" => Some(CornerRadiusField)
    case "padding" => Some(PaddingField)
    case "width" => Some(WidthField)
    case "height" => Some(HeightField)
    case "flex" | "flexGrow" | "flex_grow" => Some(FlexField)
    case "direction" | "flexDirection" | "flex_direction" => Some(DirectionField)
    case "crossAxisAlignment" | "cross_axis_alignment" | "alignItems" | "align_items" => Some(CrossAxisField)
    case "mainAxisAlignment" | "main_axis_alignment" | "justifyContent" | "justify_content" => Some(MainAxisField)
    case "gap" => Some(GapField)
    case "mustFillMainAxis" | "must_fill_main_axis" => Some(MustFillField)
    case _ => None
  }

  /** No key sets the hover border colour: it is only reachable through a
    * style record built elsewhere. */
  lemma NoKeyForHoverBorder(key: string)
    ensures FieldOfKey(key) != Some(HoverBorderColorField)
  {
  }

  /** A numeric value: the text inside optional quotes. */
  function NumberText(value: string): string {
    TrimChar(value, '"')
  }

  /** The numbers among comma-separated pieces, in order; the rest dropped. */
  function NumbersOf(pieces: seq<string>, numbers: NumberParsers): (r: seq<real>)
    ensures |r| <= |pieces|
  {
    if pieces == [] then []
    else match numbers.f64(Trim(pieces[0]))
      case Some(v) => [v] + NumbersOf(pieces[1..], numbers)
      case None => NumbersOf(pieces[1..], numbers)
  }

  /** Padding from a list of numbers: one for all sides, two as vertical then
    * horizontal, four clockwise from the top; any other count is no padding. */
  function PaddingFromParts(parts: seq<real>): (r: Option<PaddingValue>)
    ensures r.Some? <==> |parts| in {1, 2, 4}
  {
    if |parts| == 1 then Some(Uniform(parts[0]))
    else if |parts| == 2 then Some(Sides(parts[0], parts[1], parts[0], parts[1]))
    else if |parts| == 4 then Some(Sides(parts[0], parts[1], parts[2], parts[3]))
    else None
  }

  /** The two-number form is the four-number form with each pair of opposite
    * sides repeated, and one number is all four sides. */
  lemma PaddingShorthands(a: real, b: real)
    ensures PaddingFromParts([a, b]) == PaddingFromParts([a, b, a, b])
    ensures PaddingFromParts([a]) == Some(Uniform(a))
  {
  }

  /** The new padding: a single number, else a comma list of 1, 2 or 4
    * numbers; otherwise the padding is left as it was. */
  function PaddingUpdate(current: Option<PaddingValue>, value: string, numbers: NumberParsers): (r: Option<PaddingValue>)
    ensures numbers.f64(NumberText(value)).Some? ==> r == Some(Uniform(numbers.f64(NumberText(value)).value))
    ensures numbers.f64(NumberText(value)).None? && ',' !in Unquote(value) ==> r == current
  {
    match numbers.f64(NumberText(value))
    case Some(v) => Some(Uniform(v))
    case None =>
      var inner := Unquote(value);
      if ',' in inner then
        PaddingFromParts(NumbersOf(SplitChar(inner, ','), numbers)).OrElse(current)
      else current
  }

  /** The record with property `f` set from the (trimmed) value text. */
  function SetField(style: BoxStyle, f: StyleField, value: string, numbers: NumberParsers): BoxStyle {
    match f
    case FontSizeField => style.(fontSize := numbers.f32(NumberText(value)))
    case FontWeightField =>
      style.(fontWeight := numbers.f32(NumberText(value)).OrElse(FontWeightOf(Keyword(value))))
    case FontStyleField => style.(fontStyle := FontStyleOf(Keyword(value)))
    case FontFamilyField => style.(fontFamily := Some(Unquote(value)))
    case ColorField => style.(color := Colors.Parse(Unquote(value), numbers))
    case LetterSpacingField => style.(letterSpacing := numbers.f32(NumberText(value)))
    case LineHeightField => style.(lineHeight := numbers.f32(NumberText(value)))
    case WordSpacingField => style.(wordSpacing := numbers.f32(NumberText(value)))
    case UnderlineField => style.(underline := ParseJsonBool(value))
    case StrikethroughField => style.(strikethrough := ParseJsonBool(value))
    case TextAlignField => style.(textAlign := TextAlignOf(Keyword(value)))
    case BackgroundField => style.(background := Colors.Parse(Unquote(value), numbers))
    case BorderColorField => style.(borderColor := Colors.Parse(Unquote(value), numbers))
    case HoverBorderColorField => style
    case BorderWidthField => style.(borderWidth := numbers.f64(NumberText(value)))
    case CornerRadiusField => style.(cornerRadius := numbers.f64(NumberText(value)))
    case PaddingField => style.(padding := PaddingUpdate(style.padding, value, numbers))
    case WidthField => style.(width := numbers.f64(NumberText(value)))
    case HeightField => style.(height := numbers.f64(NumberText(value)))
    case FlexField => style.(flex := numbers.f64(NumberText(value)))
    case DirectionField => style.(direction := DirectionOf(Keyword(value)))
    case CrossAxisField => style.(crossAxisAlignment := CrossAlignOf(Keyword(value)))
    case MainAxisField => style.(mainAxisAlignment := MainAlignAsWritten(Keyword(value)))
    case GapField => style.(gap := numbers.f64(NumberText(value)))
    case MustFillField => style.(mustFillMainAxis := ParseJsonBool(value))
  }

  /** Setting one property leaves every other property as it was. */
  lemma SetFieldSameExcept(style: BoxStyle, f: StyleField, value: string, numbers: NumberParsers)
    ensures SameExcept(style, SetField(style, f, value, numbers), f)
  {
    match f
    case FontSizeField =>
    case FontWeightField =>
    case FontStyleField =>
    case FontFamilyField =>
    case ColorField =>
    case LetterSpacingField =>
    case LineHeightField =>
    case WordSpacingField =>
    case UnderlineField =>
    case StrikethroughField =>
    case TextAlignField =>
    case BackgroundField =>
    case BorderColorField =>
    case HoverBorderColorField =>
    case BorderWidthField =>
    case CornerRadiusField =>
    case PaddingField =>
    case WidthField =>
    case HeightField =>
    case FlexField =>
    case DirectionField =>
    case CrossAxisField =>
    case MainAxisField =>
    case GapField =>
    case MustFillField =>
  }

  /** `apply_style_property`: the style with the key's property set, and
    * whether the key was recognised. */
  function ApplyStyleProperty(style: BoxStyle, key: string, value: string, numbers: NumberParsers)
    : (r: (BoxStyle, bool))
    ensures r.1 <==> FieldOfKey(key).Some?
    ensures r.1 ==> SameExcept(style, r.0, FieldOfKey(key).value)
    ensures !r.1 ==> r.0 == style
  {
    match FieldOfKey(key)
    case None => (style, false)
    case Some(f) =>
      SetFieldSameExcept(style, f, Trim(value), numbers);
      (SetField(style, f, Trim(value), numbers), true)
  }

  /** The value each key stores, read from the value text whatever the
    * whitespace around it: colours through the colour parser after
    * unquoting, flags through the JSON boolean reader, keywords through
    * their tables after unquoting and lower-casing, numbers from the text
    * inside optional quotes, the font family as the unquoted text. */
  lemma ApplyStyleValue(style: BoxStyle, key: string, value: string, numbers: NumberParsers)
    ensures FieldOfKey(key) == Some(ColorField) ==>
              ApplyStyleProperty(style, key, value, numbers).0.color == Colors.Parse(Unquote(value), numbers)
    ensures FieldOfKey(key) == Some(BackgroundField) ==>
              ApplyStyleProperty(style, key, value, numbers).0.background == Colors.Parse(Unquote(value), numbers)
    ensures FieldOfKey(key) == Some(BorderColorField) ==>
              ApplyStyleProperty(style, key, value, numbers).0.borderColor == Colors.Parse(Unquote(value), numbers)
    ensures FieldOfKey(key) == Some(UnderlineField) ==>
              ApplyStyleProperty(style, key, value, numbers).0.underline == ParseJsonBool(value)
    ensures FieldOfKey(key) == Some(StrikethroughField) ==>
              ApplyStyleProperty(style, key, value, numbers).0.strikethrough == ParseJsonBool(value)
    ensures FieldOfKey(key) == Some(MustFillField) ==>
              ApplyStyleProperty(style, key, value, numbers).0.mustFillMainAxis == ParseJsonBool(value)
    ensures FieldOfKey(key) == Some(FontStyleField) ==>
              ApplyStyleProperty(style, key, value, numbers).0.fontStyle == FontStyleOf(Keyword(value))
    ensures FieldOfKey(key) == Some(TextAlignField) ==>
              ApplyStyleProperty(style, key, value, numbers).0.textAlign == TextAlignOf(Keyword(value))
    ensures FieldOfKey(key) == Some(DirectionField) ==>
              ApplyStyleProperty(style, key, value, numbers).0.direction == DirectionOf(Keyword(value))
    ensures FieldOfKey(key) == Some(CrossAxisField) ==>
              ApplyStyleProperty(style, key, value, numbers).0.crossAxisAlignment == CrossAlignOf(Keyword(value))
    ensures FieldOfKey(key) == Some(MainAxisField) ==>
              ApplyStyleProperty(style, key, value, numbers).0.mainAxisAlignment == MainAlignAsWritten(Keyword(value))
    ensures FieldOfKey(key) == Some(FontFamilyField) ==>
              ApplyStyleProperty(style, key, value, numbers).0.fontFamily == Some(Unquote(value))
    ensures FieldOfKey(key) == Some(FontWeightField) ==>
              ApplyStyleProperty(style, key, value, numbers).0.fontWeight
              == numbers.f32(NumberText(Trim(value))).OrElse(FontWeightOf(Keyword(value)))
    ensures FieldOfKey(key) == Some(FontSizeField) ==>
              ApplyStyleProperty(style, key, value, numbers).0.fontSize == numbers.f32(NumberText(Trim(value)))
    ensures FieldOfKey(key) == Some(WidthField) ==>
              ApplyStyleProperty(style, key, value, numbers).0.width == numbers.f64(NumberText(Trim(value)))
    ensures FieldOfKey(key) == Some(HeightField) ==>
              ApplyStyleProperty(style, key, value, numbers).0.height == numbers.f64(NumberText(Trim(value)))
    ensures FieldOfKey(key) == Some(LetterSpacingField) ==>
              ApplyStyleProperty(style, key, value, numbers).0.letterSpacing == numbers.f32(NumberText(Trim(value)))
    ensures FieldOfKey(key) == Some(LineHeightField) ==>
              ApplyStyleProperty(style, key, value, numbers).0.lineHeight == numbers.f32(NumberText(Trim(value)))
    ensures FieldOfKey(key) == Some(WordSpacingField) ==>
              ApplyStyleProperty(style, key, value, numbers).0.wordSpacing == numbers.f32(NumberText(Trim(value)))
    ensures FieldOfKey(key) == Some(BorderWidthField) ==>
              ApplyStyleProperty(style, key, value, numbers).0.borderWidth == numbers.f64(NumberText(Trim(value)))
    ensures FieldOfKey(key) == Some(CornerRadiusField) ==>
              ApplyStyleProperty(style, key, value, numbers).0.cornerRadius == numbers.f64(NumberText(Trim(value)))
    ensures FieldOfKey(key) == Some(FlexField) ==>
              ApplyStyleProperty(style, key, value, numbers).0.flex == numbers.f64(NumberText(Trim(value)))
    ensures FieldOfKey(key) == Some(GapField) ==>
              ApplyStyleProperty(style, key, value, numbers).0.gap == numbers.f64(NumberText(Trim(value)))
    ensures FieldOfKey(key) == Some(PaddingField) ==>
              ApplyStyleProperty(style, key, value, numbers).0.padding == PaddingUpdate(style.padding, Trim(value), numbers)
  {
    match FieldOfKey(key)
    case None =>
    case Some(f) =>
      SetFieldWordValues(style, f, value, numbers);
      SetFieldNumberValues(style, f, value, numbers);
  }

  /** Unquoting, keywords and booleans read a value and its trimmed form
    * alike. */
  lemma TrimmedValueReads(value: string)
    ensures Unquote(Trim(value)) == Unquote(value)
    ensures Keyword(Trim(value)) == Keyword(value)
    ensures ParseJsonBool(Trim(value)) == ParseJsonBool(value)
  {
    TrimIdempotent(value);
  }

  /** `SetField` on the trimmed value text: the properties read as words,
    * flags or colours. */
  lemma SetFieldWordValues(style: BoxStyle, f: StyleField, value: string, numbers: NumberParsers)
    ensures f == ColorField ==>
              SetField(style, f, Trim(value), numbers).color == Colors.Parse(Unquote(value), numbers)
    ensures f == BackgroundField ==>
              SetField(style, f, Trim(value), numbers).background == Colors.Parse(Unquote(value), numbers)
    ensures f == BorderColorField ==>
              SetField(style, f, Trim(value), numbers).borderColor == Colors.Parse(Unquote(value), numbers)
    ensures f == UnderlineField ==>
              SetField(style, f, Trim(value), numbers).underline == ParseJsonBool(value)
    ensures f == StrikethroughField ==>
              SetField(style, f, Trim(value), numbers).strikethrough == ParseJsonBool(value)
    ensures f == MustFillField ==>
              SetField(style, f, Trim(value), numbers).mustFillMainAxis == ParseJsonBool(value)
    ensures f == FontStyleField ==>
              SetField(style, f, Trim(value), numbers).fontStyle == FontStyleOf(Keyword(value))
    ensures f == TextAlignField ==>
              SetField(style, f, Trim(value), numbers).textAlign == TextAlignOf(Keyword(value))
    ensures f == DirectionField ==>
              SetField(style, f, Trim(value), numbers).direction == DirectionOf(Keyword(value))
    ensures f == CrossAxisField ==>
              SetField(style, f, Trim(value), numbers).crossAxisAlignment == CrossAlignOf(Keyword(value))
    ensures f == MainAxisField ==>
              SetField(style, f, Trim(value), numbers).mainAxisAlignment == MainAlignAsWritten(Keyword(value))
    ensures f == FontFamilyField ==>
              SetField(style, f, Trim(value), numbers).fontFamily == Some(Unquote(value))
    ensures f == FontWeightField ==>
              SetField(style, f, Trim(value), numbers).fontWeight
              == numbers.f32(NumberText(Trim(value))).OrElse(FontWeightOf(Keyword(value)))
    ensures f == PaddingField ==>
              SetField(style, f, Trim(value), numbers).padding == PaddingUpdate(style.padding, Trim(value), numbers)
  {
    TrimmedValueReads(value);
    match f
    case ColorField =>
    case BackgroundField =>
    case BorderColorField =>
    case UnderlineField =>
    case StrikethroughField =>
    case MustFillField =>
    case FontStyleField =>
    case TextAlignField =>
    case DirectionField =>
    case CrossAxisField =>
    case MainAxisField =>
    case FontFamilyField =>
    case FontWeightField =>
    case _ =>
  }

  /** `SetField` on the trimmed value text: the numeric properties and the
    * padding. */
  lemma SetFieldNumberValues(style: BoxStyle, f: StyleField, value: string, numbers: NumberParsers)
    ensures f == FontSizeField ==>
              SetField(style, f, Trim(value), numbers).fontSize == numbers.f32(NumberText(Trim(value)))
    ensures f == WidthField ==>
              SetField(style, f, Trim(value), numbers).width == numbers.f64(NumberText(Trim(value)))
    ensures f == HeightField ==>
              SetField(style, f, Trim(value), numbers).height == numbers.f64(NumberText(Trim(value)))
    ensures f == LetterSpacingField ==>
              SetField(style, f, Trim(value), numbers).letterSpacing == numbers.f32(NumberText(Trim(value)))
    ensures f == LineHeightField ==>
              SetField(style, f, Trim(value), numbers).lineHeight == numbers.f32(NumberText(Trim(value)))
    ensures f == WordSpacingField ==>
              SetField(style, f, Trim(value), numbers).wordSpacing == numbers.f32(NumberText(Trim(value)))
    ensures f == BorderWidthField ==>
              SetField(style, f, Trim(value), numbers).borderWidth == numbers.f64(NumberText(Trim(value)))
    ensures f == CornerRadiusField ==>
              SetField(style, f, Trim(value), numbers).cornerRadius == numbers.f64(NumberText(Trim(value)))
    ensures f == FlexField ==>
              SetField(style, f, Trim(value), numbers).flex == numbers.f64(NumberText(Trim(value)))
    ensures f == GapField ==>
              SetField(style, f, Trim(value), numbers).gap == numbers.f64(NumberText(Trim(value)))
  {
  }

  /** `justifyContent: "spaceBetween"` is recognised yet clears the
    * justification, overwriting any earlier value. */
  lemma JustifySpaceBetweenCleared(style: BoxStyle, value: string, numbers: NumberParsers)
    requires Trim(value) == "\"spaceBetween\""
    ensures ApplyStyleProperty(style, "justifyContent", value, numbers) == (style.(mainAxisAlignment := None), true)
  {
    assert FieldOfKey("justifyContent") == Some(MainAxisField);
    TrimIdempotent(value);
    SpaceBetweenCamelCase(Trim(value));
  }

  /** Applying a key twice with the same value is applying it once. */
  lemma {:induction false} ApplyIdempotent(style: BoxStyle, key: string, value: string, numbers: NumberParsers)
    ensures var once := ApplyStyleProperty(style, key, value, numbers).0;
            ApplyStyleProperty(once, key, value, numbers).0 == once
  {
    match FieldOfKey(key)
    case None =>
    case Some(f) =>
      var v := Trim(value);
      if f == PaddingField {
        var once := SetField(style, f, v, numbers);
        assert once.padding == PaddingUpdate(style.padding, v, numbers);
        PaddingUpdateIdempotent(style.padding, v, numbers);
      }
  }

  lemma PaddingUpdateIdempotent(current: Option<PaddingValue>, value: string, numbers: NumberParsers)
    ensures PaddingUpdate(PaddingUpdate(current, value, numbers), value, numbers)
            == PaddingUpdate(current, value, numbers)
  {
  }

  // ----- Whole objects -----

  /** The inside of an object: trimmed, braces stripped at both ends, trimmed. */
  function InnerObject(json: string): string {
    Trim(TrimEndChar(TrimStartChar(Trim(json), '{'), '}'))
  }

  /** A pair that applies a recognised key. */
  predicate RecognisedPair(pair: string) {
    var t := Trim(pair);
    t != [] && ParseJsonKv(t).Some? && FieldOfKey(ParseJsonKv(t).value.0).Some?
  }

  /** The pairs applied in order to a style, and whether any was recognised. */
  function ApplyPairs(pairs: seq<string>, style: BoxStyle, any: bool, numbers: NumberParsers): (BoxStyle, bool)
    decreases |pairs|
  {
    if pairs == [] then (style, any)
    else
      var t := Trim(pairs[0]);
      if t == [] then ApplyPairs(pairs[1..], style, any, numbers)
      else match ParseJsonKv(t)
        case None => ApplyPairs(pairs[1..], style, any, numbers)
        case Some((key, value)) =>
          var (next, ok) := ApplyStyleProperty(style, key, value, numbers);
          ApplyPairs(pairs[1..], next, any || ok, numbers)
  }

  /** What `parse_style_json` returns. */
  function StyleFromJson(json: string, numbers: NumberParsers): Option<BoxStyle> {
    var t := Trim(json);
    if t == [] || t == "{}" || t == "null" then None
    else
      var inner := InnerObject(json);
      if inner == [] then None
      else
        var (style, any) := ApplyPairs(JsonPairs(inner), DefaultStyle, false, numbers);
        if any then Some(style) else None
  }

  /** `parse_style_json`. */
  method ParseStyleJson(json: string, numbers: NumberParsers) returns (r: Option<BoxStyle>)
    ensures r == StyleFromJson(json, numbers)
  {
    var t := Trim(json);
    if t == [] || t == "{}" || t == "null" {
      return None;
    }
    var style := DefaultStyle;
    var inner := InnerObject(json);
    if inner == [] {
      return None;
    }
    var any := false;
    var pairs := SplitJsonPairs(inner);
    var i := 0;
    while i < |pairs|
      invariant 0 <= i <= |pairs|
      invariant ApplyPairs(pairs[i..], style, any, numbers) == ApplyPairs(pairs, DefaultStyle, false, numbers)
    {
      assert pairs[i..][1..] == pairs[i + 1..];
      var pair := Trim(pairs[i]);
      if pair != [] {
        match ParseJsonKv(pair)
        case Some((key, value)) =>
          var applied := ApplyStyleProperty(style, key, value, numbers);
          style := applied.0;
          if applied.1 {
            any := true;
          }
        case None =>
      }
      i := i + 1;
    }
    if any {
      r := Some(style);
    } else {
      r := None;
    }
  }

  lemma {:induction false} ApplyPairsAny(pairs: seq<string>, style: BoxStyle, any: bool, numbers: NumberParsers)
    ensures ApplyPairs(pairs, style, any, numbers).1
            <==> any || exists k :: 0 <= k < |pairs| && RecognisedPair(pairs[k])
    decreases |pairs|
  {
    if pairs != [] {
      var t := Trim(pairs[0]);
      var rest := pairs[1..];
      assert forall k :: 0 <= k < |rest| ==> rest[k] == pairs[k + 1];
      if t == [] || ParseJsonKv(t).None? {
        ApplyPairsAny(rest, style, any, numbers);
        assert !RecognisedPair(pairs[0]);
        if exists k :: 0 <= k < |pairs| && RecognisedPair(pairs[k]) {
          var k :| 0 <= k < |pairs| && RecognisedPair(pairs[k]);
          assert RecognisedPair(rest[k - 1]);
        }
      } else {
        var (key, value) := ParseJsonKv(t).value;
        var (next, ok) := ApplyStyleProperty(style, key, value, numbers);
        ApplyPairsAny(rest, next, any || ok, numbers);
        assert ok <==> RecognisedPair(pairs[0]);
        if exists k :: 0 <= k < |pairs| && RecognisedPair(pairs[k]) {
          var k :| 0 <= k < |pairs| && RecognisedPair(pairs[k]);
          if k > 0 {
            assert RecognisedPair(rest[k - 1]);
          }
        }
      }
    }
  }

  /** A style is produced exactly when the input is not one of the empty forms
    * and at least one of its pairs names a recognised key. */
  lemma {:induction false} StyleFromJsonSomeIff(json: string, numbers: NumberParsers)
    ensures StyleFromJson(json, numbers).Some?
            <==> Trim(json) != [] && Trim(json) != "{}" && Trim(json) != "null"
                 && exists k :: 0 <= k < |JsonPairs(InnerObject(json))| && RecognisedPair(JsonPairs(InnerObject(json))[k])
  {
    var t := Trim(json);
    if t != [] && t != "{}" && t != "null" {
      var inner := InnerObject(json);
      if inner == [] {
        PiecesEmpty(inner, 0, 0);
      } else {
        ApplyPairsAny(JsonPairs(inner), DefaultStyle, false, numbers);
      }
    }
  }

  /** The value of a pair under the wanted key, if it has that key. */
  function PairValue(pair: string, target: string): Option<string> {
    var t := Trim(pair);
    if t == [] then None
    else match ParseJsonKv(t)
      case Some((key, value)) => if key == target then Some(value) else None
      case None => None
  }

  /** `extract_json_value`: the raw value of the first pair whose key is the
    * wanted one. */
  method ExtractJsonValue(json: string, target: string) returns (r: Option<string>)
    ensures var pairs := JsonPairs(InnerObject(json));
            r.Some? ==> exists k :: 0 <= k < |pairs| && PairValue(pairs[k], target) == r
                                    && forall j :: 0 <= j < k ==> PairValue(pairs[j], target).None?
    ensures var pairs := JsonPairs(InnerObject(json));
            r.None? ==> forall k :: 0 <= k < |pairs| ==> PairValue(pairs[k], target).None?
  {
    var inner := InnerObject(json);
    if inner == [] {
      PiecesEmpty(inner, 0, 0);
      return None;
    }
    var pairs := SplitJsonPairs(inner);
    var i := 0;
    while i < |pairs|
      invariant 0 <= i <= |pairs|
      invariant forall j :: 0 <= j < i ==> PairValue(pairs[j], target).None?
    {
      var pair := Trim(pairs[i]);
      if pair != [] {
        match ParseJsonKv(pair)
        case Some((key, value)) =>
          if key == target {
            assert PairValue(pairs[i], target) == Some(value);
            return Some(value);
          }
        case None =>
      }
      i := i + 1;
    }
    return None;
  }
}
