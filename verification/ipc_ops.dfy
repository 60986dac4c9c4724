/** The script-side operations of the embedded-engine revision: a widget style
  * record read from flat JSON, the commands each operation sends, and the
  * JSON text of the events handed back to the script. */
module IpcOps {
  import opened Common
  import Kinds
  import opened Events
  import opened StyleTypes
  import StyleParser
  import JsBridge

  // ----- Widget style -----

  /** The style record of this revision: the box style plus the widget
    * properties (range, step, checked state, progress, placeholder). */
  datatype WidgetStyle = WidgetStyle(
    base: BoxStyle,
    minValue: Option<real>,
    maxValue: Option<real>,
    step: Option<real>,
    checked: Option<bool>,
    progress: Option<real>,
    placeholder: Option<string>)

  const DefaultWidgetStyle := WidgetStyle(DefaultStyle, None, None, None, None, None, None)

  /** The property a key sets. */
  datatype WidgetField =
    | BoxField(field: StyleField)
    | MinValueField
    | MaxValueField
    | StepField
    | CheckedField
    | ProgressField
    | PlaceholderField

  /** The keys of this revision: every key of the box style, under the same
    * aliases, plus the widget keys. */
  function WidgetFieldOfKey(key: string): (r: Option<WidgetField>)
    ensures StyleParser.FieldOfKey(key).Some? ==> r == Some(BoxField(StyleParser.FieldOfKey(key).value))
    ensures r.Some? && r.value.BoxField? ==> StyleParser.FieldOfKey(key) == Some(r.value.field)
  {
    match StyleParser.FieldOfKey(key)
    case Some(f) => Some(BoxField(f))
    case None =>
      match key
      case "minValue" | "min_value" | "min" => Some(MinValueField)
      case "maxValue" | "max_value" | "max" => Some(MaxValueField)
      case "step" => Some(StepField)
      case "checked" => Some(CheckedField)
      case "progress" | "value" => Some(ProgressField)
      case "placeholder" => Some(PlaceholderField)
      case _ => None
  }

  function SetWidgetField(style: WidgetStyle, f: WidgetField, value: string, numbers: NumberParsers): WidgetStyle {
    match f
    case BoxField(g) => style.(base := StyleParser.SetField(style.base, g, value, numbers))
    case MinValueField => style.(minValue := numbers.f64(StyleParser.NumberText(value)))
    case MaxValueField => style.(maxValue := numbers.f64(StyleParser.NumberText(value)))
    case StepField => style.(step := numbers.f64(StyleParser.NumberText(value)))
    case CheckedField => style.(checked := StyleParser.ParseJsonBool(value))
    case ProgressField => style.(progress := numbers.f64(StyleParser.NumberText(value)))
    case PlaceholderField => style.(placeholder := Some(StyleParser.Unquote(value)))
  }

  /** `apply_style_property` of this revision. A box key sets the box style
    * exactly as the later style parser does and leaves the widget properties
    * alone; an unknown key (only reported on the console) changes nothing. */
  function ApplyWidgetStyleProperty(style: WidgetStyle, key: string, value: string, numbers: NumberParsers)
    : (r: WidgetStyle)
    ensures WidgetFieldOfKey(key).None? ==> r == style
    ensures StyleParser.FieldOfKey(key).Some? ==>
              r == style.(base := StyleParser.ApplyStyleProperty(style.base, key, value, numbers).0)
    ensures StyleParser.FieldOfKey(key).None? ==> r.base == style.base
  {
    match WidgetFieldOfKey(key)
    case None => style
    case Some(f) => SetWidgetField(style, f, Trim(value), numbers)
  }

  /** The widget keys: each sets its own property from the trimmed value and
    * leaves the rest of the record as it was. Numbers come from the text
    * inside optional quotes, the checked state through the JSON boolean
    * reader, the placeholder as the unquoted text. */
  lemma WidgetKeyValues(style: WidgetStyle, key: string, value: string, numbers: NumberParsers)
    ensures WidgetFieldOfKey(key) == Some(MinValueField) ==>
              ApplyWidgetStyleProperty(style, key, value, numbers)
              == style.(minValue := numbers.f64(StyleParser.NumberText(Trim(value))))
    ensures WidgetFieldOfKey(key) == Some(MaxValueField) ==>
              ApplyWidgetStyleProperty(style, key, value, numbers)
              == style.(maxValue := numbers.f64(StyleParser.NumberText(Trim(value))))
    ensures WidgetFieldOfKey(key) == Some(StepField) ==>
              ApplyWidgetStyleProperty(style, key, value, numbers)
              == style.(step := numbers.f64(StyleParser.NumberText(Trim(value))))
    ensures WidgetFieldOfKey(key) == Some(ProgressField) ==>
              ApplyWidgetStyleProperty(style, key, value, numbers)
              == style.(progress := numbers.f64(StyleParser.NumberText(Trim(value))))
    ensures WidgetFieldOfKey(key) == Some(CheckedField) ==>
              ApplyWidgetStyleProperty(style, key, value, numbers)
              == style.(checked := StyleParser.ParseJsonBool(value))
    ensures WidgetFieldOfKey(key) == Some(PlaceholderField) ==>
              ApplyWidgetStyleProperty(style, key, value, numbers)
              == style.(placeholder := Some(StyleParser.Unquote(value)))
  {
    TrimIdempotent(value);
    assert StyleParser.ParseJsonBool(Trim(value)) == StyleParser.ParseJsonBool(value);
    assert StyleParser.Unquote(Trim(value)) == StyleParser.Unquote(value);
  }

  /** The same main-axis table as the later parser, so `justifyContent:
    * "spaceBetween"` clears the justification here too. */
  lemma WidgetJustifySpaceBetweenCleared(style: WidgetStyle, value: string, numbers: NumberParsers)
    requires Trim(value) == "\"spaceBetween\""
    ensures ApplyWidgetStyleProperty(style, "justifyContent", value, numbers)
            == style.(base := style.base.(mainAxisAlignment := None))
  {
    assert StyleParser.FieldOfKey("justifyContent") == Some(MainAxisField);
    StyleParser.JustifySpaceBetweenCleared(style.base, value, numbers);
  }

  /** A pair that `parse_json_kv` splits: it has a colon. */
  predicate KvPair(pair: string) {
    ':' in Trim(pair)
  }

  function ApplyWidgetPairs(pairs: seq<string>, style: WidgetStyle, any: bool, numbers: NumberParsers)
    : (WidgetStyle, bool)
    decreases |pairs|
  {
    if pairs == [] then (style, any)
    else
      var t := Trim(pairs[0]);
      if t == [] then ApplyWidgetPairs(pairs[1..], style, any, numbers)
      else match StyleParser.ParseJsonKv(t)
        case None => ApplyWidgetPairs(pairs[1..], style, any, numbers)
        case Some((key, value)) =>
          ApplyWidgetPairs(pairs[1..], ApplyWidgetStyleProperty(style, key, value, numbers), true, numbers)
  }

  /** What `parse_style_json` of this revision returns. */
  function WidgetStyleFromJson(json: string, numbers: NumberParsers): Option<WidgetStyle> {
    var t := Trim(json);
    if t == [] || t == "{}" || t == "null" then None
    else
      var inner := StyleParser.InnerObject(json);
      if inner == [] then None
      else
        var (style, any) := ApplyWidgetPairs(StyleParser.JsonPairs(inner), DefaultWidgetStyle, false, numbers);
        if any then Some(style) else None
  }

  /** `parse_style_json` of this revision. */
  method ParseWidgetStyleJson(json: string, numbers: NumberParsers) returns (r: Option<WidgetStyle>)
    ensures r == WidgetStyleFromJson(json, numbers)
  {
    var t := Trim(json);
    if t == [] || t == "{}" || t == "null" {
      return None;
    }
    var style := DefaultWidgetStyle;
    var inner := StyleParser.InnerObject(json);
    if inner == [] {
      return None;
    }
    var any := false;
    var pairs := StyleParser.SplitJsonPairs(inner);
    var i := 0;
    while i < |pairs|
      invariant 0 <= i <= |pairs|
      invariant ApplyWidgetPairs(pairs[i..], style, any, numbers)
                == ApplyWidgetPairs(pairs, DefaultWidgetStyle, false, numbers)
    {
      assert pairs[i..][1..] == pairs[i + 1..];
      var pair := Trim(pairs[i]);
      if pair != [] {
        match StyleParser.ParseJsonKv(pair)
        case Some((key, value)) =>
          any := true;
          style := ApplyWidgetStyleProperty(style, key, value, numbers);
        case None =>
      }
      i := i + 1;
    }
    if any {
      r := Some(style);
    } else {
      r := None;
    }
  }

  lemma {:induction false} ApplyWidgetPairsAny(pairs: seq<string>, style: WidgetStyle, any: bool, numbers: NumberParsers)
    ensures ApplyWidgetPairs(pairs, style, any, numbers).1
            <==> any || exists k :: 0 <= k < |pairs| && KvPair(pairs[k])
    decreases |pairs|
  {
    if pairs != [] {
      var t := Trim(pairs[0]);
      var rest := pairs[1..];
      assert forall k :: 0 <= k < |rest| ==> rest[k] == pairs[k + 1];
      assert KvPair(pairs[0]) <==> t != [] && StyleParser.ParseJsonKv(t).Some?;
      if t == [] || StyleParser.ParseJsonKv(t).None? {
        ApplyWidgetPairsAny(rest, style, any, numbers);
        if exists k :: 0 <= k < |pairs| && KvPair(pairs[k]) {
          var k :| 0 <= k < |pairs| && KvPair(pairs[k]);
          assert KvPair(rest[k - 1]);
        }
      } else {
        var (key, value) := StyleParser.ParseJsonKv(t).value;
        ApplyWidgetPairsAny(rest, ApplyWidgetStyleProperty(style, key, value, numbers), true, numbers);
      }
    }
  }

  /** Unlike the later parser, this one yields a style as soon as any pair
    * has a colon, whether or not its key is known. */
  lemma {:induction false} WidgetStyleFromJsonSomeIff(json: string, numbers: NumberParsers)
    ensures WidgetStyleFromJson(json, numbers).Some?
            <==> Trim(json) != [] && Trim(json) != "{}" && Trim(json) != "null"
                 && exists k :: 0 <= k < |StyleParser.JsonPairs(StyleParser.InnerObject(json))|
                                && KvPair(StyleParser.JsonPairs(StyleParser.InnerObject(json))[k])
  {
    var t := Trim(json);
    if t != [] && t != "{}" && t != "null" {
      var inner := StyleParser.InnerObject(json);
      if inner == [] {
        StyleParser.PiecesEmpty(inner, 0, 0);
      } else {
        ApplyWidgetPairsAny(StyleParser.JsonPairs(inner), DefaultWidgetStyle, false, numbers);
      }
    }
  }

  lemma {:induction false} ApplyPairsAgree(pairs: seq<string>, style: WidgetStyle, any: bool, any2: bool,
                                           numbers: NumberParsers)
    ensures ApplyWidgetPairs(pairs, style, any, numbers).0.base
            == StyleParser.ApplyPairs(pairs, style.base, any2, numbers).0
    decreases |pairs|
  {
    if pairs != [] {
      var t := Trim(pairs[0]);
      if t == [] || StyleParser.ParseJsonKv(t).None? {
        ApplyPairsAgree(pairs[1..], style, any, any2, numbers);
      } else {
        var (key, value) := StyleParser.ParseJsonKv(t).value;
        var next := ApplyWidgetStyleProperty(style, key, value, numbers);
        var (nextBase, ok) := StyleParser.ApplyStyleProperty(style.base, key, value, numbers);
        assert next.base == nextBase;
        ApplyPairsAgree(pairs[1..], next, true, any2 || ok, numbers);
      }
    }
  }

  /** Whatever the later parser accepts this one accepts too, with the same
    * box properties. */
  lemma {:induction false} AgreesWithStyleParser(json: string, numbers: NumberParsers)
    requires StyleParser.StyleFromJson(json, numbers).Some?
    ensures WidgetStyleFromJson(json, numbers).Some?
    ensures WidgetStyleFromJson(json, numbers).value.base == StyleParser.StyleFromJson(json, numbers).value
  {
    var pairs := StyleParser.JsonPairs(StyleParser.InnerObject(json));
    StyleParser.StyleFromJsonSomeIff(json, numbers);
    var k :| 0 <= k < |pairs| && StyleParser.RecognisedPair(pairs[k]);
    assert KvPair(pairs[k]);
    WidgetStyleFromJsonSomeIff(json, numbers);
    ApplyPairsAgree(pairs, DefaultWidgetStyle, false, false, numbers);
  }

  // ----- Commands sent by the operations -----

  /** The commands of this revision, as the operations build them. */
  datatype OpCommand =
    | CreateWidget(id: string, kind: Kinds.WidgetKind, parentId: Option<string>, initialText: Option<string>,
                   initialStyle: Option<WidgetStyle>)
    | SetWidgetStyle(id: string, style: WidgetStyle)
    | Log(level: LogLevel, message: string)

  /** `op_create_widget`: the kind through the alias table; a style only when
    * one was given and it parses. */
  function OpCreateWidget(id: string, kind: string, parentId: Option<string>, text: Option<string>,
                          styleJson: Option<string>, numbers: NumberParsers): (r: OpCommand)
    ensures r.CreateWidget? && r.id == id && r.parentId == parentId && r.initialText == text
    ensures r.kind == JsBridge.ParseWidgetKind(kind)
    ensures r.initialStyle.Some? <==> styleJson.Some? && WidgetStyleFromJson(styleJson.value, numbers).Some?
    ensures styleJson.Some? ==> r.initialStyle == WidgetStyleFromJson(styleJson.value, numbers)
  {
    var style := match styleJson
      case Some(json) => WidgetStyleFromJson(json, numbers)
      case None => None;
    CreateWidget(id, JsBridge.ParseWidgetKind(kind), parentId, text, style)
  }

  /** `op_set_widget_style`: a style that does not parse is sent as the
    * default style. */
  function OpSetWidgetStyle(id: string, styleJson: string, numbers: NumberParsers): (r: OpCommand)
    ensures r.SetWidgetStyle? && r.id == id
    ensures WidgetStyleFromJson(styleJson, numbers).None? ==> r.style == DefaultWidgetStyle
    ensures WidgetStyleFromJson(styleJson, numbers).Some? ==> Some(r.style) == WidgetStyleFromJson(styleJson, numbers)
  {
    SetWidgetStyle(id, WidgetStyleFromJson(styleJson, numbers).GetOr(DefaultWidgetStyle))
  }

  /** `op_log`: the level through the same table as the script bridge. */
  function OpLog(level: string, message: string): (r: OpCommand)
    ensures r.Log? && r.message == message
    ensures r.level == JsBridge.LogLevelOf(level)
  {
    Log(JsBridge.LogLevelOf(level), message)
  }

  // ----- Escaping strings for JSON -----

  /** `escape_json_string`: backslash first, then quote, newline, carriage
    * return and tab, each replaced by its two-character escape. */
  function EscapeJsonString(s: string): string {
    ReplaceChar(ReplaceChar(ReplaceChar(ReplaceChar(ReplaceChar(
      s, '\\', "\\\\"), '"', "\\\""), '\n', "\\n"), '\r', "\\r"), '\t', "\\t")
  }

  /** The escape of one character. */
  function EscapeChar(c: char): (r: string)
    ensures 1 <= |r| <= 2
  {
    if c == '\\' then "\\\\"
    else if c == '"' then "\\\""
    else if c == '\n' then "\\n"
    else if c == '\r' then "\\r"
    else if c == '\t' then "\\t"
    else [c]
  }

  /** Escaping character by character: the reference definition. */
  function EscapeEach(s: string): string
    decreases |s|
  {
    if s == [] then [] else EscapeChar(s[0]) + EscapeEach(s[1..])
  }

  lemma EscapeConcat(a: string, b: string)
    ensures EscapeJsonString(a + b) == EscapeJsonString(a) + EscapeJsonString(b)
  {
    var s1a := ReplaceChar(a, '\\', "\\\\");
    var s1b := ReplaceChar(b, '\\', "\\\\");
    ReplaceCharConcat(a, b, '\\', "\\\\");
    var s2a := ReplaceChar(s1a, '"', "\\\"");
    var s2b := ReplaceChar(s1b, '"', "\\\"");
    ReplaceCharConcat(s1a, s1b, '"', "\\\"");
    var s3a := ReplaceChar(s2a, '\n', "\\n");
    var s3b := ReplaceChar(s2b, '\n', "\\n");
    ReplaceCharConcat(s2a, s2b, '\n', "\\n");
    var s4a := ReplaceChar(s3a, '\r', "\\r");
    var s4b := ReplaceChar(s3b, '\r', "\\r");
    ReplaceCharConcat(s3a, s3b, '\r', "\\r");
    ReplaceCharConcat(s4a, s4b, '\t', "\\t");
  }

  /** The five passes escape a single character as `EscapeChar` does: no pass
    * touches what an earlier pass produced, since the backslash pass runs
    * first. */
  lemma EscapeSingle(c: char)
    ensures EscapeJsonString([c]) == EscapeChar(c)
  {
    ReplaceCharOne(c, '\\', "\\\\");
    if c == '\\' {
      var e := "\\\\";
      ReplaceCharAbsent(e, '"', "\\\"");
      ReplaceCharAbsent(e, '\n', "\\n");
      ReplaceCharAbsent(e, '\r', "\\r");
      ReplaceCharAbsent(e, '\t', "\\t");
    } else {
      ReplaceCharOne(c, '"', "\\\"");
      if c == '"' {
        var e := "\\\"";
        ReplaceCharAbsent(e, '\n', "\\n");
        ReplaceCharAbsent(e, '\r', "\\r");
        ReplaceCharAbsent(e, '\t', "\\t");
      } else {
        ReplaceCharOne(c, '\n', "\\n");
        if c == '\n' {
          var e := "\\n";
          ReplaceCharAbsent(e, '\r', "\\r");
          ReplaceCharAbsent(e, '\t', "\\t");
        } else {
          ReplaceCharOne(c, '\r', "\\r");
          if c == '\r' {
            ReplaceCharAbsent("\\r", '\t', "\\t");
          } else {
            ReplaceCharOne(c, '\t', "\\t");
          }
        }
      }
    }
  }

  /** The chain of replacements escapes each character on its own. */
  lemma {:induction false} EscapeIsPerCharacter(s: string)
    ensures EscapeJsonString(s) == EscapeEach(s)
    decreases |s|
  {
    if s != [] {
      assert s == [s[0]] + s[1..];
      EscapeConcat([s[0]], s[1..]);
      EscapeSingle(s[0]);
      EscapeIsPerCharacter(s[1..]);
    }
  }

  /** No raw newline, carriage return or tab. */
  predicate NoRawControl(t: string) {
    '\n' !in t && '\r' !in t && '\t' !in t
  }

  lemma {:induction false} EscapeEachNoRawControl(s: string)
    ensures NoRawControl(EscapeEach(s))
    decreases |s|
  {
    if s != [] {
      EscapeEachNoRawControl(s[1..]);
      var h := EscapeChar(s[0]);
      var t := EscapeEach(s[1..]);
      assert NoRawControl(h);
      assert forall i :: |h| <= i < |h| + |t| ==> (h + t)[i] == t[i - |h|];
    }
  }

  lemma {:induction false} EscapeEachQuotesEscaped(s: string)
    ensures Kinds.QuotesEscaped(EscapeEach(s))
    decreases |s|
  {
    if s != [] {
      var h := EscapeChar(s[0]);
      var rest := EscapeEach(s[1..]);
      EscapeEachQuotesEscaped(s[1..]);
      var r := h + rest;
      forall i | 0 <= i < |r| && r[i] == '"'
        ensures i > 0 && r[i - 1] == '\\'
      {
        if i < |h| {
          assert |h| == 2 && i == 1;
        } else {
          assert rest[i - |h|] == '"';
          assert i - |h| > 0;
          assert r[i - 1] == rest[i - |h| - 1];
        }
      }
    }
  }

  /** Escaped text contains no raw newline, carriage return or tab, and every
    * quote in it comes right after a backslash, so it never closes the
    * string it is written into. */
  lemma EscapedHasNoRawControl(s: string)
    ensures NoRawControl(EscapeJsonString(s))
    ensures Kinds.QuotesEscaped(EscapeJsonString(s))
  {
    EscapeIsPerCharacter(s);
    EscapeEachNoRawControl(s);
    EscapeEachQuotesEscaped(s);
  }

  lemma NoRawControlConcat(a: string, b: string)
    requires NoRawControl(a) && NoRawControl(b)
    ensures NoRawControl(a + b)
  {
    assert forall i :: |a| <= i < |a| + |b| ==> (a + b)[i] == b[i - |a|];
  }

  /** How a JSON reader decodes the escapes: a backslash and the next
    * character stand for one character. */
  function Unescape(t: string): string
    decreases |t|
  {
    if t == [] then []
    else if t[0] == '\\' && |t| >= 2 then [EscapedChar(t[1])] + Unescape(t[2..])
    else [t[0]] + Unescape(t[1..])
  }

  function EscapedChar(c: char): char {
    if c == 'n' then '\n' else if c == 'r' then '\r' else if c == 't' then '\t' else c
  }

  lemma {:induction false} UnescapeEach(s: string)
    ensures Unescape(EscapeEach(s)) == s
    decreases |s|
  {
    if s != [] {
      var h := EscapeChar(s[0]);
      var rest := EscapeEach(s[1..]);
      UnescapeEach(s[1..]);
      if |h| == 2 {
        assert (h + rest)[2..] == rest;
      } else {
        assert (h + rest)[1..] == rest;
      }
    }
  }

  /** A JSON reader recovers the original text from its escape. */
  lemma EscapeRoundTrip(s: string)
    ensures Unescape(EscapeJsonString(s)) == s
  {
    EscapeIsPerCharacter(s);
    UnescapeEach(s);
  }

  /** Distinct texts have distinct escapes. */
  lemma EscapeInjective(a: string, b: string)
    requires EscapeJsonString(a) == EscapeJsonString(b)
    ensures a == b
  {
    EscapeRoundTrip(a);
    EscapeRoundTrip(b);
  }

  // ----- Events as JSON -----

  /** The events of this revision, which has no runtime-error event. */
  type ScriptEvent = e: UiEvent | !e.RuntimeError? witness AppExit

  function BoolText(b: bool): string {
    if b then "true" else "false"
  }

  function Quoted(s: string): string {
    "\"" + EscapeJsonString(s) + "\""
  }

  /** The `"type"` value of an event's JSON. */
  function TypeTag(e: ScriptEvent): (r: string)
    ensures r != [] && r[0] != 'd'
  {
    match e
    case WindowResized(_, _) => "windowResized"
    case MouseClick(_, _) => "mouseClick"
    case MouseMove(_, _) => "mouseMove"
    case KeyPress(_, _) => "keyPress"
    case KeyRelease(_, _) => "keyRelease"
    case TextInput(_) => "textInput"
    case WidgetAction(_, _) => "widgetAction"
    case WindowFocusChanged(_) => "windowFocusChanged"
    case WindowCloseRequested => "windowCloseRequested"
    case AppExit => "appExit"
  }

  function KeyFields(key: string, m: Modifiers): string {
    ",\"key\":" + Quoted(key) + ",\"shift\":" + BoolText(m.shift) + ",\"ctrl\":" + BoolText(m.ctrl)
    + ",\"alt\":" + BoolText(m.alt) + ",\"meta\":" + BoolText(m.meta)
  }

  function ActionFields(widgetId: string, action: WidgetActionKind, number: real -> string): string {
    var id := ",\"widgetId\":" + Quoted(widgetId) + ",\"action\":";
    match action
    case Click => id + "\"click\""
    case DoubleClick => id + "\"doubleClick\""
    case TextChanged(t) => id + "\"textChanged\",\"value\":" + Quoted(t)
    case ValueChanged(v) => id + "\"valueChanged\",\"value\":" + number(v)
    case CustomAction(c) => id + "\"custom\",\"value\":" + Quoted(c)
  }

  /** The fields after the type, in the order they are written. */
  function EventFields(e: ScriptEvent, number: real -> string): string {
    match e
    case WindowResized(w, h) => ",\"width\":" + NatToString(w) + ",\"height\":" + NatToString(h)
    case MouseClick(x, y) => ",\"x\":" + number(x) + ",\"y\":" + number(y)
    case MouseMove(x, y) => ",\"x\":" + number(x) + ",\"y\":" + number(y)
    case KeyPress(key, m) => KeyFields(key, m)
    case KeyRelease(key, m) => KeyFields(key, m)
    case TextInput(text) => ",\"text\":" + Quoted(text)
    case WidgetAction(id, action) => ActionFields(id, action, number)
    case WindowFocusChanged(f) => ",\"focused\":" + BoolText(f)
    case WindowCloseRequested => ""
    case AppExit => ""
  }

  const TypePrefix := "{\"type\":\""

  /** `serialize_event`. Floating-point numbers are written by the given
    * formatter, which is outside the model; strings are escaped. */
  function SerializeEvent(e: ScriptEvent, number: real -> string): (r: string)
    ensures StartsWith(r, TypePrefix + TypeTag(e) + "\"")
    ensures r[|r| - 1] == '}'
  {
    var head := TypePrefix + TypeTag(e) + "\"";
    var r := head + EventFields(e, number) + "}";
    assert r == head + (EventFields(e, number) + "}");
    StartsWithConcat(head, EventFields(e, number) + "}");
    r
  }

  lemma QuotedNoRawControl(s: string)
    ensures NoRawControl(Quoted(s))
  {
    EscapedHasNoRawControl(s);
  }

  lemma KeyFieldsNoRawControl(key: string, m: Modifiers)
    ensures NoRawControl(KeyFields(key, m))
  {
    QuotedNoRawControl(key);
    assert NoRawControl(BoolText(m.shift)) && NoRawControl(BoolText(m.ctrl));
    assert NoRawControl(BoolText(m.alt)) && NoRawControl(BoolText(m.meta));
  }

  lemma ActionFieldsNoRawControl(widgetId: string, action: WidgetActionKind, number: real -> string)
    requires action.ValueChanged? ==> NoRawControl(number(action.value))
    ensures NoRawControl(ActionFields(widgetId, action, number))
  {
    var head := ",\"widgetId\":";
    var tail := ",\"action\":";
    assert NoRawControl(head) && NoRawControl(tail);
    QuotedNoRawControl(widgetId);
    NoRawControlConcat(head, Quoted(widgetId));
    NoRawControlConcat(head + Quoted(widgetId), tail);
    var id := head + Quoted(widgetId) + tail;
    match action {
      case Click =>
        assert NoRawControl("\"click\"");
        NoRawControlConcat(id, "\"click\"");
      case DoubleClick =>
        assert NoRawControl("\"doubleClick\"");
        NoRawControlConcat(id, "\"doubleClick\"");
      case TextChanged(t) =>
        assert NoRawControl("\"textChanged\",\"value\":");
        QuotedNoRawControl(t);
        NoRawControlConcat(id, "\"textChanged\",\"value\":");
        NoRawControlConcat(id + "\"textChanged\",\"value\":", Quoted(t));
      case ValueChanged(v) =>
        assert NoRawControl("\"valueChanged\",\"value\":");
        NoRawControlConcat(id, "\"valueChanged\",\"value\":");
        NoRawControlConcat(id + "\"valueChanged\",\"value\":", number(v));
      case CustomAction(c) =>
        assert NoRawControl("\"custom\",\"value\":");
        QuotedNoRawControl(c);
        NoRawControlConcat(id, "\"custom\",\"value\":");
        NoRawControlConcat(id + "\"custom\",\"value\":", Quoted(c));
    }
  }

  lemma TypeTagNoRawControl(e: ScriptEvent)
    ensures NoRawControl(TypeTag(e))
  {
    match e {
      case WindowResized(_, _) => assert NoRawControl("windowResized");
      case MouseClick(_, _) => assert NoRawControl("mouseClick");
      case MouseMove(_, _) => assert NoRawControl("mouseMove");
      case KeyPress(_, _) => assert NoRawControl("keyPress");
      case KeyRelease(_, _) => assert NoRawControl("keyRelease");
      case TextInput(_) => assert NoRawControl("textInput");
      case WidgetAction(_, _) => assert NoRawControl("widgetAction");
      case WindowFocusChanged(_) => assert NoRawControl("windowFocusChanged");
      case WindowCloseRequested => assert NoRawControl("windowCloseRequested");
      case AppExit => assert NoRawControl("appExit");
    }
  }


  /** Two labelled values side by side keep the property of their parts. */
  lemma LabelledPairNoRawControl(a: string, x: string, b: string, y: string)
    requires NoRawControl(a) && NoRawControl(x) && NoRawControl(b) && NoRawControl(y)
    ensures NoRawControl(a + x + b + y)
  {
    NoRawControlConcat(a, x);
    NoRawControlConcat(a + x, b);
    NoRawControlConcat(a + x + b, y);
  }

  lemma DigitsNoRawControl(n: nat)
    ensures NoRawControl(NatToString(n))
  {
    var t := NatToString(n);
    assert forall i :: 0 <= i < |t| ==> '0' <= t[i] <= '9';
  }

  lemma EventFieldsNoRawControl(e: ScriptEvent, number: real -> string)
    requires forall v :: NoRawControl(number(v))
    ensures NoRawControl(EventFields(e, number))
  {
    match e {
      case WindowResized(w, h) =>
        DigitsNoRawControl(w);
        DigitsNoRawControl(h);
        LabelledPairNoRawControl(",\"width\":", NatToString(w), ",\"height\":", NatToString(h));
      case MouseClick(x, y) =>
        assert NoRawControl(number(x)) && NoRawControl(number(y));
        LabelledPairNoRawControl(",\"x\":", number(x), ",\"y\":", number(y));
      case MouseMove(x, y) =>
        assert NoRawControl(number(x)) && NoRawControl(number(y));
        LabelledPairNoRawControl(",\"x\":", number(x), ",\"y\":", number(y));
      case KeyPress(key, m) => KeyFieldsNoRawControl(key, m);
      case KeyRelease(key, m) => KeyFieldsNoRawControl(key, m);
      case TextInput(text) =>
        QuotedNoRawControl(text);
        NoRawControlConcat(",\"text\":", Quoted(text));
      case WidgetAction(id, action) =>
        if action.ValueChanged? {
          assert NoRawControl(number(action.value));
        }
        ActionFieldsNoRawControl(id, action, number);
      case WindowFocusChanged(f) =>
        assert NoRawControl(BoolText(f));
        NoRawControlConcat(",\"focused\":", BoolText(f));
      case WindowCloseRequested =>
      case AppExit =>
    }
  }

  /**
   * With a number formatter that writes no raw control character, no
   * serialised event holds one: every string field goes through the JSON
   * escaper.
   */
  lemma SerializedNoRawControl(e: ScriptEvent, number: real -> string)
    requires forall v :: NoRawControl(number(v))
    ensures NoRawControl(SerializeEvent(e, number))
  {
    var tag := TypeTag(e);
    TypeTagNoRawControl(e);
    assert NoRawControl(TypePrefix) && NoRawControl("\"") && NoRawControl("}");
    EventFieldsNoRawControl(e, number);
    LabelledPairNoRawControl(TypePrefix, tag, "\"", EventFields(e, number));
    NoRawControlConcat(TypePrefix + tag + "\"" + EventFields(e, number), "}");
  }


  const Disconnected := "{\"type\":\"disconnected\"}"

  /** `op_wait_for_event`'s reply: the event's JSON, or the disconnect notice
    * once the channel is closed. */
  function WaitReply(received: Option<ScriptEvent>, number: real -> string): string {
    match received
    case Some(e) => SerializeEvent(e, number)
    case None => Disconnected
  }

  /** The disconnect notice is never the JSON of an event. */
  lemma DisconnectedIsNotAnEvent(e: ScriptEvent, number: real -> string)
    ensures SerializeEvent(e, number) != Disconnected
  {
    var r := SerializeEvent(e, number);
    var head := TypePrefix + TypeTag(e) + "\"";
    assert r[..|head|] == head;
    assert r[9] == head[9] == TypeTag(e)[0];
    assert Disconnected[9] == 'd';
  }

  lemma Regroup(h: string, f: string, q1: string, e: string, q2: string, z: string)
    ensures (h + (f + ((q1 + e) + q2))) + z == (h + f + q1) + e + (q2 + z)
  {
  }

  lemma CancelAffixes(p: string, x: string, y: string, z: string)
    requires p + x + z == p + y + z
    ensures x == y
  {
    assert |x| == |y|;
    assert x == (p + x + z)[|p|..|p| + |x|];
    assert y == (p + y + z)[|p|..|p| + |y|];
  }

  /** Text events of different texts are written differently: the script
    * side can tell them apart. */
  lemma TextInputInjective(a: string, b: string, number: real -> string)
    requires SerializeEvent(TextInput(a), number) == SerializeEvent(TextInput(b), number)
    ensures a == b
  {
    var head := TypePrefix + "textInput" + "\"";
    var f := ",\"text\":";
    Regroup(head, f, "\"", EscapeJsonString(a), "\"", "}");
    Regroup(head, f, "\"", EscapeJsonString(b), "\"", "}");
    CancelAffixes(head + f + "\"", EscapeJsonString(a), EscapeJsonString(b), "\"" + "}");
    EscapeInjective(a, b);
  }
}
