/** The closed set of widget kinds a script can ask for. */
module Kinds {
  import opened Common

  datatype WidgetKind =
    | Label | Button | Svg | TextInput | TextArea | Checkbox | Container | Flex
    | SizedBox | ProgressBar | Spinner | Slider | Image | Prose | Grid | ZStack
    | Portal | Hoverable
    | Custom(name: string)

  /** The escape `{:?}` gives one character of a string: a backslash before
    * a quote or a backslash, the usual letter escapes for newline, carriage
    * return, tab and NUL, and any other character kept. */
  function DebugEscapeChar(c: char): (r: string)
    ensures 1 <= |r| <= 2
    ensures |r| == 2 <==> c in {'"', '\\', '\n', '\r', '\t', '\0'}
    ensures |r| == 2 ==> r[0] == '\\'
    ensures |r| == 1 ==> r == [c]
  {
    if c == '"' then "\\\""
    else if c == '\\' then "\\\\"
    else if c == '\n' then "\\n"
    else if c == '\r' then "\\r"
    else if c == '\t' then "\\t"
    else if c == '\0' then "\\0"
    else [c]
  }

  /** A string's contents as `{:?}` writes them between the quotes. */
  function DebugEscape(s: string): (r: string)
    ensures |r| >= |s|
    decreases |s|
  {
    if s == [] then [] else DebugEscapeChar(s[0]) + DebugEscape(s[1..])
  }

  /** Every quote in `t` comes right after a backslash. */
  predicate QuotesEscaped(t: string) {
    forall i :: 0 <= i < |t| && t[i] == '"' ==> i > 0 && t[i - 1] == '\\'
  }

  /** The escaped contents never hold a bare quote, so the closing quote of
    * the rendering is the first unescaped one. */
  lemma {:induction false} DebugEscapeQuotes(s: string)
    ensures QuotesEscaped(DebugEscape(s))
    decreases |s|
  {
    if s != [] {
      var h := DebugEscapeChar(s[0]);
      var rest := DebugEscape(s[1..]);
      DebugEscapeQuotes(s[1..]);
      var r := h + rest;
      assert r == DebugEscape(s);
      forall i | 0 <= i < |r| && r[i] == '"'
        ensures i > 0 && r[i - 1] == '\\'
      {
        if i < |h| {
          assert |h| == 2 && i == 1;
        } else {
          assert rest[i - |h|] == '"';
          assert i - |h| > 0;
          assert r[i - 1] == rest[i - |h| - 1];
        }
      }
    }
  }

  /** A name free of the escaped characters is written as it is. */
  lemma {:induction false} DebugEscapePlain(s: string)
    requires forall i :: 0 <= i < |s| ==> s[i] !in {'"', '\\', '\n', '\r', '\t', '\0'}
    ensures DebugEscape(s) == s
    decreases |s|
  {
    if s != [] {
      DebugEscapePlain(s[1..]);
      assert [s[0]] + s[1..] == s;
    }
  }

  /** The `Debug` rendering of a kind: the variant name, and for a custom kind
    * the variant wrapping its name in quotes, escaped as `{:?}` escapes it. */
  function DebugName(kind: WidgetKind): (r: string)
    ensures |r| > 0
    ensures !kind.Custom? ==> '"' !in r
    ensures kind.Custom? ==> r == "Custom(\"" + DebugEscape(kind.name) + "\")"
  {
    match kind
    case Label => "Label"
    case Button => "Button"
    case Svg => "Svg"
    case TextInput => "TextInput"
    case TextArea => "TextArea"
    case Checkbox => "Checkbox"
    case Container => "Container"
    case Flex => "Flex"
    case SizedBox => "SizedBox"
    case ProgressBar => "ProgressBar"
    case Spinner => "Spinner"
    case Slider => "Slider"
    case Image => "Image"
    case Prose => "Prose"
    case Grid => "Grid"
    case ZStack => "ZStack"
    case Portal => "Portal"
    case Hoverable => "Hoverable"
    case Custom(name) => "Custom(\"" + DebugEscape(name) + "\")"
  }

  /** A quote inside a custom name is written with a backslash. */
  lemma CustomQuoteEscaped()
    ensures DebugName(Custom("a\"b")) == "Custom(\"a\\\"b\")"
  {
    assert DebugEscape("a\"b") == "a\\\"b" by {
      assert DebugEscape("b") == "b";
      assert DebugEscape("\"b") == "\\\"" + DebugEscape("b");
    }
  }

  /** Kind-specific creation data carried by a create command. */
  datatype WidgetData =
    | LabelData
    | ButtonData(svgData: Option<string>)
    | SvgData(svgData: Option<string>)
    | ImageData(bytes: seq<Byte>, objectFit: Option<string>)
    | FlexData
    | SizedBoxData
    | CheckboxData(checked: bool)
    | TextInputData(placeholder: Option<string>)
    | TextAreaData
    | ProseData
    | ProgressBarData(progress: Option<real>)
    | SpinnerData
    | SliderData(min: real, max: real, value: real, step: Option<real>)
    | ZStackData
    | PortalData
    | GridData
    | HoverableData
    | CustomData(name: string)
}
