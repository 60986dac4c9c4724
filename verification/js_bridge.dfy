/** The script bridge of the `JsCommand` revision: each message the script
  * process sends becomes one command for the UI thread. */
module JsBridge {
  import opened Common
  import opened Kinds
  import Events
  import opened StyleTypes
  import StyleParser

  /** `parse_widget_kind` of the script bridge: a fixed alias table; any other
    * name is a custom kind carrying the name unchanged. */
  function ParseWidgetKind(kind: string): (r: WidgetKind)
    ensures r.Custom? ==> r.name == kind
  {
    match kind
    case "Label" | "label" => Label
    case "Button" | "button" => Button
    case "TextInput" | "textInput" | "text_input" => TextInput
    case "TextArea" | "textArea" | "text_area" => TextArea
    case "Checkbox" | "checkbox" => Checkbox
    case "Container" | "container" => Container
    case "Flex" | "flex" => Flex
    case "SizedBox" | "sizedBox" | "sized_box" | "box" => SizedBox
    case "ProgressBar" | "progressBar" | "progress_bar" | "progress" => ProgressBar
    case "Spinner" | "spinner" | "loading" => Spinner
    case "Slider" | "slider" | "range" => Slider
    case "Prose" | "prose" => Prose
    case "Grid" | "grid" => Grid
    case "ZStack" | "zstack" | "z_stack" | "stack" => ZStack
    case "Portal" | "portal" | "scroll" => Portal
    case other => Custom(other)
  }

  /** The kinds this table can name. */
  predicate BridgeKind(k: WidgetKind) {
    !k.Custom? && k != Svg && k != Image && k != Hoverable
  }

  /** Svg, Image and Hoverable have no alias here: asking for them by any
    * name yields a custom kind. */
  lemma ParseWidgetKindRange(kind: string)
    ensures BridgeKind(ParseWidgetKind(kind)) || ParseWidgetKind(kind) == Custom(kind)
  {
  }

  /** Each kind the table names is reached from its own variant name. */
  lemma {:induction false} ParseWidgetKindNames(k: WidgetKind)
    requires BridgeKind(k)
    ensures ParseWidgetKind(DebugName(k)) == k
  {
    match k
    case Label =>
    case Button =>
    case TextInput =>
    case TextArea =>
    case Checkbox =>
    case Container =>
    case Flex =>
    case SizedBox =>
    case ProgressBar =>
    case Spinner =>
    case Slider =>
    case Prose =>
    case Grid =>
    case ZStack =>
    case Portal =>
  }

  /** The lower-case names of Svg, Image and Hoverable are not aliases. */
  lemma UnaliasedNames()
    ensures ParseWidgetKind("svg") == Custom("svg")
    ensures ParseWidgetKind("image") == Custom("image")
    ensures ParseWidgetKind("hoverable") == Custom("hoverable")
  {
  }

  /** `parse_log_level`: the four level names; anything else is Info. */
  function LogLevelOf(level: string): (r: Events.LogLevel)
    ensures r == Events.Debug ==> level == "debug"
    ensures r == Events.Warn ==> level == "warn"
    ensures r == Events.Error ==> level == "error"
  {
    match level
    case "debug" => Events.Debug
    case "info" => Events.Info
    case "warn" => Events.Warn
    case "error" => Events.Error
    case _ => Events.Info
  }

  function LevelName(l: Events.LogLevel): string {
    match l
    case Debug => "debug"
    case Info => "info"
    case Warn => "warn"
    case Error => "error"
  }

  /** Every level is reached from its name. */
  lemma LogLevelRoundTrip(l: Events.LogLevel)
    ensures LogLevelOf(LevelName(l)) == l
  {
  }

  /** The messages the script process sends in this revision. */
  datatype JsMessage =
    | SetTitleMsg(title: string)
    | CreateWidgetMsg(id: string, kind: string, parentId: Option<string>, initialText: Option<string>,
                      styleJson: Option<string>)
    | RemoveWidgetMsg(id: string)
    | SetWidgetTextMsg(id: string, text: string)
    | SetWidgetVisibleMsg(id: string, visible: bool)
    | SetWidgetStyleMsg(id: string, styleText: string)
    | SetStylePropertyMsg(id: string, property: string, value: string)
    | SetWidgetValueMsg(id: string, amount: real)
    | SetWidgetCheckedMsg(id: string, checked: bool)
    | ResizeWindowMsg(width: Events.U32, height: Events.U32)
    | CloseWindowMsg
    | ExitAppMsg
    | LogMsg(level: string, message: string)
    | ReadyMsg

  /** The commands this bridge hands to the UI thread. */
  datatype JsCommand =
    | SetTitle(title: string)
    | CreateWidget(id: string, kind: WidgetKind, parentId: Option<string>, initialText: Option<string>,
                   initialStyle: Option<BoxStyle>)
    | RemoveWidget(id: string)
    | SetWidgetText(id: string, text: string)
    | SetWidgetVisible(id: string, visible: bool)
    | SetWidgetStyle(id: string, style: BoxStyle)
    | SetStyleProperty(id: string, property: string, value: string)
    | SetWidgetValue(id: string, amount: real)
    | SetWidgetChecked(id: string, checked: bool)
    | ResizeWindow(width: Events.U32, height: Events.U32)
    | CloseWindow
    | ExitApp
    | Log(level: Events.LogLevel, message: string)

  const ReadyText := "Bun runtime bridge ready"

  /** `handle_js_message`: always a command; fields are carried unchanged,
    * kinds and log levels go through their tables, style text through the
    * style parser (a style that does not parse is the default style when
    * restyling, and no style when creating). */
  function HandleJsMessage(message: JsMessage, numbers: NumberParsers): (r: Option<JsCommand>)
    ensures r.Some?
    ensures message.ReadyMsg? ==> r.value == Log(Events.Info, ReadyText)
    ensures message.SetWidgetStyleMsg? ==>
              r.value == SetWidgetStyle(message.id,
                           StyleParser.StyleFromJson(message.styleText, numbers).GetOr(DefaultStyle))
    ensures message.CreateWidgetMsg? ==>
              && r.value.CreateWidget?
              && r.value.id == message.id
              && r.value.kind == ParseWidgetKind(message.kind)
              && r.value.parentId == message.parentId
              && r.value.initialText == message.initialText
              && (message.styleJson.None? ==> r.value.initialStyle.None?)
              && (message.styleJson.Some? ==>
                    r.value.initialStyle == StyleParser.StyleFromJson(message.styleJson.value, numbers))
    ensures message.LogMsg? ==> r.value == Log(LogLevelOf(message.level), message.message)
  {
    match message
    case SetTitleMsg(title) => Some(SetTitle(title))
    case CreateWidgetMsg(id, kind, parentId, text, styleJson) =>
      var style := match styleJson
        case Some(json) => StyleParser.StyleFromJson(json, numbers)
        case None => None;
      Some(CreateWidget(id, ParseWidgetKind(kind), parentId, text, style))
    case RemoveWidgetMsg(id) => Some(RemoveWidget(id))
    case SetWidgetTextMsg(id, text) => Some(SetWidgetText(id, text))
    case SetWidgetVisibleMsg(id, visible) => Some(SetWidgetVisible(id, visible))
    case SetWidgetStyleMsg(id, styleText) =>
      Some(SetWidgetStyle(id, StyleParser.StyleFromJson(styleText, numbers).GetOr(DefaultStyle)))
    case SetStylePropertyMsg(id, property, value) => Some(SetStyleProperty(id, property, value))
    case SetWidgetValueMsg(id, value) => Some(SetWidgetValue(id, value))
    case SetWidgetCheckedMsg(id, checked) => Some(SetWidgetChecked(id, checked))
    case ResizeWindowMsg(width, height) => Some(ResizeWindow(width, height))
    case CloseWindowMsg => Some(CloseWindow)
    case ExitAppMsg => Some(ExitApp)
    case LogMsg(level, text) => Some(Log(LogLevelOf(level), text))
    case ReadyMsg => Some(Log(Events.Info, ReadyText))
  }

  /** The message a command came from, for the commands that carry their
    * fields unchanged. */
  function MessageOf(c: JsCommand): Option<JsMessage> {
    match c
    case SetTitle(title) => Some(SetTitleMsg(title))
    case RemoveWidget(id) => Some(RemoveWidgetMsg(id))
    case SetWidgetText(id, text) => Some(SetWidgetTextMsg(id, text))
    case SetWidgetVisible(id, visible) => Some(SetWidgetVisibleMsg(id, visible))
    case SetStyleProperty(id, property, value) => Some(SetStylePropertyMsg(id, property, value))
    case SetWidgetValue(id, value) => Some(SetWidgetValueMsg(id, value))
    case SetWidgetChecked(id, checked) => Some(SetWidgetCheckedMsg(id, checked))
    case ResizeWindow(width, height) => Some(ResizeWindowMsg(width, height))
    case CloseWindow => Some(CloseWindowMsg)
    case ExitApp => Some(ExitAppMsg)
    case _ => None
  }

  /** Messages that only forward their fields are recovered from their
    * command: the translation loses nothing for them. */
  lemma ForwardedFieldsUnchanged(message: JsMessage, numbers: NumberParsers)
    requires !message.CreateWidgetMsg? && !message.SetWidgetStyleMsg?
    requires !message.LogMsg? && !message.ReadyMsg?
    ensures MessageOf(HandleJsMessage(message, numbers).value) == Some(message)
  {
  }
}
