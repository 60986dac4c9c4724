/** The socket bridge of the `ClientCommand` revision: each message the client
  * sends becomes one command, with kind-specific creation data assembled from
  * the parameter and style objects; events going back are wrapped for the
  * client. */
module Server {
  import opened Common
  import opened Kinds
  import Events
  import opened StyleTypes

  /** `parse_widget_kind` of the socket bridge. */
  function ParseWidgetKind(kind: string): (r: WidgetKind)
    ensures r.Custom? ==> r.name == kind
  {
    match kind
    case "Label" | "label" => Label
    case "Button" | "button" | "iconButton" | "icon_button" => Button
    case "Svg" | "svg" | "svgIcon" | "svg_icon" | "icon" => Svg
    case "TextInput" | "textInput" | "text_input" => TextInput
    case "TextArea" | "textArea" | "text_area" => TextArea
    case "Checkbox" | "checkbox" => Checkbox
    case "Container" | "container" => Container
    case "Flex" | "flex" => Flex
    case "SizedBox" | "sizedBox" | "sized_box" | "box" => SizedBox
    case "ProgressBar" | "progressBar" | "progress_bar" | "progress" => ProgressBar
    case "Spinner" | "spinner" | "loading" => Spinner
    case "Slider" | "slider" | "range" => Slider
    case "Image" | "image" | "img" => Image
    case "Prose" | "prose" => Prose
    case "Grid" | "grid" => Grid
    case "ZStack" | "zstack" | "z_stack" | "stack" => ZStack
    case "Portal" | "portal" | "scroll" => Portal
    case "Hoverable" | "hoverable" => Hoverable
    case other => Custom(other)
  }

  /** Every built-in kind is reached from its variant name, and a few
    * short aliases name the kinds they suggest. */
  lemma {:induction false} ParseWidgetKindNames(k: WidgetKind)
    requires !k.Custom?
    ensures ParseWidgetKind(DebugName(k)) == k
    ensures ParseWidgetKind("box") == SizedBox && ParseWidgetKind("scroll") == Portal
    ensures ParseWidgetKind("img") == Image && ParseWidgetKind("icon") == Svg
  {
    match k
    case Label =>
    case Button =>
    case Svg =>
    case TextInput =>
    case TextArea =>
    case Checkbox =>
    case Container =>
    case Flex =>
    case SizedBox =>
    case ProgressBar =>
    case Spinner =>
    case Slider =>
    case Image =>
    case Prose =>
    case Grid =>
    case ZStack =>
    case Portal =>
    case Hoverable =>
  }

  // ----- Creation data -----

  /** A JSON value as the creation data reads it: a string, a boolean, a
    * number (noting whether it is an integer), or anything else. */
  datatype JsonValue = JStr(str: string) | JBool(b: bool) | JNum(num: real, integral: bool) | JOther

  function AsStr(v: JsonValue): Option<string> {
    if v.JStr? then Some(v.str) else None
  }

  function AsBool(v: JsonValue): Option<bool> {
    if v.JBool? then Some(v.b) else None
  }

  function AsF64(v: JsonValue): Option<real> {
    if v.JNum? then Some(v.num) else None
  }

  function AsI64(v: JsonValue): Option<real> {
    if v.JNum? && v.integral then Some(v.num) else None
  }

  /** A parsed JSON document as a key lookup; a document that is not an
    * object has no keys. Parsing itself is outside the model: the caller
    * supplies it. */
  type JsonObject = map<string, JsonValue>

  function Field(obj: Option<JsonObject>, key: string): Option<JsonValue> {
    if obj.Some? && key in obj.value then Some(obj.value[key]) else None
  }

  function Then<A, B>(o: Option<A>, f: A -> Option<B>): Option<B> {
    if o.Some? then f(o.value) else None
  }

  /** The three lookups of `build_widget_data`: the parameter object first,
    * then the style object. A number is tried as a float in both, then as an
    * integer in both. */
  function GetString(params: Option<JsonObject>, style: Option<JsonObject>, key: string): (r: Option<string>)
    ensures Then(Field(params, key), AsStr).Some? ==> r == Then(Field(params, key), AsStr)
  {
    Then(Field(params, key), AsStr).OrElse(Then(Field(style, key), AsStr))
  }

  function GetBool(params: Option<JsonObject>, style: Option<JsonObject>, key: string): (r: Option<bool>)
    ensures Then(Field(params, key), AsBool).Some? ==> r == Then(Field(params, key), AsBool)
  {
    Then(Field(params, key), AsBool).OrElse(Then(Field(style, key), AsBool))
  }

  function GetF64(params: Option<JsonObject>, style: Option<JsonObject>, key: string): (r: Option<real>)
    ensures Then(Field(params, key), AsF64).Some? ==> r == Then(Field(params, key), AsF64)
  {
    Then(Field(params, key), AsF64)
      .OrElse(Then(Field(style, key), AsF64))
      .OrElse(Then(Field(params, key), AsI64))
      .OrElse(Then(Field(style, key), AsI64))
  }

  /** Every integer is also read as a float, so the integer fallbacks never
    * change the outcome: a number is taken from the parameters when they
    * hold one under the key, else from the style. */
  lemma GetF64NumbersOnly(params: Option<JsonObject>, style: Option<JsonObject>, key: string)
    ensures GetF64(params, style, key)
            == Then(Field(params, key), AsF64).OrElse(Then(Field(style, key), AsF64))
  {
  }

  /** `build_widget_data`, with the two JSON documents already parsed. */
  function BuildWidgetData(kind: WidgetKind, style: Option<JsonObject>, params: Option<JsonObject>,
                           data: Option<seq<Byte>>): (r: Option<WidgetData>)
    ensures r.None? <==> kind == Image && data.None?
    ensures kind == Checkbox ==> r == Some(CheckboxData(GetBool(params, style, "checked").GetOr(false)))
    ensures kind.Custom? ==> r == Some(CustomData(kind.name))
  {
    match kind
    case Label => Some(LabelData)
    case Button =>
      Some(ButtonData(GetString(params, style, "svgData").OrElse(GetString(params, style, "svg_data"))))
    case Svg =>
      Some(SvgData(GetString(params, style, "svgData")
                   .OrElse(GetString(params, style, "svg_data"))
                   .OrElse(GetString(params, style, "svg"))))
    case Image =>
      if data.None? then None
      else
        Some(ImageData(data.value, GetString(params, style, "object_fit").OrElse(GetString(params, style, "objectFit"))))
    case Flex => Some(FlexData)
    case Container => Some(FlexData)
    case SizedBox => Some(SizedBoxData)
    case Checkbox => Some(CheckboxData(GetBool(params, style, "checked").GetOr(false)))
    case TextInput => Some(TextInputData(GetString(params, style, "placeholder")))
    case TextArea => Some(TextAreaData)
    case Prose => Some(ProseData)
    case ProgressBar =>
      Some(ProgressBarData(GetF64(params, style, "progress").OrElse(GetF64(params, style, "value"))))
    case Spinner => Some(SpinnerData)
    case Slider =>
      Some(SliderData(
        GetF64(params, style, "minValue").OrElse(GetF64(params, style, "min_value"))
          .OrElse(GetF64(params, style, "min")).GetOr(0.0),
        GetF64(params, style, "maxValue").OrElse(GetF64(params, style, "max_value"))
          .OrElse(GetF64(params, style, "max")).GetOr(1.0),
        GetF64(params, style, "value").OrElse(GetF64(params, style, "progress")).GetOr(0.5),
        GetF64(params, style, "step")))
    case ZStack => Some(ZStackData)
    case Portal => Some(PortalData)
    case Grid => Some(GridData)
    case Hoverable => Some(HoverableData)
    case Custom(name) => Some(CustomData(name))
  }

  /** With neither document, a slider gets the range 0 to 1, the value 0.5
    * and no step; a checkbox is unchecked. */
  lemma SliderDefaults()
    ensures BuildWidgetData(Slider, None, None, None) == Some(SliderData(0.0, 1.0, 0.5, None))
    ensures BuildWidgetData(Checkbox, None, None, None) == Some(CheckboxData(false))
  {
  }

  /** A number under `minValue` beats `min_value`, which beats `min`,
    * whichever document each is in. */
  lemma SliderMinPrecedence(style: Option<JsonObject>, params: Option<JsonObject>, data: Option<seq<Byte>>)
    ensures var r := BuildWidgetData(Slider, style, params, data).value;
            var a, b, c := GetF64(params, style, "minValue"), GetF64(params, style, "min_value"),
                           GetF64(params, style, "min");
            && (a.Some? ==> r.min == a.value)
            && (a.None? && b.Some? ==> r.min == b.value)
            && (a.None? && b.None? && c.Some? ==> r.min == c.value)
            && (a.None? && b.None? && c.None? ==> r.min == 0.0)
  {
  }

  /** For every key, a parameter value beats a style value of the same key. */
  lemma ParamsTakePrecedence(style: Option<JsonObject>, params: JsonObject, key: string, v: JsonValue)
    requires key in params && params[key] == v
    ensures v.JStr? ==> GetString(Some(params), style, key) == Some(v.str)
    ensures v.JBool? ==> GetBool(Some(params), style, key) == Some(v.b)
    ensures v.JNum? ==> GetF64(Some(params), style, key) == Some(v.num)
  {
  }

  // ----- Messages and commands -----

  /** The messages the client sends in this revision. */
  datatype ClientMessage =
    | SetTitleMsg(title: string)
    | CreateWidgetMsg(id: string, kind: string, parentId: Option<string>, initialText: Option<string>,
                      styleJson: Option<string>, paramsJson: Option<string>, data: Option<seq<Byte>>)
    | RemoveWidgetMsg(id: string)
    | SetWidgetTextMsg(id: string, text: string)
    | SetWidgetVisibleMsg(id: string, visible: bool)
    | SetWidgetStyleMsg(id: string, styleText: string)
    | SetStylePropertyMsg(id: string, property: string, value: string)
    | SetWidgetValueMsg(id: string, amount: real)
    | SetWidgetCheckedMsg(id: string, checked: bool)
    | ResizeWindowMsg(width: Events.U32, height: Events.U32)
    | CloseWindowMsg
    | ExitAppMsg
    | SetImageDataMsg(id: string, bytes: seq<Byte>)

  /** The commands the UI thread executes in this revision. */
  datatype ClientCommand =
    | SetTitle(title: string)
    | CreateWidget(id: string, kind: WidgetKind, parentId: Option<string>, initialText: Option<string>,
                   initialStyle: Option<BoxStyle>, data: Option<WidgetData>)
    | RemoveWidget(id: string)
    | SetWidgetText(id: string, text: string)
    | SetWidgetVisible(id: string, visible: bool)
    | SetWidgetStyle(id: string, style: BoxStyle)
    | SetStyleProperty(id: string, property: string, value: string)
    | SetWidgetValue(id: string, amount: real)
    | SetWidgetChecked(id: string, checked: bool)
    | ResizeWindow(width: Events.U32, height: Events.U32)
    | CloseWindow
    | ExitApp
    | SetImageData(id: string, bytes: seq<Byte>)

  /** JSON decoding is outside the model: the style record decoder and the
    * generic object reader are supplied by the caller. */
  datatype JsonDecoders = JsonDecoders(style: string -> Option<BoxStyle>, document: string -> Option<JsonObject>)

  function Decode<T>(text: Option<string>, f: string -> Option<T>): Option<T> {
    if text.Some? then f(text.value) else None
  }

  /** `handle_client_message`: always a command, of the same name, with its
    * fields unchanged; a style that does not decode is the default style
    * when restyling and no style when creating. */
  function HandleClientMessage(message: ClientMessage, json: JsonDecoders): (r: Option<ClientCommand>)
    ensures r.Some?
    ensures message.SetWidgetStyleMsg? ==>
              r.value == SetWidgetStyle(message.id, json.style(message.styleText).GetOr(DefaultStyle))
    ensures message.CreateWidgetMsg? ==>
              var kind := ParseWidgetKind(message.kind);
              r.value == CreateWidget(message.id, kind, message.parentId, message.initialText,
                                      Decode(message.styleJson, json.style),
                                      BuildWidgetData(kind, Decode(message.styleJson, json.document),
                                                      Decode(message.paramsJson, json.document), message.data))
  {
    match message
    case SetTitleMsg(title) => Some(SetTitle(title))
    case CreateWidgetMsg(id, kind, parentId, text, styleJson, paramsJson, data) =>
      var parsedKind := ParseWidgetKind(kind);
      var widgetData := BuildWidgetData(parsedKind, Decode(styleJson, json.document),
                                        Decode(paramsJson, json.document), data);
      Some(CreateWidget(id, parsedKind, parentId, text, Decode(styleJson, json.style), widgetData))
    case RemoveWidgetMsg(id) => Some(RemoveWidget(id))
    case SetWidgetTextMsg(id, text) => Some(SetWidgetText(id, text))
    case SetWidgetVisibleMsg(id, visible) => Some(SetWidgetVisible(id, visible))
    case SetWidgetStyleMsg(id, styleText) => Some(SetWidgetStyle(id, json.style(styleText).GetOr(DefaultStyle)))
    case SetStylePropertyMsg(id, property, value) => Some(SetStyleProperty(id, property, value))
    case SetWidgetValueMsg(id, amount) => Some(SetWidgetValue(id, amount))
    case SetWidgetCheckedMsg(id, checked) => Some(SetWidgetChecked(id, checked))
    case ResizeWindowMsg(width, height) => Some(ResizeWindow(width, height))
    case CloseWindowMsg => Some(CloseWindow)
    case ExitAppMsg => Some(ExitApp)
    case SetImageDataMsg(id, bytes) => Some(SetImageData(id, bytes))
  }

  /** The message a forwarding command came from. */
  function MessageOf(c: ClientCommand): Option<ClientMessage> {
    match c
    case SetTitle(title) => Some(SetTitleMsg(title))
    case RemoveWidget(id) => Some(RemoveWidgetMsg(id))
    case SetWidgetText(id, text) => Some(SetWidgetTextMsg(id, text))
    case SetWidgetVisible(id, visible) => Some(SetWidgetVisibleMsg(id, visible))
    case SetStyleProperty(id, property, value) => Some(SetStylePropertyMsg(id, property, value))
    case SetWidgetValue(id, amount) => Some(SetWidgetValueMsg(id, amount))
    case SetWidgetChecked(id, checked) => Some(SetWidgetCheckedMsg(id, checked))
    case ResizeWindow(width, height) => Some(ResizeWindowMsg(width, height))
    case CloseWindow => Some(CloseWindowMsg)
    case ExitApp => Some(ExitAppMsg)
    case SetImageData(id, bytes) => Some(SetImageDataMsg(id, bytes))
    case _ => None
  }

  /** Every message other than create and restyle is carried over field for
    * field: it is recovered from its command. */
  lemma ForwardedFieldsUnchanged(message: ClientMessage, json: JsonDecoders)
    requires !message.CreateWidgetMsg? && !message.SetWidgetStyleMsg?
    ensures MessageOf(HandleClientMessage(message, json).value) == Some(message)
  {
    match message {
      case SetTitleMsg(_) =>
      case RemoveWidgetMsg(_) =>
      case SetWidgetTextMsg(_, _) =>
      case SetWidgetVisibleMsg(_, _) =>
      case SetStylePropertyMsg(_, _, _) =>
      case SetWidgetValueMsg(_, _) =>
      case SetWidgetCheckedMsg(_, _) =>
      case ResizeWindowMsg(_, _) =>
      case CloseWindowMsg =>
      case ExitAppMsg =>
      case SetImageDataMsg(_, _) =>
    }
  }

  // ----- Messages to the client -----

  datatype ServerMessage =
    | UiEventMsg(event: Events.UiEvent)
    | RuntimeErrorMsg(source: string, message: string, fatal: bool)
    | Shutdown

  /** `runtime_error_from_ui_event`: a runtime error becomes the dedicated
    * message with the same fields; any other event is wrapped. */
  function RuntimeErrorFromUiEvent(event: Events.UiEvent): (r: ServerMessage)
    ensures event.RuntimeError? <==> r.RuntimeErrorMsg?
    ensures !r.Shutdown?
  {
    match event
    case RuntimeError(source, message, fatal) => RuntimeErrorMsg(source, message, fatal)
    case other => UiEventMsg(other)
  }

  /** The event a message to the client carries. */
  function EventOf(m: ServerMessage): Option<Events.UiEvent> {
    match m
    case UiEventMsg(e) => Some(e)
    case RuntimeErrorMsg(source, message, fatal) => Some(Events.RuntimeError(source, message, fatal))
    case Shutdown => None
  }

  /** No event is lost or altered on its way to the client. */
  lemma EventRoundTrip(event: Events.UiEvent)
    ensures EventOf(RuntimeErrorFromUiEvent(event)) == Some(event)
  {
  }
}
