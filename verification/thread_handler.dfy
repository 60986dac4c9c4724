/** `handle_js_command` of the `ui_thread` revision. It makes the same edits
  * as the `ui` revision's handler for most commands, but reports nothing to
  * the script thread (its diagnostics are console output), styles fewer
  * kinds, and turns a property setting into a style with the script-side
  * style parser instead of a JSON round trip. */
module ThreadHandler {
  import opened Common
  import opened Kinds
  import opened StyleTypes
  import opened Registry
  import opened Toolkit
  import opened Constructors
  import opened Creation
  import opened Handler
  import Events
  import Server
  import StyleParser

  /** The commands the `ui_thread` revision receives. */
  datatype JsCommand =
    | SetTitle(title: string)
    | CreateWidget(id: string, kind: WidgetKind, parentId: Option<string>, initialText: Option<string>,
                   initialStyle: Option<BoxStyle>, data: Option<WidgetData>)
    | RemoveWidget(id: string)
    | SetWidgetText(id: string, text: string)
    | SetWidgetVisible(id: string, visible: bool)
    | SetWidgetStyle(id: string, style: BoxStyle)
    | SetStyleProperty(id: string, property: string, value: string)
    | SetWidgetValue(id: string, amount: real)
    | SetWidgetChecked(id: string, checked: bool)
    | ResizeWindow(width: Events.U32, height: Events.U32)
    | CloseWindow
    | ExitApp
    | SetImageData(id: string, bytes: seq<Byte>)

  /** The style edits this revision makes: no arm for sized boxes or images. */
  function ThreadStyleEdits(kind: WidgetKind, target: nat, style: BoxStyle): (r: Option<seq<NativeOp>>)
    ensures r.Some? <==> StyleEdits(kind, target, style).Some? && !kind.SizedBox? && !kind.Image?
    ensures r.Some? ==> r == StyleEdits(kind, target, style) && r.value != []
  {
    if kind.SizedBox? || kind.Image? then None else StyleEdits(kind, target, style)
  }

  /** A value is passed to the style parser quoted, unless it already starts
    * with a double quote. */
  function QuoteValue(value: string): (r: string)
    ensures StartsWith(r, "\"")
    ensures StartsWith(value, "\"") ==> r == value
    ensures !StartsWith(value, "\"") ==> r == "\"" + value + "\""
  {
    if StartsWith(value, "\"") then value else "\"" + value + "\""
  }

  /** The style a property setting stands for: the all-absent style with that
    * one property set by the script-side parser. */
  function ThreadPropertyStyle(property: string, value: string, numbers: NumberParsers): (r: BoxStyle)
    ensures StyleParser.FieldOfKey(property).None? ==> r == DefaultStyle
    ensures StyleParser.FieldOfKey(property).Some? ==>
              SameExcept(DefaultStyle, r, StyleParser.FieldOfKey(property).value)
  {
    StyleParser.ApplyStyleProperty(DefaultStyle, property, QuoteValue(value), numbers).0
  }

  /** The quoted form of a plain value loses exactly its quotes under
    * trimming and `trim_matches('"')`, and unquotes to the value. */
  lemma QuotedPlain(value: string)
    requires '"' !in value && '\\' !in value
    ensures QuoteValue(value) == "\"" + value + "\""
    ensures Trim(QuoteValue(value)) == QuoteValue(value)
    ensures TrimChar(QuoteValue(value), '"') == value
    ensures StyleParser.Unquote(QuoteValue(value)) == value
  {
    var q := "\"" + value + "\"";
    if value != [] {
      assert value[0] != '"';
    }
    assert !StartsWith(value, "\"");
    TrimNoop(q);
    StyleParser.UnquoteQuoted(value);
    assert q[1..] == value + "\"";
    if value == [] {
      assert TrimStartChar(q, '"') == [];
    } else {
      assert TrimStartChar(q, '"') == value + "\"";
      assert (value + "\"")[..|value|] == value;
      assert TrimEndChar(value + "\"", '"') == TrimEndChar(value, '"');
      assert value[|value| - 1] != '"';
    }
  }

  /** A plain value (no quotes, no backslashes) reaches the parser in
    * quotes: colours and keywords read the value as it is, the font family
    * is the value itself, numbers read the value, and a flag is set only by
    * the exact words `true` and `false`, since the quotes keep any
    * surrounding whitespace from being trimmed. */
  lemma PlainPropertyValues(property: string, value: string, numbers: NumberParsers)
    requires '"' !in value && '\\' !in value
    ensures StyleParser.FieldOfKey(property) == Some(ColorField) ==>
              ThreadPropertyStyle(property, value, numbers).color == Colors.Parse(value, numbers)
    ensures StyleParser.FieldOfKey(property) == Some(BackgroundField) ==>
              ThreadPropertyStyle(property, value, numbers).background == Colors.Parse(value, numbers)
    ensures StyleParser.FieldOfKey(property) == Some(BorderColorField) ==>
              ThreadPropertyStyle(property, value, numbers).borderColor == Colors.Parse(value, numbers)
    ensures StyleParser.FieldOfKey(property) == Some(UnderlineField) ==>
              ThreadPropertyStyle(property, value, numbers).underline
              == (if value == "true" then Some(true) else if value == "false" then Some(false) else None)
    ensures StyleParser.FieldOfKey(property) == Some(StrikethroughField) ==>
              ThreadPropertyStyle(property, value, numbers).strikethrough
              == (if value == "true" then Some(true) else if value == "false" then Some(false) else None)
    ensures StyleParser.FieldOfKey(property) == Some(MustFillField) ==>
              ThreadPropertyStyle(property, value, numbers).mustFillMainAxis
              == (if value == "true" then Some(true) else if value == "false" then Some(false) else None)
    ensures StyleParser.FieldOfKey(property) == Some(FontStyleField) ==>
              ThreadPropertyStyle(property, value, numbers).fontStyle == StyleParser.FontStyleOf(ToLower(value))
    ensures StyleParser.FieldOfKey(property) == Some(TextAlignField) ==>
              ThreadPropertyStyle(property, value, numbers).textAlign == StyleParser.TextAlignOf(ToLower(value))
    ensures StyleParser.FieldOfKey(property) == Some(DirectionField) ==>
              ThreadPropertyStyle(property, value, numbers).direction == StyleParser.DirectionOf(ToLower(value))
    ensures StyleParser.FieldOfKey(property) == Some(CrossAxisField) ==>
              ThreadPropertyStyle(property, value, numbers).crossAxisAlignment
              == StyleParser.CrossAlignOf(ToLower(value))
    ensures StyleParser.FieldOfKey(property) == Some(MainAxisField) ==>
              ThreadPropertyStyle(property, value, numbers).mainAxisAlignment
              == StyleParser.MainAlignAsWritten(ToLower(value))
    ensures StyleParser.FieldOfKey(property) == Some(FontFamilyField) ==>
              ThreadPropertyStyle(property, value, numbers).fontFamily == Some(value)
    ensures StyleParser.FieldOfKey(property) == Some(FontSizeField) ==>
              ThreadPropertyStyle(property, value, numbers).fontSize == numbers.f32(value)
    ensures StyleParser.FieldOfKey(property) == Some(WidthField) ==>
              ThreadPropertyStyle(property, value, numbers).width == numbers.f64(value)
    ensures StyleParser.FieldOfKey(property) == Some(HeightField) ==>
              ThreadPropertyStyle(property, value, numbers).height == numbers.f64(value)
    ensures StyleParser.FieldOfKey(property) == Some(LetterSpacingField) ==>
              ThreadPropertyStyle(property, value, numbers).letterSpacing == numbers.f32(value)
    ensures StyleParser.FieldOfKey(property) == Some(LineHeightField) ==>
              ThreadPropertyStyle(property, value, numbers).lineHeight == numbers.f32(value)
    ensures StyleParser.FieldOfKey(property) == Some(WordSpacingField) ==>
              ThreadPropertyStyle(property, value, numbers).wordSpacing == numbers.f32(value)
    ensures StyleParser.FieldOfKey(property) == Some(BorderWidthField) ==>
              ThreadPropertyStyle(property, value, numbers).borderWidth == numbers.f64(value)
    ensures StyleParser.FieldOfKey(property) == Some(CornerRadiusField) ==>
              ThreadPropertyStyle(property, value, numbers).cornerRadius == numbers.f64(value)
    ensures StyleParser.FieldOfKey(property) == Some(FlexField) ==>
              ThreadPropertyStyle(property, value, numbers).flex == numbers.f64(value)
    ensures StyleParser.FieldOfKey(property) == Some(GapField) ==>
              ThreadPropertyStyle(property, value, numbers).gap == numbers.f64(value)
    ensures StyleParser.FieldOfKey(property) == Some(FontWeightField) ==>
              ThreadPropertyStyle(property, value, numbers).fontWeight
              == numbers.f32(value).OrElse(StyleParser.FontWeightOf(ToLower(value)))
    ensures StyleParser.FieldOfKey(property) == Some(PaddingField) ==>
              ThreadPropertyStyle(property, value, numbers).padding
              == match numbers.f64(value)
                 case Some(v) => Some(Uniform(v))
                 case None =>
                   if ',' in value then StyleParser.PaddingFromParts(StyleParser.NumbersOf(SplitChar(value, ','), numbers))
                   else None
  {
    QuotedPlain(value);
    StyleParser.ApplyStyleValue(DefaultStyle, property, QuoteValue(value), numbers);
  }

  /** Quoting is idempotent, so a value sent bare and the same value sent in
    * quotes set the same style. */
  lemma BareAndQuotedAgree(property: string, value: string, numbers: NumberParsers)
    requires !StartsWith(value, "\"")
    ensures ThreadPropertyStyle(property, value, numbers)
            == ThreadPropertyStyle(property, "\"" + value + "\"", numbers)
  {
    var q := "\"" + value + "\"";
    assert q[..1] == "\"";
    assert QuoteValue(q) == q == QuoteValue(value);
  }

  /** The added quotes never reach a numeric property: the number text drops
    * every quote at either end, so quoting leaves it unchanged. */
  lemma {:induction false} QuotingKeepsNumbers(value: string)
    ensures StyleParser.NumberText(QuoteValue(value)) == StyleParser.NumberText(value)
  {
    if !StartsWith(value, "\"") {
      var q := "\"" + value + "\"";
      assert q[0] == '"' && q[1..] == value + "\"";
      assert TrimStartChar(q, '"') == TrimStartChar(value + "\"", '"');
      TrimStartKeepsSuffix(value, '"');
      var t := TrimStartChar(value, '"');
      if t == [] {
        TrimStartAllQuotes(value, '"');
        assert TrimStartChar(value + "\"", '"') == [];
      } else {
        assert TrimStartChar(value + "\"", '"') == t + "\"";
        assert (t + "\"")[..|t + "\""| - 1] == t;
        assert TrimEndChar(t + "\"", '"') == TrimEndChar(t, '"');
      }
    }
  }

  /** Removing leading `c`s from `s + [c]` removes the same prefix of `s`,
    * unless `s` consists only of `c`s. */
  lemma {:induction false} TrimStartKeepsSuffix(s: string, c: char)
    ensures TrimStartChar(s, c) != [] ==> TrimStartChar(s + [c], c) == TrimStartChar(s, c) + [c]
    decreases |s|
  {
    if s != [] && s[0] == c {
      assert (s + [c])[1..] == s[1..] + [c];
      TrimStartKeepsSuffix(s[1..], c);
    }
  }

  /** A string of only `c`s followed by one more `c` trims to nothing. */
  lemma {:induction false} TrimStartAllQuotes(s: string, c: char)
    requires TrimStartChar(s, c) == []
    ensures TrimStartChar(s + [c], c) == []
    decreases |s|
  {
    if s == [] {
      assert [c][1..] == [];
    } else {
      assert s[0] == c;
      assert (s + [c])[1..] == s[1..] + [c];
      TrimStartAllQuotes(s[1..], c);
    }
  }

  /** The edits a command makes, for the commands that leave the registry
    * alone. */
  function ThreadEdits(cmd: JsCommand, w: Widgets, numbers: NumberParsers, decode: seq<Byte> -> Option<Pixels>)
    : seq<NativeOp>
    requires !cmd.CreateWidget? && !cmd.RemoveWidget?
  {
    match cmd
    case SetTitle(title) => [Signal(WindowSignal.SetTitle(title))]
    case SetWidgetText(id, text) => TextEffect(w, id, text).edits
    case SetWidgetValue(id, amount) => ValueEffect(w, id, amount).edits
    case SetWidgetChecked(id, checked) => CheckedEffect(w, id, checked).edits
    case SetWidgetStyle(id, style) => ThreadStyleEffect(w, id, style)
    case SetStyleProperty(id, property, value) => ThreadStyleEffect(w, id, ThreadPropertyStyle(property, value, numbers))
    case SetWidgetVisible(_, _) => []
    case ResizeWindow(width, height) => [Signal(SetSize(width, height))]
    case CloseWindow => [Signal(Exit)]
    case ExitApp => [Signal(Exit)]
    case SetImageData(id, bytes) => ImageEffect(w, id, bytes, decode).edits
  }

  function ThreadStyleEffect(w: Widgets, id: string, style: BoxStyle): seq<NativeOp> {
    if id == RootKey then [ApplyFlexStyle(RootFlex, style)]
    else if id !in w then []
    else ThreadStyleEdits(w[id].kind, w[id].widgetId, style).GetOr([])
  }

  /** The same command for the `ui` revision, for the commands both have. */
  function AsClientCommand(cmd: JsCommand): Server.ClientCommand {
    match cmd
    case SetTitle(title) => Server.SetTitle(title)
    case CreateWidget(id, kind, parentId, text, style, data) => Server.CreateWidget(id, kind, parentId, text, style, data)
    case RemoveWidget(id) => Server.RemoveWidget(id)
    case SetWidgetText(id, text) => Server.SetWidgetText(id, text)
    case SetWidgetVisible(id, visible) => Server.SetWidgetVisible(id, visible)
    case SetWidgetStyle(id, style) => Server.SetWidgetStyle(id, style)
    case SetStyleProperty(id, property, value) => Server.SetStyleProperty(id, property, value)
    case SetWidgetValue(id, amount) => Server.SetWidgetValue(id, amount)
    case SetWidgetChecked(id, checked) => Server.SetWidgetChecked(id, checked)
    case ResizeWindow(width, height) => Server.ResizeWindow(width, height)
    case CloseWindow => Server.CloseWindow
    case ExitApp => Server.ExitApp
    case SetImageData(id, bytes) => Server.SetImageData(id, bytes)
  }

  /** The two revisions make the same edits for every command except a
    * property setting (parsed differently) and a style for a sized box or an
    * image, which this revision ignores; where they differ, this revision
    * makes no edit at all. */
  lemma RevisionsAgree(cmd: JsCommand, w: Widgets, c: Collaborators)
    requires !cmd.CreateWidget? && !cmd.RemoveWidget? && !cmd.SetStyleProperty?
    ensures var styleIgnored := cmd.SetWidgetStyle? && cmd.id != RootKey && cmd.id in w
                                && (w[cmd.id].kind.SizedBox? || w[cmd.id].kind.Image?);
            && (!styleIgnored ==>
                  ThreadEdits(cmd, w, c.numbers, c.decodeImage) == CommandEffect(AsClientCommand(cmd), w, c).edits)
            && (styleIgnored ==> ThreadEdits(cmd, w, c.numbers, c.decodeImage) == [])
  {
    match cmd
    case SetWidgetStyle(id, style) =>
      if id != RootKey && id in w && !(w[id].kind.SizedBox? || w[id].kind.Image?) {
        var e := StyleEdits(w[id].kind, w[id].widgetId, style);
        if e.None? {
          assert ThreadStyleEdits(w[id].kind, w[id].widgetId, style).None?;
        }
      }
    case _ =>
  }

  /** A property setting this revision's parser does not know styles nothing
    * beyond the all-absent style; one it knows sets only that property. */
  lemma UnknownPropertyIsDefault(id: string, property: string, value: string, w: Widgets, c: Collaborators)
    requires StyleParser.FieldOfKey(property).None?
    ensures ThreadEdits(SetStyleProperty(id, property, value), w, c.numbers, c.decodeImage)
            == ThreadEdits(SetWidgetStyle(id, DefaultStyle), w, c.numbers, c.decodeImage)
  {
  }

  method TextCommand(root: RenderRoot, manager: WidgetManager, id: string, text: string)
    modifies root
    ensures root.ops == old(root.ops) + TextEffect(manager.widgets, id, text).edits
  {
    if id !in manager.widgets {
      return;
    }
    var info := manager.widgets[id];
    match info.kind {
      case Label => root.Edit(SetLabelText(info.widgetId, text));
      case Prose => root.Edit(ResetProseText(info.widgetId, text));
      case TextInput => root.Edit(ResetInputText(info.widgetId, text));
      case Svg => root.Edit(SetSvgSource(info.widgetId, text));
      case _ =>
    }
  }

  method ValueCommand(root: RenderRoot, manager: WidgetManager, id: string, value: real)
    modifies root
    ensures root.ops == old(root.ops) + ValueEffect(manager.widgets, id, value).edits
  {
    if id !in manager.widgets {
      return;
    }
    var info := manager.widgets[id];
    match info.kind {
      case ProgressBar => root.Edit(SetProgress(info.widgetId, Some(value)));
      case Slider => root.Edit(SetSliderValue(info.widgetId, value));
      case _ =>
    }
  }

  method StyleCommand(root: RenderRoot, manager: WidgetManager, id: string, style: BoxStyle)
    modifies root
    ensures root.ops == old(root.ops) + ThreadStyleEffect(manager.widgets, id, style)
  {
    if id == RootKey {
      root.Edit(ApplyFlexStyle(RootFlex, style));
      return;
    }
    if id !in manager.widgets {
      return;
    }
    var info := manager.widgets[id];
    var wid := info.widgetId;
    match info.kind {
      case Label => StyleLabel(root, wid, style);
      case Button =>
        root.Edit(ApplyBoxStyle(wid, style));
        root.Edit(ApplyFlexStyle(ButtonRowById(wid), style));
      case Svg => root.Edit(ApplyBoxStyle(wid, style));
      case Flex => root.Edit(ApplyFlexStyle(FlexById(wid), style));
      case Container => root.Edit(ApplyFlexStyle(FlexById(wid), style));
      case ProgressBar => root.Edit(ApplyBoxStyle(wid, style));
      case Slider => root.Edit(ApplyBoxStyle(wid, style));
      case _ =>
    }
  }

  /** The removal of this revision: the same tree edits as the `ui`
    * revision's, with nothing reported. */
  method RemoveCommand(root: RenderRoot, manager: WidgetManager, id: string)
    modifies root, manager
    ensures root.ops == old(root.ops) + RemovalEffect(old(manager.widgets), id).edits
    ensures Removed(old(manager.widgets), old(manager.childCounts), manager.widgets, manager.childCounts, id)
  {
    if id !in manager.widgets {
      return;
    }
    var info := manager.widgets[id];
    var parentKey := info.parentId.GetOr(RootKey);
    assert ParentKey(info) == parentKey by {
      assert ParentMatches(info, parentKey);
    }
    var siblingCount := manager.CurrentChildCount(parentKey);
    if siblingCount == 0 {
      var _ := manager.RemoveWidgetSubtree(id);
      return;
    }
    var safeIndex := if info.childIndex < siblingCount then info.childIndex else siblingCount - 1;
    var removal := if parentKey == RootKey || parentKey in manager.widgets
                   then ChildRemoval(manager.widgets, parentKey, safeIndex) else None;
    if removal.Some? {
      root.Edit(removal.value);
    }
    var _ := manager.RemoveWidgetSubtree(id);
  }

  /** `handle_js_command`. */
  method HandleJsCommand(cmd: JsCommand, root: RenderRoot, manager: WidgetManager, ids: IdAllocator,
                         numbers: NumberParsers, decode: seq<Byte> -> Option<Pixels>)
    modifies root, manager, ids
    decreases if cmd.SetStyleProperty? then 1 else 0
    ensures cmd.CreateWidget? ==>
              Created(old(manager.widgets), old(manager.childCounts), old(root.ops), old(ids.next),
                      manager.widgets, manager.childCounts, root.ops, ids.next,
                      cmd.id, cmd.kind, cmd.parentId, cmd.initialText, cmd.initialStyle, cmd.data, decode)
    ensures cmd.RemoveWidget? ==>
              && root.ops == old(root.ops) + RemovalEffect(old(manager.widgets), cmd.id).edits
              && Removed(old(manager.widgets), old(manager.childCounts), manager.widgets, manager.childCounts, cmd.id)
              && ids.next == old(ids.next)
    ensures !cmd.CreateWidget? && !cmd.RemoveWidget? ==>
              && manager.widgets == old(manager.widgets) && manager.childCounts == old(manager.childCounts)
              && ids.next == old(ids.next)
              && root.ops == old(root.ops) + ThreadEdits(cmd, old(manager.widgets), numbers, decode)
  {
    match cmd {
      case SetTitle(title) => root.Edit(Signal(WindowSignal.SetTitle(title)));
      case CreateWidget(id, kind, parentId, text, style, data) =>
        CreateAndAddWidget(root, manager, ids, id, kind, parentId, text, style, data, decode);
      case SetWidgetText(id, text) => TextCommand(root, manager, id, text);
      case SetWidgetValue(id, amount) => ValueCommand(root, manager, id, amount);
      case SetWidgetChecked(id, checked) =>
        if id in manager.widgets && manager.widgets[id].kind == Checkbox {
          root.Edit(SetCheckboxChecked(manager.widgets[id].widgetId, checked));
        }
      case SetWidgetStyle(id, style) => StyleCommand(root, manager, id, style);
      case SetStyleProperty(id, property, value) =>
        var style := DefaultStyle;
        var quoted := QuoteValue(value);
        style := StyleParser.ApplyStyleProperty(style, property, quoted, numbers).0;
        HandleJsCommand(SetWidgetStyle(id, style), root, manager, ids, numbers, decode);
      case SetWidgetVisible(_, _) =>
      case RemoveWidget(id) => RemoveCommand(root, manager, id);
      case ResizeWindow(width, height) => root.Edit(Signal(SetSize(width, height)));
      case CloseWindow => root.Edit(Signal(Exit));
      case ExitApp => root.Edit(Signal(Exit));
      case SetImageData(id, bytes) =>
        if id in manager.widgets && manager.widgets[id].kind == Image {
          UpdateImageData(root, manager.widgets[id].widgetId, bytes, decode);
        }
    }
  }
}
