/** `handle_client_command` of the `ui` revision: one command from the script
  * process, applied to the live widget tree and the registry. Commands the
  * tree cannot carry out are answered with a non-fatal runtime error sent
  * back to the script thread.
  *
  * Every command except creation and removal leaves the registry alone; its
  * effect is given by a pure function of the command and the registry
  * (`CommandEffect`): the edits made to the tree and the errors reported. */
module Handler {
  import opened Common
  import opened Kinds
  import opened StyleTypes
  import opened Styles
  import opened Registry
  import opened Toolkit
  import opened Constructors
  import opened Creation
  import Events
  import Server

  /** The source named in every error this handler reports. */
  const ReportSource := "ui-handler"

  /** `report_runtime_error` as this handler calls it: never fatal. */
  function Report(message: string): (e: Events.UiEvent)
    ensures e.RuntimeError? && e.source == ReportSource && e.message == message && !e.fatal
  {
    Events.RuntimeError(ReportSource, message, false)
  }

  /** The channel to the script thread, observed through what was sent on it. */
  class EventSink {
    var sent: seq<Events.UiEvent>

    constructor ()
      ensures sent == []
    {
      sent := [];
    }

    method Send(e: Events.UiEvent)
      modifies this
      ensures sent == old(sent) + [e]
    {
      sent := sent + [e];
    }
  }

  /** What a command does besides changing the registry. */
  datatype Effect = Effect(edits: seq<NativeOp>, reports: seq<Events.UiEvent>)

  /** What the handler depends on but does not define: number parsing, the
    * JSON validity check, the style record decoder fed a one-property object,
    * and the image decoder. */
  datatype Collaborators = Collaborators(
    numbers: NumberParsers,
    isJson: string -> bool,
    styleOfProperty: (string, PropertyValue) -> Option<BoxStyle>,
    decodeImage: seq<Byte> -> Option<Pixels>)

  // ----- Messages -----

  function NotFound(id: string, command: string): string {
    "Widget '" + id + "' not found for " + command
  }

  function NotSupported(command: string, kind: WidgetKind, id: string): string {
    command + " on " + DebugName(kind) + " is not supported for widget '" + id + "'"
  }

  const ButtonTextMessage := "SetWidgetText on Button is not supported. Use a child label widget instead."

  function StyleNotSupported(kind: WidgetKind, id: string): string {
    "SetWidgetStyle was not fully supported for " + DebugName(kind) + " widget '" + id + "'"
  }

  function VisibleNotImplemented(id: string, visible: bool): string {
    "SetWidgetVisible is not implemented for widget '" + id + "' (requested visible="
      + (if visible then "true" else "false") + ")"
  }

  function NoSiblings(id: string, parentKey: string): string {
    "RemoveWidget for '" + id + "' found no siblings under parent '" + parentKey + "'; metadata was synced only"
  }

  function StaleIndex(id: string, childIndex: nat, parentKey: string): string {
    "RemoveWidget for '" + id + "' had stale index " + NatToString(childIndex)
      + "; clamped within parent '" + parentKey + "'"
  }

  function NoChildRemoval(parentKey: string, kind: WidgetKind, id: string): string {
    "Parent '" + parentKey + "' of kind " + DebugName(kind) + " does not support child removal for '" + id + "'"
  }

  function ParentMissing(parentKey: string, id: string): string {
    "Parent widget '" + parentKey + "' not found for RemoveWidget '" + id + "'; metadata was synced only"
  }

  // ----- What each kind supports -----

  /** The text edit a kind takes: labels, prose, text inputs and SVG pictures
    * (whose text is their markup). */
  function TextEdit(kind: WidgetKind, target: nat, text: string): (r: Option<NativeOp>)
    ensures r.Some? <==> kind.Label? || kind.Prose? || kind.TextInput? || kind.Svg?
  {
    match kind
    case Label => Some(SetLabelText(target, text))
    case Prose => Some(ResetProseText(target, text))
    case TextInput => Some(ResetInputText(target, text))
    case Svg => Some(SetSvgSource(target, text))
    case _ => None
  }

  /** The value edit a kind takes: a progress bar's progress or a slider's
    * position. */
  function ValueEdit(kind: WidgetKind, target: nat, value: real): (r: Option<NativeOp>)
    ensures r.Some? <==> kind.ProgressBar? || kind.Slider?
  {
    match kind
    case ProgressBar => Some(SetProgress(target, Some(value)))
    case Slider => Some(SetSliderValue(target, value))
    case _ => None
  }

  /** One label style insertion per text property of `style`, in order. */
  function LabelStyleEdits(target: nat, style: BoxStyle): (r: seq<NativeOp>)
    ensures |r| == |TextStyles(style)|
    ensures forall i :: 0 <= i < |r| ==> r[i] == InsertLabelStyle(target, TextStyles(style)[i])
  {
    LabelInsertions(target, TextStyles(style))
  }

  /** One label-style insertion per entry of `ts`, in order. */
  function LabelInsertions(target: nat, ts: seq<TextProperty>): (r: seq<NativeOp>)
    ensures |r| == |ts|
    ensures forall i :: 0 <= i < |r| ==> r[i] == InsertLabelStyle(target, ts[i])
  {
    seq(|ts|, i requires 0 <= i < |ts| => InsertLabelStyle(target, ts[i]))
  }

  /** The style edits a kind takes; an image takes none and says nothing. */
  function StyleEdits(kind: WidgetKind, target: nat, style: BoxStyle): (r: Option<seq<NativeOp>>)
    ensures r.Some? <==> kind.Label? || kind.Button? || kind.Svg? || kind.Flex? || kind.Container?
                         || kind.ProgressBar? || kind.Slider? || kind.SizedBox? || kind.Image?
    ensures r == Some([]) <==> kind.Image?
  {
    match kind
    case Label => Some(LabelStyleEdits(target, style) + [ApplyBoxStyle(target, style)])
    case Button => Some([ApplyBoxStyle(target, style), ApplyFlexStyle(ButtonRowById(target), style)])
    case Svg => Some([ApplyBoxStyle(target, style)])
    case Flex => Some([ApplyFlexStyle(FlexById(target), style)])
    case Container => Some([ApplyFlexStyle(FlexById(target), style)])
    case ProgressBar => Some([ApplyBoxStyle(target, style)])
    case Slider => Some([ApplyBoxStyle(target, style)])
    case SizedBox => Some([ApplyBoxStyle(target, style)])
    case Image => Some([])
    case _ => None
  }

  // ----- Effects of the commands that leave the registry alone -----

  function TextEffect(w: Widgets, id: string, text: string): Effect {
    if id !in w then Effect([], [Report(NotFound(id, "SetWidgetText"))])
    else
      var info := w[id];
      match TextEdit(info.kind, info.widgetId, text)
      case Some(op) => Effect([op], [])
      case None =>
        Effect([], [Report(if info.kind == Button then ButtonTextMessage
                           else NotSupported("SetWidgetText", info.kind, id))])
  }

  function ValueEffect(w: Widgets, id: string, value: real): Effect {
    if id !in w then Effect([], [Report(NotFound(id, "SetWidgetValue"))])
    else
      var info := w[id];
      match ValueEdit(info.kind, info.widgetId, value)
      case Some(op) => Effect([op], [])
      case None => Effect([], [Report(NotSupported("SetWidgetValue", info.kind, id))])
  }

  function CheckedEffect(w: Widgets, id: string, checked: bool): Effect {
    if id !in w then Effect([], [Report(NotFound(id, "SetWidgetChecked"))])
    else if w[id].kind == Checkbox then Effect([SetCheckboxChecked(w[id].widgetId, checked)], [])
    else Effect([], [Report(NotSupported("SetWidgetChecked", w[id].kind, id))])
  }

  /** The root key names the root flex, whatever the registry holds. */
  function StyleEffect(w: Widgets, id: string, style: BoxStyle): Effect {
    if id == RootKey then Effect([ApplyFlexStyle(RootFlex, style)], [])
    else if id !in w then Effect([], [Report(NotFound(id, "SetWidgetStyle"))])
    else
      var info := w[id];
      match StyleEdits(info.kind, info.widgetId, style)
      case Some(ops) => Effect(ops, [])
      case None => Effect([], [Report(StyleNotSupported(info.kind, id))])
  }

  /** Undecodable bytes leave an image as it was, silently. */
  function ImageEffect(w: Widgets, id: string, bytes: seq<Byte>, decode: seq<Byte> -> Option<Pixels>): Effect {
    if id !in w then Effect([], [Report(NotFound(id, "SetImageData"))])
    else if w[id].kind == Image then
      Effect(if decode(bytes).Some? then [SetImagePixels(w[id].widgetId, decode(bytes).value)] else [], [])
    else Effect([], [Report(NotSupported("SetImageData", w[id].kind, id))])
  }

  // ----- SetStyleProperty: one property as text -----

  /** The JSON value a property's text becomes. */
  datatype PropertyValue =
    | NumberValue(number: real)
    | BoolValue(flag: bool)
    | JsonText(json: string)
    | StringValue(text: string)

  /** Strips one enclosing pair of double quotes; a value that does not both
    * start and end with one (a lone quote among them) is kept whole. */
  function StripQuotePair(value: string): (r: string)
    ensures |value| >= 2 && value[0] == '"' && value[|value| - 1] == '"' ==> r == value[1..|value| - 1]
    ensures !(|value| >= 2 && value[0] == '"' && value[|value| - 1] == '"') ==> r == value
  {
    match StripPrefix(value, "\"")
    case None => value
    case Some(rest) =>
      if EndsWith(rest, "\"") then rest[..|rest| - 1] else value
  }

  /** A number first; then the two boolean words; then an object or array
    * that is valid JSON; anything else is a string. */
  function ClassifyValue(value: string, c: Collaborators): (r: PropertyValue)
    ensures c.numbers.f64(value).Some? ==> r == NumberValue(c.numbers.f64(value).value)
    ensures r.BoolValue? ==> value == (if r.flag then "true" else "false")
    ensures r.JsonText? ==> r.json == value && (StartsWith(value, "{") || StartsWith(value, "["))
    ensures r.StringValue? ==> r.text == StripQuotePair(value)
  {
    if c.numbers.f64(value).Some? then NumberValue(c.numbers.f64(value).value)
    else if value == "true" then BoolValue(true)
    else if value == "false" then BoolValue(false)
    else if (StartsWith(value, "{") || StartsWith(value, "[")) && c.isJson(value) then JsonText(value)
    else StringValue(StripQuotePair(value))
  }

  /** The style a property setting stands for: the one-property record, or
    * the all-absent style when the record decoder rejects it. */
  function PropertyStyle(property: string, value: string, c: Collaborators): (r: BoxStyle)
    ensures c.styleOfProperty(property, ClassifyValue(value, c)).None? ==> r == DefaultStyle
  {
    c.styleOfProperty(property, ClassifyValue(value, c)).GetOr(DefaultStyle)
  }

  /** A quoted text that is not a number becomes exactly the string between
    * the quotes, whatever it contains (quotes, braces, boolean words). */
  lemma QuotedTextIsString(inner: string, c: Collaborators)
    requires c.numbers.f64("\"" + inner + "\"").None?
    ensures ClassifyValue("\"" + inner + "\"", c) == StringValue(inner)
  {
    var v := "\"" + inner + "\"";
    assert v[0] == '"' && v[|v| - 1] == '"';
    assert !StartsWith(v, "{") && !StartsWith(v, "[") by {
      assert v[..1] == "\"";
    }
    assert v[1..|v| - 1] == inner;
  }

  /** A single double quote is kept as the string it is. */
  lemma LoneQuoteKept(c: Collaborators)
    requires c.numbers.f64("\"").None?
    ensures ClassifyValue("\"", c) == StringValue("\"")
  {
    assert !StartsWith("\"", "{") && !StartsWith("\"", "[") by {
      assert "\""[..1] == "\"";
    }
  }

  /** An object or array that is not valid JSON falls through to a string. */
  lemma InvalidJsonIsString(value: string, c: Collaborators)
    requires c.numbers.f64(value).None? && !c.isJson(value) && value != "true" && value != "false"
    ensures ClassifyValue(value, c) == StringValue(StripQuotePair(value))
  {
  }

  // ----- RemoveWidget -----

  /** The position removed from the parent: the record's index, or the last
    * position when the index is past the live child count. */
  function SafeIndex(childIndex: nat, siblings: nat): (r: nat)
    requires siblings > 0
    ensures r < siblings
    ensures childIndex < siblings ==> r == childIndex
    ensures childIndex >= siblings ==> r == siblings - 1
  {
    if childIndex < siblings then childIndex else siblings - 1
  }

  /** The edit that takes position `index` out of the parent named `parentKey`;
    * None for a parent kind that has no children to remove. */
  function ChildRemoval(w: Widgets, parentKey: string, index: nat): (r: Option<NativeOp>)
    requires parentKey == RootKey || parentKey in w
    ensures parentKey == RootKey ==> r == Some(RemoveFlexChild(RootFlex, index))
  {
    if parentKey == RootKey then Some(RemoveFlexChild(RootFlex, index))
    else
      var parent := w[parentKey];
      match parent.kind
      case Flex => Some(RemoveFlexChild(FlexById(parent.widgetId), index))
      case Container => Some(RemoveFlexChild(FlexById(parent.widgetId), index))
      case Button => Some(RemoveFlexChild(ButtonRowById(parent.widgetId), index))
      case SizedBox => Some(RemoveSizedBoxChild(parent.widgetId))
      case ZStack => Some(RemoveZStackChild(parent.widgetId, index))
      case _ => None
  }

  /** What removing `id` does to the tree and reports, given the registry
    * before the removal. An unregistered id does nothing. */
  function RemovalEffect(w: Widgets, id: string): Effect {
    if id !in w then Effect([], [])
    else
      var info := w[id];
      var pk := info.parentId.GetOr(RootKey);
      var n := ChildCount(w, pk);
      if n == 0 then Effect([], [Report(NoSiblings(id, pk))])
      else
        var index := SafeIndex(info.childIndex, n);
        var stale := if info.childIndex < n then [] else [Report(StaleIndex(id, info.childIndex, pk))];
        if pk != RootKey && pk !in w then Effect([], stale + [Report(ParentMissing(pk, id))])
        else match ChildRemoval(w, pk, index)
          case Some(op) => Effect([op], stale)
          case None => Effect([], stale + [Report(NoChildRemoval(pk, w[pk].kind, id))])
  }

  /** The "no siblings" branch never runs: a registered widget counts among
    * the children of its own parent key. */
  lemma RemovalAlwaysHasSiblings(w: Widgets, id: string)
    requires id in w
    ensures ChildCount(w, w[id].parentId.GetOr(RootKey)) >= 1
  {
    OwnSiblingCountPositive(w, id);
    assert ParentKey(w[id]) == w[id].parentId.GetOr(RootKey) by {
      assert ParentMatches(w[id], w[id].parentId.GetOr(RootKey));
    }
  }

  /** While the siblings are numbered 0..n-1 the clamp never fires: removal
    * under a flex-like, sized-box or stack parent, or the root, edits the
    * widget's own position and reports nothing. */
  lemma ContiguousRemovalIsExact(w: Widgets, id: string)
    requires id in w
    requires Contiguous(w, w[id].parentId.GetOr(RootKey))
    requires var pk := w[id].parentId.GetOr(RootKey);
             (pk == RootKey || pk in w) && ChildRemoval(w, pk, w[id].childIndex).Some?
    ensures RemovalEffect(w, id)
            == Effect([ChildRemoval(w, w[id].parentId.GetOr(RootKey), w[id].childIndex).value], [])
  {
    var pk := w[id].parentId.GetOr(RootKey);
    OwnSiblingCountPositive(w, id);
    assert ParentKey(w[id]) == pk by {
      assert ParentMatches(w[id], pk);
    }
    assert w[id].childIndex in Positions(w, ChildrenOf(w, pk));
  }

  // ----- The command -----

  /** The effect of every command that leaves the registry alone. */
  function CommandEffect(cmd: Server.ClientCommand, w: Widgets, c: Collaborators): Effect
    requires !cmd.CreateWidget? && !cmd.RemoveWidget?
  {
    match cmd
    case SetTitle(title) => Effect([Signal(WindowSignal.SetTitle(title))], [])
    case SetWidgetText(id, text) => TextEffect(w, id, text)
    case SetWidgetValue(id, amount) => ValueEffect(w, id, amount)
    case SetWidgetChecked(id, checked) => CheckedEffect(w, id, checked)
    case SetWidgetStyle(id, style) => StyleEffect(w, id, style)
    case SetStyleProperty(id, property, value) => StyleEffect(w, id, PropertyStyle(property, value, c))
    case SetWidgetVisible(id, visible) => Effect([], [Report(VisibleNotImplemented(id, visible))])
    case ResizeWindow(width, height) => Effect([Signal(SetSize(width, height))], [])
    case CloseWindow => Effect([Signal(Exit)], [])
    case ExitApp => Effect([Signal(Exit)], [])
    case SetImageData(id, bytes) => ImageEffect(w, id, bytes, c.decodeImage)
  }

  /** The widget a command addresses, for the commands that address one. */
  predicate AddressesWidget(cmd: Server.ClientCommand) {
    cmd.SetWidgetText? || cmd.SetWidgetValue? || cmd.SetWidgetChecked? || cmd.SetWidgetStyle?
    || cmd.SetStyleProperty? || cmd.SetImageData?
  }

  /** Every command either edits the tree or reports why it did not, never
    * both, and reports at most once; the exceptions that do neither are an
    * image given a style and an image given undecodable bytes. */
  lemma {:induction false} EditOrReport(cmd: Server.ClientCommand, w: Widgets, c: Collaborators)
    requires !cmd.CreateWidget? && !cmd.RemoveWidget?
    ensures var e := CommandEffect(cmd, w, c);
            |e.reports| <= 1 && (e.reports != [] ==> e.edits == [])
    ensures var e := CommandEffect(cmd, w, c);
            e.edits == [] && e.reports == [] ==>
              AddressesWidget(cmd) && cmd.id in w && w[cmd.id].kind == Image
              && (cmd.SetImageData? ==> c.decodeImage(cmd.bytes).None?)
  {
    match cmd
    case SetWidgetStyle(id, style) =>
      if id != RootKey && id in w {
        assert StyleEdits(w[id].kind, w[id].widgetId, style) == Some([]) ==> w[id].kind.Image?;
      }
    case SetStyleProperty(id, property, value) =>
      var style := PropertyStyle(property, value, c);
      if id != RootKey && id in w {
        assert StyleEdits(w[id].kind, w[id].widgetId, style) == Some([]) ==> w[id].kind.Image?;
      }
    case _ =>
  }

  /** A command naming an unregistered widget (other than the root key for
    * styles) edits nothing and reports that the widget was not found. */
  lemma UnknownWidgetReported(cmd: Server.ClientCommand, w: Widgets, c: Collaborators)
    requires AddressesWidget(cmd) && cmd.id !in w
    requires (cmd.SetWidgetStyle? || cmd.SetStyleProperty?) ==> cmd.id != RootKey
    ensures var command := if cmd.SetStyleProperty? then "SetWidgetStyle"
                           else if cmd.SetWidgetText? then "SetWidgetText"
                           else if cmd.SetWidgetValue? then "SetWidgetValue"
                           else if cmd.SetWidgetChecked? then "SetWidgetChecked"
                           else if cmd.SetWidgetStyle? then "SetWidgetStyle"
                           else "SetImageData";
            CommandEffect(cmd, w, c) == Effect([], [Report(NotFound(cmd.id, command))])
  {
  }

  /** Everything the handler reports is a non-fatal error from "ui-handler". */
  lemma ReportsNeverFatal(cmd: Server.ClientCommand, w: Widgets, c: Collaborators)
    requires !cmd.CreateWidget? && !cmd.RemoveWidget?
    ensures forall e :: e in CommandEffect(cmd, w, c).reports ==>
              e.RuntimeError? && e.source == ReportSource && !e.fatal
  {
  }

  /** A label's style edits insert its text properties in rank order, each
    * kind of property at most once, and then apply the box properties. */
  lemma LabelStyleOrder(w: Widgets, id: string, style: BoxStyle)
    requires id != RootKey && id in w && w[id].kind == Label
    ensures var edits := StyleEffect(w, id, style).edits;
            var ts := TextStyles(style);
            && |edits| == |ts| + 1
            && edits[|ts|] == ApplyBoxStyle(w[id].widgetId, style)
            && (forall i :: 0 <= i < |ts| ==> edits[i] == InsertLabelStyle(w[id].widgetId, ts[i]))
            && RankSorted(ts)
            && (forall i, j :: 0 <= i < |ts| && 0 <= j < |ts| && Rank(ts[i]) == Rank(ts[j]) ==> i == j)
  {
    TextStylesOrdered(style);
  }

  // ----- The handler -----

  method TextCommand(root: RenderRoot, manager: WidgetManager, sink: EventSink, id: string, text: string)
    modifies root, sink
    ensures root.ops == old(root.ops) + TextEffect(manager.widgets, id, text).edits
    ensures sink.sent == old(sink.sent) + TextEffect(manager.widgets, id, text).reports
  {
    if id !in manager.widgets {
      sink.Send(Report(NotFound(id, "SetWidgetText")));
      return;
    }
    var info := manager.widgets[id];
    match info.kind {
      case Label => root.Edit(SetLabelText(info.widgetId, text));
      case Prose => root.Edit(ResetProseText(info.widgetId, text));
      case TextInput => root.Edit(ResetInputText(info.widgetId, text));
      case Button => sink.Send(Report(ButtonTextMessage));
      case Svg => root.Edit(SetSvgSource(info.widgetId, text));
      case _ => sink.Send(Report(NotSupported("SetWidgetText", info.kind, id)));
    }
  }

  method ValueCommand(root: RenderRoot, manager: WidgetManager, sink: EventSink, id: string, value: real)
    modifies root, sink
    ensures root.ops == old(root.ops) + ValueEffect(manager.widgets, id, value).edits
    ensures sink.sent == old(sink.sent) + ValueEffect(manager.widgets, id, value).reports
  {
    if id !in manager.widgets {
      sink.Send(Report(NotFound(id, "SetWidgetValue")));
      return;
    }
    var info := manager.widgets[id];
    match info.kind {
      case ProgressBar => root.Edit(SetProgress(info.widgetId, Some(value)));
      case Slider => root.Edit(SetSliderValue(info.widgetId, value));
      case _ => sink.Send(Report(NotSupported("SetWidgetValue", info.kind, id)));
    }
  }

  method CheckedCommand(root: RenderRoot, manager: WidgetManager, sink: EventSink, id: string, checked: bool)
    modifies root, sink
    ensures root.ops == old(root.ops) + CheckedEffect(manager.widgets, id, checked).edits
    ensures sink.sent == old(sink.sent) + CheckedEffect(manager.widgets, id, checked).reports
  {
    if id !in manager.widgets {
      sink.Send(Report(NotFound(id, "SetWidgetChecked")));
      return;
    }
    var info := manager.widgets[id];
    if info.kind == Checkbox {
      root.Edit(SetCheckboxChecked(info.widgetId, checked));
    } else {
      sink.Send(Report(NotSupported("SetWidgetChecked", info.kind, id)));
    }
  }

  /** The insertion loop of the label arm. */
  method InsertLabelStyles(root: RenderRoot, target: nat, ts: seq<TextProperty>)
    modifies root
    ensures root.ops == old(root.ops) + LabelInsertions(target, ts)
  {
    ghost var edits := LabelInsertions(target, ts);
    for i := 0 to |ts|
      invariant root.ops == old(root.ops) + edits[..i]
    {
      root.Edit(InsertLabelStyle(target, ts[i]));
      assert edits[..i + 1] == edits[..i] + [edits[i]];
    }
    assert edits[..|ts|] == edits;
  }

  /** The label arm: `build_text_styles`, then one insertion per entry. */
  method StyleLabel(root: RenderRoot, target: nat, style: BoxStyle)
    modifies root
    ensures root.ops == old(root.ops) + LabelStyleEdits(target, style) + [ApplyBoxStyle(target, style)]
  {
    var textStyles := BuildTextStyles(style);
    InsertLabelStyles(root, target, textStyles);
    root.Edit(ApplyBoxStyle(target, style));
  }

  method StyleCommand(root: RenderRoot, manager: WidgetManager, sink: EventSink, id: string, style: BoxStyle)
    modifies root, sink
    ensures root.ops == old(root.ops) + StyleEffect(manager.widgets, id, style).edits
    ensures sink.sent == old(sink.sent) + StyleEffect(manager.widgets, id, style).reports
  {
    if id == RootKey {
      root.Edit(ApplyFlexStyle(RootFlex, style));
      return;
    }
    if id !in manager.widgets {
      sink.Send(Report(NotFound(id, "SetWidgetStyle")));
      return;
    }
    var info := manager.widgets[id];
    var wid := info.widgetId;
    match info.kind {
      case Label => StyleLabel(root, wid, style);
      case Button =>
        root.Edit(ApplyBoxStyle(wid, style));
        root.Edit(ApplyFlexStyle(ButtonRowById(wid), style));
      case Svg => root.Edit(ApplyBoxStyle(wid, style));
      case Flex => root.Edit(ApplyFlexStyle(FlexById(wid), style));
      case Container => root.Edit(ApplyFlexStyle(FlexById(wid), style));
      case ProgressBar => root.Edit(ApplyBoxStyle(wid, style));
      case Slider => root.Edit(ApplyBoxStyle(wid, style));
      case SizedBox => root.Edit(ApplyBoxStyle(wid, style));
      case Image =>
      case _ => sink.Send(Report(StyleNotSupported(info.kind, id)));
    }
  }

  method ImageCommand(root: RenderRoot, manager: WidgetManager, sink: EventSink, id: string, bytes: seq<Byte>,
                      decode: seq<Byte> -> Option<Pixels>)
    modifies root, sink
    ensures root.ops == old(root.ops) + ImageEffect(manager.widgets, id, bytes, decode).edits
    ensures sink.sent == old(sink.sent) + ImageEffect(manager.widgets, id, bytes, decode).reports
  {
    if id !in manager.widgets {
      sink.Send(Report(NotFound(id, "SetImageData")));
      return;
    }
    var info := manager.widgets[id];
    if info.kind == Image {
      UpdateImageData(root, info.widgetId, bytes, decode);
    } else {
      sink.Send(Report(NotSupported("SetImageData", info.kind, id)));
    }
  }

  /** The edit to the parent, made before the registry forgets the subtree. */
  method DetachFromParent(root: RenderRoot, manager: WidgetManager, sink: EventSink, id: string, parentKey: string,
                          index: nat)
    modifies root, sink
    ensures parentKey != RootKey && parentKey !in manager.widgets ==>
              root.ops == old(root.ops) && sink.sent == old(sink.sent) + [Report(ParentMissing(parentKey, id))]
    ensures parentKey == RootKey || parentKey in manager.widgets ==>
              var op := ChildRemoval(manager.widgets, parentKey, index);
              && root.ops == old(root.ops) + (if op.Some? then [op.value] else [])
              && sink.sent == old(sink.sent)
                   + (if op.Some? then [] else [Report(NoChildRemoval(parentKey, manager.widgets[parentKey].kind, id))])
  {
    if parentKey == RootKey {
      root.Edit(RemoveFlexChild(RootFlex, index));
    } else if parentKey in manager.widgets {
      var parent := manager.widgets[parentKey];
      var pwid := parent.widgetId;
      match parent.kind {
        case Flex => root.Edit(RemoveFlexChild(FlexById(pwid), index));
        case Container => root.Edit(RemoveFlexChild(FlexById(pwid), index));
        case Button => root.Edit(RemoveFlexChild(ButtonRowById(pwid), index));
        case SizedBox => root.Edit(RemoveSizedBoxChild(pwid));
        case ZStack => root.Edit(RemoveZStackChild(pwid, index));
        case _ => sink.Send(Report(NoChildRemoval(parentKey, parent.kind, id)));
      }
    } else {
      sink.Send(Report(ParentMissing(parentKey, id)));
    }
  }

  /** The registry and its child counters after a removal, from those
    * before: the subtree and its counters are gone, the siblings left
    * behind are numbered 0..n-1 again in their old order and their parent's
    * counter is n, and every other surviving record is unchanged. */
  ghost predicate Removed(w0: Widgets, c0: map<string, nat>, w: Widgets, c: map<string, nat>, id: string) {
    && (id !in w0 ==> w == w0 && c == c0)
    && (id in w0 ==>
          var pk := ParentKey(w0[id]);
          && w.Keys == w0.Keys - Subtree(w0, id)
          && Contiguous(w, pk) && OrderKept(w0, w, pk)
          && c == (c0 - Subtree(w0, id))[pk := ChildCount(w, pk)]
          && forall k :: k in w ==>
               w[k] == (if ParentMatches(w0[k], pk) then w0[k].(childIndex := w[k].childIndex) else w0[k]))
    && (forall k :: k in w ==> k in w0 && w[k] == w0[k].(childIndex := w[k].childIndex))
  }

  /** The part of the removal that edits the tree and reports, made while
    * the registry still holds the widget. */
  method DetachWidget(root: RenderRoot, manager: WidgetManager, sink: EventSink, id: string)
    requires id in manager.widgets
    modifies root, sink
    ensures root.ops == old(root.ops) + RemovalEffect(manager.widgets, id).edits
    ensures sink.sent == old(sink.sent) + RemovalEffect(manager.widgets, id).reports
  {
    var info := manager.widgets[id];
    var parentKey := info.parentId.GetOr(RootKey);
    var siblingCount := manager.CurrentChildCount(parentKey);
    if siblingCount == 0 {
      sink.Send(Report(NoSiblings(id, parentKey)));
      return;
    }
    var safeIndex := info.childIndex;
    if info.childIndex >= siblingCount {
      sink.Send(Report(StaleIndex(id, info.childIndex, parentKey)));
      safeIndex := siblingCount - 1;
    }
    DetachFromParent(root, manager, sink, id, parentKey, safeIndex);
  }

  /** The `RemoveWidget` arm: detach, then forget the subtree; an
    * unregistered id (already removed with an ancestor) is ignored. */
  method RemoveCommand(root: RenderRoot, manager: WidgetManager, sink: EventSink, id: string)
    modifies root, manager, sink
    ensures root.ops == old(root.ops) + RemovalEffect(old(manager.widgets), id).edits
    ensures sink.sent == old(sink.sent) + RemovalEffect(old(manager.widgets), id).reports
    ensures Removed(old(manager.widgets), old(manager.childCounts), manager.widgets, manager.childCounts, id)
  {
    if id !in manager.widgets {
      return;
    }
    ghost var info := manager.widgets[id];
    assert ParentKey(info) == info.parentId.GetOr(RootKey) by {
      assert ParentMatches(info, info.parentId.GetOr(RootKey));
    }
    DetachWidget(root, manager, sink, id);
    var _ := manager.RemoveWidgetSubtree(id);
  }

  /** `handle_client_command`. A property setting is turned into a style and
    * handled as a style command. */
  method HandleClientCommand(cmd: Server.ClientCommand, root: RenderRoot, manager: WidgetManager, ids: IdAllocator,
                             sink: EventSink, c: Collaborators)
    modifies root, manager, ids, sink
    decreases if cmd.SetStyleProperty? then 1 else 0
    ensures cmd.CreateWidget? ==>
              && Created(old(manager.widgets), old(manager.childCounts), old(root.ops), old(ids.next),
                         manager.widgets, manager.childCounts, root.ops, ids.next,
                         cmd.id, cmd.kind, cmd.parentId, cmd.initialText, cmd.initialStyle, cmd.data, c.decodeImage)
              && sink.sent == old(sink.sent)
    ensures cmd.RemoveWidget? ==>
              && root.ops == old(root.ops) + RemovalEffect(old(manager.widgets), cmd.id).edits
              && sink.sent == old(sink.sent) + RemovalEffect(old(manager.widgets), cmd.id).reports
              && Removed(old(manager.widgets), old(manager.childCounts), manager.widgets, manager.childCounts, cmd.id)
              && ids.next == old(ids.next)
    ensures !cmd.CreateWidget? && !cmd.RemoveWidget? ==>
              && manager.widgets == old(manager.widgets) && manager.childCounts == old(manager.childCounts)
              && ids.next == old(ids.next)
              && root.ops == old(root.ops) + CommandEffect(cmd, old(manager.widgets), c).edits
              && sink.sent == old(sink.sent) + CommandEffect(cmd, old(manager.widgets), c).reports
  {
    match cmd {
      case SetTitle(title) => root.Edit(Signal(WindowSignal.SetTitle(title)));
      case CreateWidget(id, kind, parentId, text, style, data) =>
        CreateAndAddWidget(root, manager, ids, id, kind, parentId, text, style, data, c.decodeImage);
      case SetWidgetText(id, text) => TextCommand(root, manager, sink, id, text);
      case SetWidgetValue(id, amount) => ValueCommand(root, manager, sink, id, amount);
      case SetWidgetChecked(id, checked) => CheckedCommand(root, manager, sink, id, checked);
      case SetWidgetStyle(id, style) => StyleCommand(root, manager, sink, id, style);
      case SetStyleProperty(id, property, value) =>
        var style := PropertyStyle(property, value, c);
        HandleClientCommand(Server.SetWidgetStyle(id, style), root, manager, ids, sink, c);
      case SetWidgetVisible(id, visible) => sink.Send(Report(VisibleNotImplemented(id, visible)));
      case RemoveWidget(id) => RemoveCommand(root, manager, sink, id);
      case ResizeWindow(width, height) => root.Edit(Signal(SetSize(width, height)));
      case CloseWindow => root.Edit(Signal(Exit));
      case ExitApp => root.Edit(Signal(Exit));
      case SetImageData(id, bytes) => ImageCommand(root, manager, sink, id, bytes, c.decodeImage);
    }
  }
}
