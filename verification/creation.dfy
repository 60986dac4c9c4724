/** `create_and_add_widget`: reserves the next child index under the parent
  * key and a fresh toolkit id, then hands the command to the constructor of
  * its kind. */
module Creation {
  import opened Common
  import opened Kinds
  import opened StyleTypes
  import opened Registry
  import opened Toolkit
  import opened Constructors

  /** Kinds whose constructor inserts through the `ui_thread` revision of
    * `add_to_parent`, which wraps the widget in a hover container. */
  predicate WrapsInHover(kind: WidgetKind) {
    !(kind.Button? || kind.Flex? || kind.Container? || kind.Checkbox? || kind.Slider? || kind.Custom? || kind.Image?)
  }

  /** Kinds whose record starts with a zero child counter. */
  predicate CountsChildren(kind: WidgetKind) {
    kind.Button? || kind.Flex? || kind.Container?
  }

  /** The widget the constructor of `kind` builds, as handed to
    * `add_to_parent`; None when it builds nothing (an SVG without a source,
    * an image without decodable data, and the hover kind, which has no
    * constructor here). */
  function BuiltWidget(kind: WidgetKind, widgetId: nat, text: Option<string>, style: Option<BoxStyle>,
                       data: Option<WidgetData>, decode: seq<Byte> -> Option<Pixels>): (r: Option<NewWidget>)
    ensures r.None? <==> kind.Hoverable? || (kind.Svg? && SvgSource(text, data).None?)
                         || (kind.Image? && !(data.Some? && data.value.ImageData? && decode(data.value.bytes).Some?))
    ensures r.Some? && WrapsInHover(kind) ==> r.value.HoverWrapped?
    ensures r.Some? && !WrapsInHover(kind) ==> r.value.Built? && r.value.widgetId == widgetId
  {
    match kind
    case Label => Some(HoverWrapped(LabelWidget(widgetId, text, style)))
    case Svg =>
      var src := SvgSource(text, data);
      if src.Some? then Some(HoverWrapped(SvgWidget(widgetId, src.value, style))) else None
    case Button => Some(ButtonWidget(widgetId, text, style, data))
    case Flex => Some(FlexContainerWidget(widgetId, style))
    case Container => Some(FlexContainerWidget(widgetId, style))
    case Checkbox => Some(CheckboxWidget(widgetId, text, style, data))
    case Slider => Some(SliderWidget(widgetId, style, data))
    case Custom(_) => Some(CustomWidget(widgetId, kind, text, style))
    case Image =>
      if data.Some? && data.value.ImageData? && decode(data.value.bytes).Some?
      then Some(ImageWidget(widgetId, decode(data.value.bytes).value, data.value.objectFit, style))
      else None
    case Hoverable => None
    case _ => Some(HoverWrapped(Built(widgetId, Plain(kind, text, style, data), PropsOr(style, map[]))))
  }

  /** Where the constructor of `kind` would insert its widget. */
  function PlacementFor(kind: WidgetKind, w: Widgets, parentId: Option<string>): Option<Placement> {
    if WrapsInHover(kind) then PlaceUiThread(w, parentId) else PlaceUi(w, parentId)
  }

  /** A create command files a record exactly when a widget was built and a
    * parent slot was found for it. */
  predicate Attaches(kind: WidgetKind, w: Widgets, parentId: Option<string>, text: Option<string>,
                     data: Option<WidgetData>, decode: seq<Byte> -> Option<Pixels>)
  {
    BuiltWidget(kind, 0, text, None, data, decode).Some? && PlacementFor(kind, w, parentId).Some?
  }

  /** Whether something is built does not depend on the id or the style. */
  lemma BuiltIgnoresIdAndStyle(kind: WidgetKind, widgetId: nat, text: Option<string>, style: Option<BoxStyle>,
                               data: Option<WidgetData>, decode: seq<Byte> -> Option<Pixels>)
    ensures BuiltWidget(kind, widgetId, text, style, data, decode).Some?
            == BuiltWidget(kind, 0, text, None, data, decode).Some?
  {
  }

  /** A registered parent that is not a container rejects every child, and an
    * unregistered parent does too. */
  lemma NoContainerNoRecord(kind: WidgetKind, w: Widgets, key: string, text: Option<string>,
                            data: Option<WidgetData>, decode: seq<Byte> -> Option<Pixels>)
    requires key !in w || HostOf(w[key]).None?
    ensures !Attaches(kind, w, Some(key), text, data, decode)
  {
  }

  /** Without a parent, a command files a record exactly when its
    * constructor builds a widget: the root flex accepts everything. */
  lemma RootAcceptsAll(kind: WidgetKind, w: Widgets, text: Option<string>,
                       data: Option<WidgetData>, decode: seq<Byte> -> Option<Pixels>)
    ensures Attaches(kind, w, None, text, data, decode) <==> BuiltWidget(kind, 0, text, None, data, decode).Some?
    ensures kind.Label? || kind.Button? || kind.Flex? || kind.Checkbox? ==> Attaches(kind, w, None, text, data, decode)
  {
  }

  /** The state after `create_and_add_widget`, from the state before: one
    * fresh toolkit id used; the parent key's counter set past the new index;
    * the constructor's widget inserted where its revision of `add_to_parent`
    * puts it; and the record, carrying the fresh id, the kind asked for and
    * the live child count of the parent key as its index, filed on success. */
  ghost predicate Created(w0: Widgets, c0: map<string, nat>, ops0: seq<NativeOp>, next0: nat,
                          w: Widgets, c: map<string, nat>, ops: seq<NativeOp>, next: nat,
                          id: string, kind: WidgetKind, parentId: Option<string>, text: Option<string>,
                          style: Option<BoxStyle>, data: Option<WidgetData>, decode: seq<Byte> -> Option<Pixels>)
  {
    var pk := parentId.GetOr(RootKey);
    var info := WidgetInfo(next0, kind, parentId, ChildCount(w0, pk));
    var built := BuiltWidget(kind, next0, text, style, data, decode);
    && next == next0 + 1
    && ops == ops0 + (if built.Some? then AttachOps(PlacementFor(kind, w0, parentId), built.value, FlexFactor(style)) else [])
    && Filed(w0, c0[pk := info.childIndex + 1], w, c, Attaches(kind, w0, parentId, text, data, decode), id, info,
             CountsChildren(kind))
  }

  /** The dispatch on the kind: the constructor of `kind`, given the reserved
    * child index and toolkit id. */
  method Construct(root: RenderRoot, manager: WidgetManager, id: string, kind: WidgetKind,
                   parentId: Option<string>, text: Option<string>, style: Option<BoxStyle>,
                   data: Option<WidgetData>, decode: seq<Byte> -> Option<Pixels>, childIndex: nat, widgetId: nat)
    modifies root, manager
    ensures var built := BuiltWidget(kind, widgetId, text, style, data, decode);
            root.ops == old(root.ops)
              + (if built.Some? then AttachOps(PlacementFor(kind, old(manager.widgets), parentId), built.value, FlexFactor(style))
                 else [])
    ensures Filed(old(manager.widgets), old(manager.childCounts), manager.widgets, manager.childCounts,
                  Attaches(kind, old(manager.widgets), parentId, text, data, decode), id,
                  WidgetInfo(widgetId, kind, parentId, childIndex), CountsChildren(kind))
  {
    if WrapsInHover(kind) {
      ConstructWrapped(root, manager, id, kind, parentId, text, style, data, decode, childIndex, widgetId);
    } else {
      ConstructDirect(root, manager, id, kind, parentId, text, style, data, decode, childIndex, widgetId);
    }
  }

  /** The kinds inserted through the `ui_thread` revision of `add_to_parent`. */
  method ConstructWrapped(root: RenderRoot, manager: WidgetManager, id: string, kind: WidgetKind,
                   parentId: Option<string>, text: Option<string>, style: Option<BoxStyle>,
                   data: Option<WidgetData>, decode: seq<Byte> -> Option<Pixels>, childIndex: nat, widgetId: nat)
    requires WrapsInHover(kind)
    modifies root, manager
    ensures var built := BuiltWidget(kind, widgetId, text, style, data, decode);
            root.ops == old(root.ops)
              + (if built.Some? then AttachOps(PlacementFor(kind, old(manager.widgets), parentId), built.value, FlexFactor(style))
                 else [])
    ensures Filed(old(manager.widgets), old(manager.childCounts), manager.widgets, manager.childCounts,
                  Attaches(kind, old(manager.widgets), parentId, text, data, decode), id,
                  WidgetInfo(widgetId, kind, parentId, childIndex), CountsChildren(kind))
  {
    BuiltIgnoresIdAndStyle(kind, widgetId, text, style, data, decode);
    match kind {
      case Label => CreateLabel(root, manager, id, parentId, text, style, childIndex, widgetId);
      case Svg => CreateSvg(root, manager, id, parentId, text, style, data, childIndex, widgetId);
      case Hoverable =>
      case TextInput | TextArea | SizedBox | ProgressBar | Spinner | Prose | Grid | ZStack | Portal =>
        CreatePlain(root, manager, id, kind, parentId, text, style, data, childIndex, widgetId);
    }
  }

  /** The kinds inserted through the `ui` revision of `add_to_parent`. */
  method ConstructDirect(root: RenderRoot, manager: WidgetManager, id: string, kind: WidgetKind,
                   parentId: Option<string>, text: Option<string>, style: Option<BoxStyle>,
                   data: Option<WidgetData>, decode: seq<Byte> -> Option<Pixels>, childIndex: nat, widgetId: nat)
    requires !WrapsInHover(kind)
    modifies root, manager
    ensures var built := BuiltWidget(kind, widgetId, text, style, data, decode);
            root.ops == old(root.ops)
              + (if built.Some? then AttachOps(PlacementFor(kind, old(manager.widgets), parentId), built.value, FlexFactor(style))
                 else [])
    ensures Filed(old(manager.widgets), old(manager.childCounts), manager.widgets, manager.childCounts,
                  Attaches(kind, old(manager.widgets), parentId, text, data, decode), id,
                  WidgetInfo(widgetId, kind, parentId, childIndex), CountsChildren(kind))
  {
    BuiltIgnoresIdAndStyle(kind, widgetId, text, style, data, decode);
    match kind {
      case Button => CreateButton(root, manager, id, parentId, text, style, data, childIndex, widgetId);
      case Flex => CreateFlex(root, manager, id, kind, parentId, style, childIndex, widgetId);
      case Container => CreateFlex(root, manager, id, kind, parentId, style, childIndex, widgetId);
      case Checkbox => CreateCheckbox(root, manager, id, parentId, text, style, data, childIndex, widgetId);
      case Slider => CreateSlider(root, manager, id, parentId, style, data, childIndex, widgetId);
      case Custom(_) => CreateCustom(root, manager, id, kind, parentId, text, style, childIndex, widgetId);
      case Image => CreateImage(root, manager, id, parentId, style, data, decode, childIndex, widgetId);
    }
  }

  /** `create_and_add_widget`. The record filed, if any, carries the fresh
    * toolkit id, the kind asked for and the next child index under the parent
    * key, so a parent whose children were numbered 0..n-1 has them numbered
    * 0..n afterwards. */
  method CreateAndAddWidget(root: RenderRoot, manager: WidgetManager, ids: IdAllocator, id: string,
                            kind: WidgetKind, parentId: Option<string>, text: Option<string>,
                            style: Option<BoxStyle>, data: Option<WidgetData>, decode: seq<Byte> -> Option<Pixels>)
    modifies root, manager, ids
    ensures Created(old(manager.widgets), old(manager.childCounts), old(root.ops), old(ids.next),
                    manager.widgets, manager.childCounts, root.ops, ids.next,
                    id, kind, parentId, text, style, data, decode)
    ensures var pk := parentId.GetOr(RootKey);
            id !in old(manager.widgets) && Contiguous(old(manager.widgets), pk) ==> Contiguous(manager.widgets, pk)
  {
    ghost var c0, ops0 := manager.childCounts, root.ops;
    var parentKey := parentId.GetOr(RootKey);
    var childIndex := manager.NextChildIndex(parentKey);
    var widgetId := ids.Next();
    ghost var w0 := manager.widgets;
    Construct(root, manager, id, kind, parentId, text, style, data, decode, childIndex, widgetId);
    assert Filed(w0, c0[parentKey := childIndex + 1], manager.widgets, manager.childCounts,
                 Attaches(kind, w0, parentId, text, data, decode), id,
                 WidgetInfo(widgetId, kind, parentId, ChildCount(w0, parentKey)), CountsChildren(kind));
    if id !in w0 && Contiguous(w0, parentKey) && manager.widgets != w0 {
      InsertKeepsContiguous(w0, parentKey, id, WidgetInfo(widgetId, kind, parentId, childIndex));
    }
  }
}
