/** The native widget toolkit as the runtime drives it: widgets are built as
  * descriptions, and every change to the live tree is one edit appended to
  * the render root's log. `add_to_parent` decides, from a read-only view of
  * the registry, which container a new widget goes into; the two runtime
  * revisions differ in which parents they accept and in whether the widget is
  * first wrapped in a hover-tracking container. */
module Toolkit {
  import opened Common
  import opened Kinds
  import opened StyleTypes
  import opened Styles
  import opened Registry

  /** The layout calls a flex builder received; None where the builder was
    * left at the toolkit's own default. */
  datatype FlexLayout = FlexLayout(
    direction: FlexDirection,
    crossAlign: Option<CrossAlign>,
    mainAlign: Option<MainAlign>,
    gap: Option<real>,
    mustFill: Option<bool>)

  datatype ObjectFit = FitContain | FitCover | FitFill | FitNone | FitScaleDown

  /** A decoded RGBA8 image. */
  datatype Pixels = Pixels(width: nat, height: nat, rgba: seq<Byte>)

  /** What a new widget is. `Plain` stands for the widgets whose constructors
    * are not part of this model: it keeps what they were given. */
  datatype Content =
    | TextLabel(text: string, styles: seq<TextProperty>)
    | SvgPicture(source: string)
    | ButtonBody(layout: FlexLayout, icon: Option<string>, caption: Option<string>, captionStyles: seq<TextProperty>)
    | FlexBox(layout: FlexLayout)
    | CheckboxBox(checked: bool, labelText: string)
    | SliderBar(min: real, max: real, value: real, step: Option<real>)
    | Picture(pixels: Pixels, fit: ObjectFit)
    | Plain(kind: WidgetKind, givenText: Option<string>, givenStyle: Option<BoxStyle>, givenData: Option<WidgetData>)

  /** A widget ready to be inserted: its toolkit id, what it is and its box
    * properties; or a hover-tracking wrapper (with an id of its own, not
    * tracked here) around one. */
  datatype NewWidget =
    | Built(widgetId: nat, content: Content, props: Properties)
    | HoverWrapped(inner: NewWidget)

  /** A flex container that accepts children: the root flex, a flex widget, or
    * the inner row of a button. */
  datatype FlexHost = RootFlex | FlexById(flex: nat) | ButtonRowById(button: nat)

  /** Where `add_to_parent` puts a new widget. */
  datatype Placement =
    | IntoFlex(host: FlexHost)
    | IntoSizedBox(box: nat)
    | IntoZStack(stack: nat)
    | IntoHoverable(hover: nat)

  datatype WindowSignal = SetTitle(title: string) | SetSize(width: nat, height: nat) | Exit

  /** One edit of the live widget tree. */
  datatype NativeOp =
    | AddFlexChild(host: FlexHost, child: NewWidget, flexFactor: Option<real>)
    | SetSizedBoxChild(box: nat, child: NewWidget)
    | InsertZStackChild(stack: nat, child: NewWidget)
    | SetHoverableChild(hover: nat, child: NewWidget)
    | RemoveFlexChild(host: FlexHost, index: nat)
    | RemoveSizedBoxChild(box: nat)
    | RemoveZStackChild(stack: nat, index: nat)
    | SetLabelText(target: nat, text: string)
    | ResetProseText(target: nat, text: string)
    | ResetInputText(target: nat, text: string)
    | SetSvgSource(target: nat, source: string)
    | SetProgress(target: nat, progress: Option<real>)
    | SetSliderValue(target: nat, value: real)
    | SetCheckboxChecked(target: nat, checked: bool)
    | InsertLabelStyle(target: nat, property: TextProperty)
    | ApplyBoxStyle(target: nat, style: BoxStyle)
    | ApplyFlexStyle(host: FlexHost, style: BoxStyle)
    | SetImagePixels(target: nat, pixels: Pixels)
    | Signal(signal: WindowSignal)

  /** The live tree, observed through the edits made to it. */
  class RenderRoot {
    var ops: seq<NativeOp>

    constructor ()
      ensures ops == []
    {
      ops := [];
    }

    method Edit(op: NativeOp)
      modifies this
      ensures ops == old(ops) + [op]
    {
      ops := ops + [op];
    }
  }

  /** `WidgetId::next`: a process-wide counter handing out fresh ids. */
  class IdAllocator {
    var next: nat

    constructor ()
      ensures next == 1
    {
      next := 1;
    }

    method Next() returns (id: nat)
      modifies this
      ensures id == old(next) && next == old(next) + 1
    {
      id := next;
      next := next + 1;
    }
  }

  // ----- Choosing the parent -----

  /** Records naming `key` as their parent explicitly. */
  function NamedChildren(w: Widgets, key: string): set<string> {
    set k | k in w && w[k].parentId == Some(key)
  }

  /** The container kinds of the registry and the slot each offers. */
  function HostOf(info: WidgetInfo): Option<Placement> {
    match info.kind
    case Flex => Some(IntoFlex(FlexById(info.widgetId)))
    case Container => Some(IntoFlex(FlexById(info.widgetId)))
    case Button => Some(IntoFlex(ButtonRowById(info.widgetId)))
    case SizedBox => Some(IntoSizedBox(info.widgetId))
    case ZStack => Some(IntoZStack(info.widgetId))
    case Hoverable => Some(IntoHoverable(info.widgetId))
    case _ => None
  }

  /** `add_to_parent` of the `ui` revision: the root flex when there is no
    * parent; a registered container otherwise, a hover container only while
    * nothing names it as parent. */
  function PlaceUi(w: Widgets, parentId: Option<string>): (r: Option<Placement>)
    ensures parentId.None? ==> r == Some(IntoFlex(RootFlex))
    ensures parentId.Some? ==>
      (r.Some? <==> parentId.value in w && HostOf(w[parentId.value]).Some?
                    && (w[parentId.value].kind == Hoverable ==> NamedChildren(w, parentId.value) == {}))
    ensures parentId.Some? && r.Some? ==> r == HostOf(w[parentId.value])
  {
    match parentId
    case None => Some(IntoFlex(RootFlex))
    case Some(key) =>
      if key !in w then None
      else if w[key].kind == Hoverable && |NamedChildren(w, key)| > 0 then None
      else HostOf(w[key])
  }

  /** `add_to_parent` of the `ui_thread` revision: the same, except that hover
    * containers are not parents there. */
  function PlaceUiThread(w: Widgets, parentId: Option<string>): (r: Option<Placement>)
    ensures parentId.None? ==> r == Some(IntoFlex(RootFlex))
    ensures r.Some? ==> !r.value.IntoHoverable?
  {
    match parentId
    case None => Some(IntoFlex(RootFlex))
    case Some(key) =>
      if key !in w || w[key].kind == Hoverable then None
      else HostOf(w[key])
  }

  /** The edit that puts `child` into the chosen slot; only flex slots use the
    * flex factor. */
  function PlacementOp(p: Placement, child: NewWidget, factor: Option<real>): NativeOp {
    match p
    case IntoFlex(host) => AddFlexChild(host, child, factor)
    case IntoSizedBox(b) => SetSizedBoxChild(b, child)
    case IntoZStack(s) => InsertZStackChild(s, child)
    case IntoHoverable(h) => SetHoverableChild(h, child)
  }

  /** The edits `add_to_parent` makes: one, or none when it reports failure. */
  function AttachOps(p: Option<Placement>, child: NewWidget, factor: Option<real>): seq<NativeOp> {
    if p.Some? then [PlacementOp(p.value, child, factor)] else []
  }

  /** The two revisions agree on every parent except a hover container, which
    * only the `ui` revision accepts. */
  lemma RevisionsAgreeExceptHoverable(w: Widgets, parentId: Option<string>)
    ensures parentId.Some? && parentId.value in w && w[parentId.value].kind == Hoverable ==>
              PlaceUiThread(w, parentId).None?
    ensures !(parentId.Some? && parentId.value in w && w[parentId.value].kind == Hoverable) ==>
              PlaceUiThread(w, parentId) == PlaceUi(w, parentId)
  {
  }

  /** A hover container takes one child: once a record naming it as parent is
    * filed, further attaches to it fail. */
  lemma HoverableHoldsOne(w: Widgets, hover: string, id: string, info: WidgetInfo)
    requires hover in w && w[hover].kind == Hoverable && hover != id
    requires info.parentId == Some(hover)
    ensures PlaceUi(w[id := info], Some(hover)).None?
  {
    assert id in NamedChildren(w[id := info], hover);
  }

  /** An empty hover container accepts a child into its single slot. */
  lemma EmptyHoverableAccepts(w: Widgets, hover: string)
    requires hover in w && w[hover].kind == Hoverable
    requires forall k :: k in w ==> w[k].parentId != Some(hover)
    ensures PlaceUi(w, Some(hover)) == Some(IntoHoverable(w[hover].widgetId))
  {
    assert NamedChildren(w, hover) == {};
  }

  /** `ui/widgets/utils.rs` `add_to_parent`: edits the chosen container and
    * reports whether there was one. */
  method AddToParent(root: RenderRoot, manager: WidgetManager, parentId: Option<string>, child: NewWidget,
                     factor: Option<real>) returns (ok: bool)
    modifies root
    ensures ok == PlaceUi(manager.widgets, parentId).Some?
    ensures root.ops == old(root.ops) + AttachOps(PlaceUi(manager.widgets, parentId), child, factor)
  {
    if parentId.None? {
      root.Edit(AddFlexChild(RootFlex, child, factor));
      return true;
    }
    var key := parentId.value;
    if key !in manager.widgets {
      return false;
    }
    var info := manager.widgets[key];
    match info.kind {
      case Flex =>
        root.Edit(AddFlexChild(FlexById(info.widgetId), child, factor));
        ok := true;
      case Container =>
        root.Edit(AddFlexChild(FlexById(info.widgetId), child, factor));
        ok := true;
      case Button =>
        root.Edit(AddFlexChild(ButtonRowById(info.widgetId), child, factor));
        ok := true;
      case SizedBox =>
        root.Edit(SetSizedBoxChild(info.widgetId, child));
        ok := true;
      case ZStack =>
        root.Edit(InsertZStackChild(info.widgetId, child));
        ok := true;
      case Hoverable =>
        var count := |NamedChildren(manager.widgets, key)|;
        if count > 0 {
          ok := false;
        } else {
          root.Edit(SetHoverableChild(info.widgetId, child));
          ok := true;
        }
      case _ =>
        ok := false;
    }
  }

  /** `ui_thread/widgets/utils.rs` `add_to_parent`: the widget is first wrapped
    * in a hover container, then placed as above. */
  method AddToParentWrapped(root: RenderRoot, manager: WidgetManager, parentId: Option<string>, child: NewWidget,
                            factor: Option<real>) returns (ok: bool)
    modifies root
    ensures ok == PlaceUiThread(manager.widgets, parentId).Some?
    ensures root.ops == old(root.ops) + AttachOps(PlaceUiThread(manager.widgets, parentId), HoverWrapped(child), factor)
  {
    var wrapped := HoverWrapped(child);
    if parentId.None? {
      root.Edit(AddFlexChild(RootFlex, wrapped, factor));
      return true;
    }
    var key := parentId.value;
    if key !in manager.widgets {
      return false;
    }
    var info := manager.widgets[key];
    match info.kind {
      case Flex =>
        root.Edit(AddFlexChild(FlexById(info.widgetId), wrapped, factor));
        ok := true;
      case Container =>
        root.Edit(AddFlexChild(FlexById(info.widgetId), wrapped, factor));
        ok := true;
      case Button =>
        root.Edit(AddFlexChild(ButtonRowById(info.widgetId), wrapped, factor));
        ok := true;
      case SizedBox =>
        root.Edit(SetSizedBoxChild(info.widgetId, wrapped));
        ok := true;
      case ZStack =>
        root.Edit(InsertZStackChild(info.widgetId, wrapped));
        ok := true;
      case _ =>
        ok := false;
    }
  }
}
