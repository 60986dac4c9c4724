/** Widget constructors: each builds a toolkit widget from the create
  * command's text, style record and kind-specific data, asks `add_to_parent`
  * to insert it, and files a registry record only when the insertion
  * succeeded. The label and SVG constructors belong to the `ui_thread`
  * revision (and wrap the widget in a hover container); the others to the
  * `ui` revision. */
module Constructors {
  import opened Common
  import opened Kinds
  import opened StyleTypes
  import opened Styles
  import opened Registry
  import opened Toolkit

  // ----- Shared defaults -----

  /** Box properties from the style record, or the constructor's fallback when
    * the command carried no record. */
  function PropsOr(style: Option<BoxStyle>, fallback: Properties): (r: Properties)
    ensures style.None? ==> r == fallback
    ensures style.Some? ==> forall key :: key in r <==> PropertyFor(style.value, key).Some?
  {
    match style
    case None => fallback
    case Some(s) =>
      assert forall key :: key in ApplyBoxProps(map[], s) <==> PropertyFor(s, key).Some? by {
        forall key
          ensures key in ApplyBoxProps(map[], s) <==> PropertyFor(s, key).Some?
        {
          ApplyBoxPropsSpec(map[], s, key);
        }
      }
      ApplyBoxProps(map[], s)
  }

  /** Text styles from the style record, or the constructor's fallback. */
  function TextStylesOr(style: Option<BoxStyle>, fallback: seq<TextProperty>): (r: seq<TextProperty>)
    ensures style.None? ==> r == fallback
    ensures style.Some? ==> RankSorted(r)
  {
    match style
    case None => fallback
    case Some(s) =>
      TextStylesOrdered(s);
      TextStyles(s)
  }

  /** White text: the fallback property set of labels, buttons and custom widgets. */
  const WhiteContent: Properties := map[ContentColorKey := ContentColor(White)]

  /** The flex grow factor a widget is inserted with. */
  function FlexFactor(style: Option<BoxStyle>): Option<real> {
    if style.Some? then style.value.flex else None
  }

  /** The fill rule shared by flex containers and buttons: a record with a
    * grow factor fills the main axis unless it says otherwise; without one,
    * only an explicit setting is applied. */
  function MustFillOf(s: BoxStyle): (r: Option<bool>)
    ensures s.flex.Some? ==> r == Some(s.mustFillMainAxis.GetOr(true))
    ensures s.flex.None? ==> r == s.mustFillMainAxis
  {
    if s.flex.Some? then Some(s.mustFillMainAxis.GetOr(true)) else s.mustFillMainAxis
  }

  // ----- Label (ui_thread/widgets/label.rs) -----

  const LabelFallbackStyles := [FontSize(30.0), FontStack(SansSerif)]

  function LabelWidget(widgetId: nat, text: Option<string>, style: Option<BoxStyle>): NewWidget {
    Built(widgetId, TextLabel(text.GetOr("[Label]"), TextStylesOr(style, LabelFallbackStyles)),
          PropsOr(style, WhiteContent))
  }

  /** A label shows its text, or the placeholder "[Label]"; without a record it
    * is 30-point sans-serif in white; with one, it carries exactly the text
    * entries and box properties the record sets, text entries in slot order. */
  lemma LabelContents(widgetId: nat, text: Option<string>, style: Option<BoxStyle>)
    ensures var w := LabelWidget(widgetId, text, style);
            && w.Built? && w.widgetId == widgetId && w.content.TextLabel?
            && (text.Some? ==> w.content.text == text.value)
            && (text.None? ==> w.content.text == "[Label]")
            && (style.None? ==> w.content.styles == [FontSize(30.0), FontStack(SansSerif)] && w.props == WhiteContent)
            && (style.Some? ==> RankSorted(w.content.styles)
                                && forall p :: p in w.content.styles <==> Slot(style.value, Rank(p)) == Some(p))
  {
    if style.Some? {
      forall p
        ensures p in TextStyles(style.value) <==> Slot(style.value, Rank(p)) == Some(p)
      {
        InTextStyles(style.value, p);
      }
    }
  }

  /** Filing after a successful insertion: the record under `id`, and for
    * containers a zero child counter; nothing changes after a failure. */
  ghost predicate Filed(w0: Widgets, c0: map<string, nat>, w: Widgets, c: map<string, nat>,
                        ok: bool, id: string, info: WidgetInfo, container: bool)
  {
    if ok then w == w0[id := info] && c == (if container then c0[id := 0] else c0)
    else w == w0 && c == c0
  }

  /** `label::create`. */
  method CreateLabel(root: RenderRoot, manager: WidgetManager, id: string, parentId: Option<string>,
                     text: Option<string>, style: Option<BoxStyle>, childIndex: nat, widgetId: nat)
    modifies root, manager
    ensures var p := PlaceUiThread(old(manager.widgets), parentId);
            && root.ops == old(root.ops) + AttachOps(p, HoverWrapped(LabelWidget(widgetId, text, style)), FlexFactor(style))
            && Filed(old(manager.widgets), old(manager.childCounts), manager.widgets, manager.childCounts,
                     p.Some?, id, WidgetInfo(widgetId, Label, parentId, childIndex), false)
  {
    var widget := LabelWidget(widgetId, text, style);
    var ok := AddToParentWrapped(root, manager, parentId, widget, FlexFactor(style));
    if ok {
      manager.widgets := manager.widgets[id := WidgetInfo(widgetId, Label, parentId, childIndex)];
    }
  }

  // ----- SVG (ui_thread/widgets/svg.rs) -----

  /** The SVG source a create command carries: the markup in its data, else its text. */
  function SvgSource(text: Option<string>, data: Option<WidgetData>): (r: Option<string>)
    ensures data.Some? && data.value.SvgData? && data.value.svgData.Some? ==> r == data.value.svgData
    ensures !(data.Some? && data.value.SvgData? && data.value.svgData.Some?) ==> r == text
  {
    var fromData := if data.Some? && data.value.SvgData? then data.value.svgData else None;
    fromData.OrElse(text)
  }

  function SvgWidget(widgetId: nat, source: string, style: Option<BoxStyle>): NewWidget {
    Built(widgetId, SvgPicture(source), PropsOr(style, map[]))
  }

  /** `svg::create`: without a source nothing is built or filed. */
  method CreateSvg(root: RenderRoot, manager: WidgetManager, id: string, parentId: Option<string>,
                   text: Option<string>, style: Option<BoxStyle>, data: Option<WidgetData>,
                   childIndex: nat, widgetId: nat)
    modifies root, manager
    ensures var src := SvgSource(text, data);
            var p := if src.Some? then PlaceUiThread(old(manager.widgets), parentId) else None;
            && root.ops == old(root.ops)
                 + (if src.Some? then AttachOps(p, HoverWrapped(SvgWidget(widgetId, src.value, style)), FlexFactor(style))
                    else [])
            && Filed(old(manager.widgets), old(manager.childCounts), manager.widgets, manager.childCounts,
                     p.Some?, id, WidgetInfo(widgetId, Svg, parentId, childIndex), false)
  {
    var src := SvgSource(text, data);
    if src.Some? {
      var ok := AddToParentWrapped(root, manager, parentId, SvgWidget(widgetId, src.value, style), FlexFactor(style));
      if ok {
        manager.widgets := manager.widgets[id := WidgetInfo(widgetId, Svg, parentId, childIndex)];
      }
    }
  }

  // ----- Flex container (ui/widgets/flex.rs) -----

  /** The flex builder's calls: a row only when asked for, otherwise a column;
    * alignment and gap only when set; the shared fill rule. */
  function FlexLayoutOf(style: Option<BoxStyle>): FlexLayout {
    var s := style.GetOr(DefaultStyle);
    FlexLayout(if s.direction == Some(Row) then Row else Column,
               s.crossAxisAlignment, s.mainAxisAlignment, s.gap, MustFillOf(s))
  }

  function FlexContainerWidget(widgetId: nat, style: Option<BoxStyle>): NewWidget {
    Built(widgetId, FlexBox(FlexLayoutOf(style)), PropsOr(style, map[]))
  }

  /** `flex::create`: registered under the kind it was asked for (flex or
    * container), with a zero child counter. */
  method CreateFlex(root: RenderRoot, manager: WidgetManager, id: string, kind: WidgetKind,
                    parentId: Option<string>, style: Option<BoxStyle>, childIndex: nat, widgetId: nat)
    modifies root, manager
    ensures var p := PlaceUi(old(manager.widgets), parentId);
            && root.ops == old(root.ops) + AttachOps(p, FlexContainerWidget(widgetId, style), FlexFactor(style))
            && Filed(old(manager.widgets), old(manager.childCounts), manager.widgets, manager.childCounts,
                     p.Some?, id, WidgetInfo(widgetId, kind, parentId, childIndex), true)
  {
    var ok := AddToParent(root, manager, parentId, FlexContainerWidget(widgetId, style), FlexFactor(style));
    if ok {
      manager.childCounts := manager.childCounts[id := 0];
      manager.widgets := manager.widgets[id := WidgetInfo(widgetId, kind, parentId, childIndex)];
    }
  }

  // ----- Button (ui/widgets/button.rs) -----

  /** The button's inner row: a column only when asked for; centred on both
    * axes with a gap of 8 unless the record says otherwise; the fill rule. */
  function ButtonLayoutOf(style: Option<BoxStyle>): FlexLayout {
    var s := style.GetOr(DefaultStyle);
    FlexLayout(if s.direction == Some(Column) then Column else Row,
               Some(s.crossAxisAlignment.GetOr(CrossCenter)), Some(s.mainAxisAlignment.GetOr(MainCenter)),
               Some(s.gap.GetOr(8.0)), MustFillOf(s))
  }

  /** The two builders read the same layout fields; a setting the record makes
    * wins in both, and they differ only in what they do with an absent one. */
  lemma LayoutSettingsWin(s: BoxStyle)
    ensures s.direction.Some? ==> FlexLayoutOf(Some(s)).direction == ButtonLayoutOf(Some(s)).direction == s.direction.value
    ensures s.crossAxisAlignment.Some? ==>
              FlexLayoutOf(Some(s)).crossAlign == ButtonLayoutOf(Some(s)).crossAlign == s.crossAxisAlignment
    ensures s.mainAxisAlignment.Some? ==>
              FlexLayoutOf(Some(s)).mainAlign == ButtonLayoutOf(Some(s)).mainAlign == s.mainAxisAlignment
    ensures s.gap.Some? ==> FlexLayoutOf(Some(s)).gap == ButtonLayoutOf(Some(s)).gap == s.gap
    ensures FlexLayoutOf(Some(s)).mustFill == ButtonLayoutOf(Some(s)).mustFill
  {
    if s.direction.Some? {
      assert s.direction.value == Row || s.direction.value == Column;
    }
  }

  /** With no layout settings a flex is a column left to toolkit defaults, and
    * a button row is centred with a gap of 8. */
  lemma LayoutDefaults()
    ensures FlexLayoutOf(None) == FlexLayout(Column, None, None, None, None)
    ensures ButtonLayoutOf(None) == FlexLayout(Row, Some(CrossCenter), Some(MainCenter), Some(8.0), None)
  {
  }

  function ButtonIcon(data: Option<WidgetData>): Option<string> {
    if data.Some? && data.value.ButtonData? then data.value.svgData else None
  }

  function ButtonWidget(widgetId: nat, text: Option<string>, style: Option<BoxStyle>, data: Option<WidgetData>): NewWidget {
    Built(widgetId,
          ButtonBody(ButtonLayoutOf(style), ButtonIcon(data), text, TextStylesOr(style, DefaultTextProps)),
          PropsOr(style, WhiteContent))
  }

  /** `button::create`: registered with a zero child counter, since a button's
    * row takes children. */
  method CreateButton(root: RenderRoot, manager: WidgetManager, id: string, parentId: Option<string>,
                      text: Option<string>, style: Option<BoxStyle>, data: Option<WidgetData>,
                      childIndex: nat, widgetId: nat)
    modifies root, manager
    ensures var p := PlaceUi(old(manager.widgets), parentId);
            && root.ops == old(root.ops) + AttachOps(p, ButtonWidget(widgetId, text, style, data), FlexFactor(style))
            && Filed(old(manager.widgets), old(manager.childCounts), manager.widgets, manager.childCounts,
                     p.Some?, id, WidgetInfo(widgetId, Button, parentId, childIndex), true)
  {
    var ok := AddToParent(root, manager, parentId, ButtonWidget(widgetId, text, style, data), FlexFactor(style));
    if ok {
      manager.childCounts := manager.childCounts[id := 0];
      manager.widgets := manager.widgets[id := WidgetInfo(widgetId, Button, parentId, childIndex)];
    }
  }

  // ----- Image (ui/widgets/image.rs) -----

  /** `parse_object_fit`: case-insensitive; three spellings of scale-down;
    * anything unknown is "contain". */
  function ParseObjectFit(s: string): ObjectFit {
    var l := ToLower(s);
    if l == "contain" then FitContain
    else if l == "cover" then FitCover
    else if l == "fill" then FitFill
    else if l == "none" then FitNone
    else if l == "scale-down" || l == "scaledown" || l == "scale_down" then FitScaleDown
    else FitContain
  }

  /** The canonical spelling of each fit. */
  function FitName(f: ObjectFit): string {
    match f
    case FitContain => "contain"
    case FitCover => "cover"
    case FitFill => "fill"
    case FitNone => "none"
    case FitScaleDown => "scale-down"
  }

  /** Every fit is reachable, by its canonical name in any letter case. */
  lemma ObjectFitRoundTrip(f: ObjectFit, s: string)
    requires ToLower(s) == FitName(f)
    ensures ParseObjectFit(s) == f
  {
  }

  /** Letter case never matters. */
  lemma ObjectFitIgnoresCase(s: string)
    ensures ParseObjectFit(ToLower(s)) == ParseObjectFit(s)
  {
    ToLowerIdempotent(s);
  }

  function ImageWidget(widgetId: nat, pixels: Pixels, objectFit: Option<string>, style: Option<BoxStyle>): NewWidget {
    Built(widgetId, Picture(pixels, if objectFit.Some? then ParseObjectFit(objectFit.value) else FitContain),
          PropsOr(style, map[]))
  }

  /** `image::create`: without image data, or with bytes the decoder rejects,
    * nothing is built or filed. */
  method CreateImage(root: RenderRoot, manager: WidgetManager, id: string, parentId: Option<string>,
                     style: Option<BoxStyle>, data: Option<WidgetData>, decode: seq<Byte> -> Option<Pixels>,
                     childIndex: nat, widgetId: nat)
    modifies root, manager
    ensures var ready := data.Some? && data.value.ImageData? && decode(data.value.bytes).Some?;
            var p := if ready then PlaceUi(old(manager.widgets), parentId) else None;
            && root.ops == old(root.ops)
                 + (if ready then AttachOps(p, ImageWidget(widgetId, decode(data.value.bytes).value, data.value.objectFit, style),
                                            FlexFactor(style))
                    else [])
            && Filed(old(manager.widgets), old(manager.childCounts), manager.widgets, manager.childCounts,
                     p.Some?, id, WidgetInfo(widgetId, Image, parentId, childIndex), false)
  {
    if data.None? || !data.value.ImageData? {
      return;
    }
    var pixels := decode(data.value.bytes);
    if pixels.None? {
      return;
    }
    var widget := ImageWidget(widgetId, pixels.value, data.value.objectFit, style);
    var ok := AddToParent(root, manager, parentId, widget, FlexFactor(style));
    if ok {
      manager.widgets := manager.widgets[id := WidgetInfo(widgetId, Image, parentId, childIndex)];
    }
  }

  /** `image::update_data`: replaces the pixels of a live image, unless the
    * decoder rejects the bytes. */
  method UpdateImageData(root: RenderRoot, widgetId: nat, bytes: seq<Byte>, decode: seq<Byte> -> Option<Pixels>)
    modifies root
    ensures root.ops == old(root.ops) + (if decode(bytes).Some? then [SetImagePixels(widgetId, decode(bytes).value)] else [])
  {
    var pixels := decode(bytes);
    if pixels.Some? {
      root.Edit(SetImagePixels(widgetId, pixels.value));
    }
  }

  // ----- Custom kinds (ui/widgets/custom.rs) -----

  /** A custom kind is shown as a label reading its own kind in brackets. */
  function CustomPlaceholder(kind: WidgetKind): (r: string)
    ensures |r| >= 3 && r[0] == '[' && r[|r| - 1] == ']' && r[1..|r| - 1] == DebugName(kind)
  {
    "[" + DebugName(kind) + "]"
  }

  const CustomFallbackStyles := [FontSize(16.0), FontStack(SansSerif)]

  function CustomWidget(widgetId: nat, kind: WidgetKind, text: Option<string>, style: Option<BoxStyle>): NewWidget {
    Built(widgetId, TextLabel(text.GetOr(CustomPlaceholder(kind)), TextStylesOr(style, CustomFallbackStyles)),
          PropsOr(style, WhiteContent))
  }

  /** The three label-like constructors agree except for their placeholder
    * text and fallback font size (30 for a label, 20 for a button caption,
    * 16 for a custom kind). */
  lemma LabelLikeFallbacks(widgetId: nat, kind: WidgetKind, text: Option<string>)
    ensures CustomWidget(widgetId, kind, text, None).props == LabelWidget(widgetId, text, None).props
    ensures CustomWidget(widgetId, kind, text, None).content.styles[0] == FontSize(16.0)
    ensures LabelWidget(widgetId, text, None).content.styles[0] == FontSize(30.0)
    ensures ButtonWidget(widgetId, text, None, None).content.captionStyles[0] == FontSize(20.0)
    ensures text.Some? ==> CustomWidget(widgetId, kind, text, None).content == LabelWidget(widgetId, text, None).content.(styles := CustomFallbackStyles)
  {
  }

  /** `custom::create`: registered under the custom kind itself. */
  method CreateCustom(root: RenderRoot, manager: WidgetManager, id: string, kind: WidgetKind,
                      parentId: Option<string>, text: Option<string>, style: Option<BoxStyle>,
                      childIndex: nat, widgetId: nat)
    modifies root, manager
    ensures var p := PlaceUi(old(manager.widgets), parentId);
            && root.ops == old(root.ops) + AttachOps(p, CustomWidget(widgetId, kind, text, style), FlexFactor(style))
            && Filed(old(manager.widgets), old(manager.childCounts), manager.widgets, manager.childCounts,
                     p.Some?, id, WidgetInfo(widgetId, kind, parentId, childIndex), false)
  {
    var ok := AddToParent(root, manager, parentId, CustomWidget(widgetId, kind, text, style), FlexFactor(style));
    if ok {
      manager.widgets := manager.widgets[id := WidgetInfo(widgetId, kind, parentId, childIndex)];
    }
  }

  // ----- Checkbox (ui/widgets/checkbox.rs) -----

  function CheckboxWidget(widgetId: nat, text: Option<string>, style: Option<BoxStyle>, data: Option<WidgetData>): NewWidget {
    var checked := if data.Some? && data.value.CheckboxData? then data.value.checked else false;
    Built(widgetId, CheckboxBox(checked, text.GetOr("")), PropsOr(style, map[]))
  }

  /** A checkbox starts checked only when its data says so. */
  lemma CheckboxStartsUnchecked(widgetId: nat, text: Option<string>, style: Option<BoxStyle>, data: Option<WidgetData>)
    ensures CheckboxWidget(widgetId, text, style, data).content.checked <==> data == Some(CheckboxData(true))
  {
  }

  /** `checkbox::create`. */
  method CreateCheckbox(root: RenderRoot, manager: WidgetManager, id: string, parentId: Option<string>,
                        text: Option<string>, style: Option<BoxStyle>, data: Option<WidgetData>,
                        childIndex: nat, widgetId: nat)
    modifies root, manager
    ensures var p := PlaceUi(old(manager.widgets), parentId);
            && root.ops == old(root.ops) + AttachOps(p, CheckboxWidget(widgetId, text, style, data), FlexFactor(style))
            && Filed(old(manager.widgets), old(manager.childCounts), manager.widgets, manager.childCounts,
                     p.Some?, id, WidgetInfo(widgetId, Checkbox, parentId, childIndex), false)
  {
    var ok := AddToParent(root, manager, parentId, CheckboxWidget(widgetId, text, style, data), FlexFactor(style));
    if ok {
      manager.widgets := manager.widgets[id := WidgetInfo(widgetId, Checkbox, parentId, childIndex)];
    }
  }

  // ----- Slider (ui/widgets/slider.rs) -----

  function SliderWidget(widgetId: nat, style: Option<BoxStyle>, data: Option<WidgetData>): NewWidget {
    var bar := if data.Some? && data.value.SliderData?
               then SliderBar(data.value.min, data.value.max, data.value.value, data.value.step)
               else SliderBar(0.0, 1.0, 0.5, None);
    Built(widgetId, bar, PropsOr(style, map[]))
  }

  /** A slider takes its range, value and step from its data, all four
    * together; without slider data it spans 0 to 1, starts half way and is
    * continuous. */
  lemma SliderSettings(widgetId: nat, style: Option<BoxStyle>, data: Option<WidgetData>)
    ensures var bar := SliderWidget(widgetId, style, data).content;
            && (data.Some? && data.value.SliderData? ==>
                  bar == SliderBar(data.value.min, data.value.max, data.value.value, data.value.step))
            && (!(data.Some? && data.value.SliderData?) ==>
                  bar.min == 0.0 && bar.max == 1.0 && bar.min <= bar.value <= bar.max && bar.step.None?)
  {
  }

  /** `slider::create`. */
  method CreateSlider(root: RenderRoot, manager: WidgetManager, id: string, parentId: Option<string>,
                      style: Option<BoxStyle>, data: Option<WidgetData>, childIndex: nat, widgetId: nat)
    modifies root, manager
    ensures var p := PlaceUi(old(manager.widgets), parentId);
            && root.ops == old(root.ops) + AttachOps(p, SliderWidget(widgetId, style, data), FlexFactor(style))
            && Filed(old(manager.widgets), old(manager.childCounts), manager.widgets, manager.childCounts,
                     p.Some?, id, WidgetInfo(widgetId, Slider, parentId, childIndex), false)
  {
    var ok := AddToParent(root, manager, parentId, SliderWidget(widgetId, style, data), FlexFactor(style));
    if ok {
      manager.widgets := manager.widgets[id := WidgetInfo(widgetId, Slider, parentId, childIndex)];
    }
  }

  // ----- Constructors outside this model -----

  /** The constructors of the remaining kinds, which are not part of this
    * model, stand in as: insert what was given, in a hover wrapper, and file
    * the record on success. */
  method CreatePlain(root: RenderRoot, manager: WidgetManager, id: string, kind: WidgetKind,
                     parentId: Option<string>, text: Option<string>, style: Option<BoxStyle>,
                     data: Option<WidgetData>, childIndex: nat, widgetId: nat)
    modifies root, manager
    ensures var p := PlaceUiThread(old(manager.widgets), parentId);
            && root.ops == old(root.ops)
                 + AttachOps(p, HoverWrapped(Built(widgetId, Plain(kind, text, style, data), PropsOr(style, map[]))),
                             FlexFactor(style))
            && Filed(old(manager.widgets), old(manager.childCounts), manager.widgets, manager.childCounts,
                     p.Some?, id, WidgetInfo(widgetId, kind, parentId, childIndex), false)
  {
    var widget := Built(widgetId, Plain(kind, text, style, data), PropsOr(style, map[]));
    var ok := AddToParentWrapped(root, manager, parentId, widget, FlexFactor(style));
    if ok {
      manager.widgets := manager.widgets[id := WidgetInfo(widgetId, kind, parentId, childIndex)];
    }
  }
}
