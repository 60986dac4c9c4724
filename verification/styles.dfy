/** Translation of a style record into toolkit styling: the text style list a
  * label is built with, the box properties a widget carries, and the
  * flex-specific settings of a flex container. */
module Styles {
  import opened Common
  import opened Colors
  import opened StyleTypes

  // ----- Colours -----

  /** A toolkit colour: 8-bit red, green, blue and alpha. */
  datatype Rgba8 = Rgba8(r: Byte, g: Byte, b: Byte, a: Byte)

  const White := Rgba8(255, 255, 255, 255)

  /** `color_value_to_peniko`: component-wise for a parsed colour; a name the
    * colour parser did not know falls back to opaque white. */
  function ToPeniko(cv: ColorValue): (c: Rgba8)
    ensures cv.Named? ==> c == White
  {
    match cv
    case Rgba(r, g, b, a) => Rgba8(r, g, b, a)
    case Named(_) => White
  }

  /** The conversion loses nothing on parsed colours: the components come
    * back out. */
  function FromPeniko(c: Rgba8): ColorValue {
    Rgba(c.r, c.g, c.b, c.a)
  }

  lemma PenikoRoundTrip(cv: ColorValue)
    requires cv.Rgba?
    ensures FromPeniko(ToPeniko(cv)) == cv
  {
  }

  /** A six-digit hex colour reaches the toolkit as the same opaque colour. */
  lemma HexColorReachesToolkit(r: Byte, g: Byte, b: Byte, numbers: NumberParsers)
    ensures Parse("#" + HexPair(r) + HexPair(g) + HexPair(b), numbers).Some?
    ensures ToPeniko(Parse("#" + HexPair(r) + HexPair(g) + HexPair(b), numbers).value) == Rgba8(r, g, b, 255)
  {
    HexRoundTrip(r, g, b, numbers);
  }

  // ----- Text styles -----

  datatype FontFamily = NamedFamily(name: string) | SansSerif

  /** The text style entries a style record can produce. */
  datatype TextProperty =
    | FontSize(size: real)
    | FontWeight(weight: real)
    | FontStyleProp(fontStyle: FontStyleValue)
    | FontStack(family: FontFamily)
    | LetterSpacing(spacing: real)
    | LineHeight(relative: real)
    | WordSpacing(spacing: real)
    | Underline(on: bool)
    | Strikethrough(on: bool)

  /** The position of each kind of entry in the emitted list. */
  function Rank(p: TextProperty): nat {
    match p
    case FontSize(_) => 0
    case FontWeight(_) => 1
    case FontStyleProp(_) => 2
    case FontStack(_) => 3
    case LetterSpacing(_) => 4
    case LineHeight(_) => 5
    case WordSpacing(_) => 6
    case Underline(_) => 7
    case Strikethrough(_) => 8
  }

  const SlotCount: nat := 9

  /** The entry the `k`-th conditional of `build_text_styles` contributes,
    * if any. */
  function Slot(s: BoxStyle, k: nat): (r: Option<TextProperty>)
    ensures r.Some? ==> Rank(r.value) == k
  {
    if k == 0 then (if s.fontSize.Some? then Some(FontSize(s.fontSize.value)) else None)
    else if k == 1 then (if s.fontWeight.Some? then Some(FontWeight(s.fontWeight.value)) else None)
    else if k == 2 then (if s.fontStyle.Some? then Some(FontStyleProp(s.fontStyle.value)) else None)
    else if k == 3 then Some(FontStack(if s.fontFamily.Some? then NamedFamily(s.fontFamily.value) else SansSerif))
    else if k == 4 then (if s.letterSpacing.Some? then Some(LetterSpacing(s.letterSpacing.value)) else None)
    else if k == 5 then (if s.lineHeight.Some? then Some(LineHeight(s.lineHeight.value)) else None)
    else if k == 6 then (if s.wordSpacing.Some? then Some(WordSpacing(s.wordSpacing.value)) else None)
    else if k == 7 then (if s.underline == Some(true) then Some(Underline(true)) else None)
    else if k == 8 then (if s.strikethrough == Some(true) then Some(Strikethrough(true)) else None)
    else None
  }

  /** The list after the first `n` conditionals. */
  function SlotsUpTo(s: BoxStyle, n: nat): seq<TextProperty>
    decreases n
  {
    if n == 0 then []
    else SlotsUpTo(s, n - 1) + (if Slot(s, n - 1).Some? then [Slot(s, n - 1).value] else [])
  }

  function TextStyles(s: BoxStyle): seq<TextProperty> {
    SlotsUpTo(s, SlotCount)
  }

  /** `build_text_styles`: one conditional push per text property. */
  method BuildTextStyles(style: BoxStyle) returns (props: seq<TextProperty>)
    ensures props == TextStyles(style)
  {
    props := [];
    assert props == SlotsUpTo(style, 0);
    if style.fontSize.Some? {
      props := props + [FontSize(style.fontSize.value)];
    }
    assert props == SlotsUpTo(style, 1);
    if style.fontWeight.Some? {
      props := props + [FontWeight(style.fontWeight.value)];
    }
    assert props == SlotsUpTo(style, 2);
    if style.fontStyle.Some? {
      props := props + [FontStyleProp(style.fontStyle.value)];
    }
    assert props == SlotsUpTo(style, 3);
    if style.fontFamily.Some? {
      props := props + [FontStack(NamedFamily(style.fontFamily.value))];
    } else {
      props := props + [FontStack(SansSerif)];
    }
    assert props == SlotsUpTo(style, 4);
    if style.letterSpacing.Some? {
      props := props + [LetterSpacing(style.letterSpacing.value)];
    }
    assert props == SlotsUpTo(style, 5);
    if style.lineHeight.Some? {
      props := props + [LineHeight(style.lineHeight.value)];
    }
    assert props == SlotsUpTo(style, 6);
    if style.wordSpacing.Some? {
      props := props + [WordSpacing(style.wordSpacing.value)];
    }
    assert props == SlotsUpTo(style, 7);
    if style.underline == Some(true) {
      props := props + [Underline(true)];
    }
    assert props == SlotsUpTo(style, 8);
    if style.strikethrough == Some(true) {
      props := props + [Strikethrough(true)];
    }
    assert props == SlotsUpTo(style, 9);
  }

  /** An entry is in the first `n` slots exactly when its own slot, below
    * `n`, produced it. */
  lemma {:induction false} InSlotsUpTo(s: BoxStyle, n: nat, p: TextProperty)
    ensures p in SlotsUpTo(s, n) <==> Rank(p) < n && Slot(s, Rank(p)) == Some(p)
    decreases n
  {
    if n > 0 {
      InSlotsUpTo(s, n - 1, p);
    }
  }

  predicate RankSorted(ps: seq<TextProperty>) {
    forall i, j :: 0 <= i < j < |ps| ==> Rank(ps[i]) < Rank(ps[j])
  }

  /** Entries come out in the fixed order size, weight, style, family,
    * letter spacing, line height, word spacing, underline, strikethrough. */
  lemma {:induction false} SlotsOrdered(s: BoxStyle, n: nat)
    ensures RankSorted(SlotsUpTo(s, n))
    ensures forall p :: p in SlotsUpTo(s, n) ==> Rank(p) < n
    decreases n
  {
    if n > 0 {
      SlotsOrdered(s, n - 1);
      var ps := SlotsUpTo(s, n);
      var prev := SlotsUpTo(s, n - 1);
      forall i, j | 0 <= i < j < |ps|
        ensures Rank(ps[i]) < Rank(ps[j])
      {
        assert ps[i] == prev[i];
        if j < |prev| {
          assert ps[j] == prev[j];
          assert Rank(prev[i]) < Rank(prev[j]);
        } else {
          var slot := Slot(s, n - 1);
          assert slot.Some? && ps == prev + [slot.value];
          assert ps[j] == slot.value;
          assert prev[i] in prev;
        }
      }
      forall p | p in ps
        ensures Rank(p) < n
      {
        if p !in prev {
          InSlotsUpTo(s, n, p);
        }
      }
    }
  }

  /** An entry is emitted exactly when its own conditional produces it. */
  lemma InTextStyles(s: BoxStyle, p: TextProperty)
    ensures p in TextStyles(s) <==> Slot(s, Rank(p)) == Some(p)
  {
    InSlotsUpTo(s, SlotCount, p);
  }

  /** What `build_text_styles` emits for the font properties: each entry
    * exactly when the record sets the property, carrying its value; the
    * font stack always, named when a family is set and sans-serif
    * otherwise. */
  lemma FontEntries(s: BoxStyle, x: real, fs: FontStyleValue, family: FontFamily)
    ensures FontSize(x) in TextStyles(s) <==> s.fontSize == Some(x)
    ensures FontWeight(x) in TextStyles(s) <==> s.fontWeight == Some(x)
    ensures FontStyleProp(fs) in TextStyles(s) <==> s.fontStyle == Some(fs)
    ensures FontStack(family) in TextStyles(s) <==>
              family == (if s.fontFamily.Some? then NamedFamily(s.fontFamily.value) else SansSerif)
  {
    InTextStyles(s, FontSize(x));
    InTextStyles(s, FontWeight(x));
    InTextStyles(s, FontStyleProp(fs));
    InTextStyles(s, FontStack(family));
  }

  /** The spacing entries likewise follow the record exactly. */
  lemma SpacingEntries(s: BoxStyle, x: real)
    ensures LetterSpacing(x) in TextStyles(s) <==> s.letterSpacing == Some(x)
    ensures LineHeight(x) in TextStyles(s) <==> s.lineHeight == Some(x)
    ensures WordSpacing(x) in TextStyles(s) <==> s.wordSpacing == Some(x)
  {
    InTextStyles(s, LetterSpacing(x));
    assert Slot(s, 4) == (if s.letterSpacing.Some? then Some(LetterSpacing(s.letterSpacing.value)) else None);
    InTextStyles(s, LineHeight(x));
    assert Slot(s, 5) == (if s.lineHeight.Some? then Some(LineHeight(s.lineHeight.value)) else None);
    InTextStyles(s, WordSpacing(x));
    assert Slot(s, 6) == (if s.wordSpacing.Some? then Some(WordSpacing(s.wordSpacing.value)) else None);
  }

  /** Underline and strikethrough are emitted only when set to true, and
    * never as `false`. */
  lemma DecorationEntries(s: BoxStyle, on: bool)
    ensures Underline(on) in TextStyles(s) <==> on && s.underline == Some(true)
    ensures Strikethrough(on) in TextStyles(s) <==> on && s.strikethrough == Some(true)
  {
    InTextStyles(s, Underline(on));
    InTextStyles(s, Strikethrough(on));
  }

  /** The emitted list keeps the fixed order, and so holds each kind of
    * entry at most once; in particular there is a single font stack. */
  lemma TextStylesOrdered(s: BoxStyle)
    ensures RankSorted(TextStyles(s))
    ensures var ps := TextStyles(s);
            forall i, j :: 0 <= i < |ps| && 0 <= j < |ps| && Rank(ps[i]) == Rank(ps[j]) ==> i == j
  {
    var ps := TextStyles(s);
    SlotsOrdered(s, SlotCount);
    assert RankSorted(ps);
  }

  /** `default_text_style_props`: size 20 and the sans-serif stack, which is
    * what a record setting only a size of 20 produces. */
  const DefaultTextProps := [FontSize(20.0), FontStack(SansSerif)]

  lemma DefaultTextPropsAgree()
    ensures DefaultTextProps == TextStyles(DefaultStyle.(fontSize := Some(20.0)))
  {
    assert SlotsUpTo(DefaultStyle.(fontSize := Some(20.0)), 9) == DefaultTextProps;
  }

  // ----- Box properties -----

  /** The toolkit keeps at most one property of each type. */
  datatype PropKey =
    | ContentColorKey | BackgroundKey | BorderColorKey | HoveredBorderColorKey
    | BorderWidthKey | CornerRadiusKey | PaddingKey

  datatype BoxProperty =
    | ContentColor(color: Rgba8)
    | Background(color: Rgba8)
    | BorderColor(color: Rgba8)
    | HoveredBorderColor(color: Rgba8)
    | BorderWidth(width: real)
    | CornerRadius(radius: real)
    | Padding(left: real, top: real, right: real, bottom: real)

  type Properties = map<PropKey, BoxProperty>

  function PaddingOf(p: PaddingValue): BoxProperty {
    match p
    case Uniform(v) => Padding(v, v, v, v)
    case Sides(top, right, bottom, left) => Padding(left, top, right, bottom)
  }

  function Put<A>(props: Properties, o: Option<A>, key: PropKey, f: A -> BoxProperty): Properties {
    if o.Some? then props[key := f(o.value)] else props
  }

  /** `apply_box_props_to_widget` on a widget carrying `props`, and
    * `build_box_properties` when it carries none: one insertion per
    * box-model field that is set, in field order. */
  function ApplyBoxProps(props: Properties, s: BoxStyle): Properties {
    var p1 := Put(props, s.color, ContentColorKey, c => ContentColor(ToPeniko(c)));
    var p2 := Put(p1, s.background, BackgroundKey, c => Background(ToPeniko(c)));
    var p3 := Put(p2, s.borderColor, BorderColorKey, c => BorderColor(ToPeniko(c)));
    var p4 := Put(p3, s.hoverBorderColor, HoveredBorderColorKey, c => HoveredBorderColor(ToPeniko(c)));
    var p5 := Put(p4, s.borderWidth, BorderWidthKey, w => BorderWidth(w));
    var p6 := Put(p5, s.cornerRadius, CornerRadiusKey, r => CornerRadius(r));
    Put(p6, s.padding, PaddingKey, PaddingOf)
  }

  /** `build_box_properties`: the property set rebound once per field. */
  method BuildBoxProperties(style: BoxStyle) returns (props: Properties)
    ensures props == ApplyBoxProps(map[], style)
  {
    props := map[];
    if style.color.Some? {
      props := props[ContentColorKey := ContentColor(ToPeniko(style.color.value))];
    }
    if style.background.Some? {
      props := props[BackgroundKey := Background(ToPeniko(style.background.value))];
    }
    if style.borderColor.Some? {
      props := props[BorderColorKey := BorderColor(ToPeniko(style.borderColor.value))];
    }
    if style.hoverBorderColor.Some? {
      props := props[HoveredBorderColorKey := HoveredBorderColor(ToPeniko(style.hoverBorderColor.value))];
    }
    if style.borderWidth.Some? {
      props := props[BorderWidthKey := BorderWidth(style.borderWidth.value)];
    }
    if style.cornerRadius.Some? {
      props := props[CornerRadiusKey := CornerRadius(style.cornerRadius.value)];
    }
    if style.padding.Some? {
      props := props[PaddingKey := PaddingOf(style.padding.value)];
    }
  }

  /** The property a style record sets under one key, if it sets one. */
  function PropertyFor(s: BoxStyle, key: PropKey): Option<BoxProperty> {
    match key
    case ContentColorKey => if s.color.Some? then Some(ContentColor(ToPeniko(s.color.value))) else None
    case BackgroundKey => if s.background.Some? then Some(Background(ToPeniko(s.background.value))) else None
    case BorderColorKey => if s.borderColor.Some? then Some(BorderColor(ToPeniko(s.borderColor.value))) else None
    case HoveredBorderColorKey =>
      if s.hoverBorderColor.Some? then Some(HoveredBorderColor(ToPeniko(s.hoverBorderColor.value))) else None
    case BorderWidthKey => if s.borderWidth.Some? then Some(BorderWidth(s.borderWidth.value)) else None
    case CornerRadiusKey => if s.cornerRadius.Some? then Some(CornerRadius(s.cornerRadius.value)) else None
    case PaddingKey => if s.padding.Some? then Some(PaddingOf(s.padding.value)) else None
  }

  /** Applying a record sets exactly the properties of its set fields and
    * leaves every other property as it was, so the order of insertion does
    * not matter. */
  lemma ApplyBoxPropsSpec(props: Properties, s: BoxStyle, key: PropKey)
    ensures key in ApplyBoxProps(props, s) <==> key in props || PropertyFor(s, key).Some?
    ensures PropertyFor(s, key).Some? ==> ApplyBoxProps(props, s)[key] == PropertyFor(s, key).value
    ensures PropertyFor(s, key).None? && key in props ==> ApplyBoxProps(props, s)[key] == props[key]
  {
  }

  /** Padding sides land on the toolkit sides of the same name; a uniform
    * padding sets all four. */
  lemma PaddingSides(top: real, right: real, bottom: real, left: real, v: real)
    ensures var p := PaddingOf(Sides(top, right, bottom, left));
            p.top == top && p.right == right && p.bottom == bottom && p.left == left
    ensures PaddingOf(Uniform(v)) == Padding(v, v, v, v)
  {
  }

  /** Applying the same record twice is applying it once. */
  lemma ApplyBoxPropsIdempotent(props: Properties, s: BoxStyle)
    ensures ApplyBoxProps(ApplyBoxProps(props, s), s) == ApplyBoxProps(props, s)
  {
    var once := ApplyBoxProps(props, s);
    var twice := ApplyBoxProps(once, s);
    forall key
      ensures key in twice <==> key in once
      ensures key in twice ==> twice[key] == once[key]
    {
      ApplyBoxPropsSpec(props, s, key);
      ApplyBoxPropsSpec(once, s, key);
    }
  }

  // ----- Flex containers -----

  /** The styling state of a flex container in the toolkit. */
  class FlexWidget {
    var props: Properties
    var crossAlign: CrossAlign
    var mainAlign: MainAlign
    var gap: real
    var mustFill: bool

    constructor (props: Properties, crossAlign: CrossAlign, mainAlign: MainAlign, gap: real, mustFill: bool)
      ensures this.props == props && this.crossAlign == crossAlign && this.mainAlign == mainAlign
      ensures this.gap == gap && this.mustFill == mustFill
    {
      this.props := props;
      this.crossAlign := crossAlign;
      this.mainAlign := mainAlign;
      this.gap := gap;
      this.mustFill := mustFill;
    }

    /** `apply_flex_style`: the box properties, then each flex setting the
      * record sets; settings it leaves absent keep their current value. */
    method ApplyFlexStyle(style: BoxStyle)
      modifies this
      ensures props == ApplyBoxProps(old(props), style)
      ensures crossAlign == style.crossAxisAlignment.GetOr(old(crossAlign))
      ensures mainAlign == style.mainAxisAlignment.GetOr(old(mainAlign))
      ensures gap == style.gap.GetOr(old(gap))
      ensures mustFill == style.mustFillMainAxis.GetOr(old(mustFill))
    {
      props := ApplyBoxProps(props, style);
      if style.crossAxisAlignment.Some? {
        crossAlign := style.crossAxisAlignment.value;
      }
      if style.mainAxisAlignment.Some? {
        mainAlign := style.mainAxisAlignment.value;
      }
      if style.gap.Some? {
        gap := style.gap.value;
      }
      if style.mustFillMainAxis.Some? {
        mustFill := style.mustFillMainAxis.value;
      }
    }
  }

  /** The empty record changes nothing. */
  lemma DefaultStyleChangesNothing(props: Properties)
    ensures ApplyBoxProps(props, DefaultStyle) == props
  {
  }
}
