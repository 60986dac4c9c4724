/** The style record a script attaches to a widget: every property optional,
  * `None` meaning "leave the toolkit default". */
module StyleTypes {
  import opened Common
  import opened Colors

  datatype FontStyleValue = Normal | Italic
  datatype TextAlignValue = AlignStart | AlignCenter | AlignEnd | Justify
  datatype FlexDirection = Row | Column
  datatype CrossAlign = CrossStart | CrossCenter | CrossEnd | Fill | Baseline
  datatype MainAlign = MainStart | MainCenter | MainEnd | SpaceBetween | SpaceAround | SpaceEvenly

  /** Padding: one value for all four sides, or each side on its own. */
  datatype PaddingValue =
    | Uniform(v: real)
    | Sides(top: real, right: real, bottom: real, left: real)

  datatype BoxStyle = BoxStyle(
    fontSize: Option<real>,
    fontWeight: Option<real>,
    fontStyle: Option<FontStyleValue>,
    fontFamily: Option<string>,
    color: Option<ColorValue>,
    letterSpacing: Option<real>,
    lineHeight: Option<real>,
    wordSpacing: Option<real>,
    underline: Option<bool>,
    strikethrough: Option<bool>,
    textAlign: Option<TextAlignValue>,
    background: Option<ColorValue>,
    borderColor: Option<ColorValue>,
    hoverBorderColor: Option<ColorValue>,
    borderWidth: Option<real>,
    cornerRadius: Option<real>,
    padding: Option<PaddingValue>,
    width: Option<real>,
    height: Option<real>,
    flex: Option<real>,
    direction: Option<FlexDirection>,
    crossAxisAlignment: Option<CrossAlign>,
    mainAxisAlignment: Option<MainAlign>,
    gap: Option<real>,
    mustFillMainAxis: Option<bool>)

  /** `BoxStyle::default()`: every property absent. */
  const DefaultStyle := BoxStyle(None, None, None, None, None, None, None, None, None, None, None, None,
                                 None, None, None, None, None, None, None, None, None, None, None, None, None)

  /** One name per property of the style record. */
  datatype StyleField =
    | FontSizeField | FontWeightField | FontStyleField | FontFamilyField | ColorField
    | LetterSpacingField | LineHeightField | WordSpacingField | UnderlineField | StrikethroughField
    | TextAlignField | BackgroundField | BorderColorField | HoverBorderColorField | BorderWidthField
    | CornerRadiusField | PaddingField | WidthField | HeightField | FlexField | DirectionField
    | CrossAxisField | MainAxisField | GapField | MustFillField

  /** The two records agree on every property except possibly `f`. */
  predicate SameExcept(a: BoxStyle, b: BoxStyle, f: StyleField) {
    (f == FontSizeField || a.fontSize == b.fontSize) &&
    (f == FontWeightField || a.fontWeight == b.fontWeight) &&
    (f == FontStyleField || a.fontStyle == b.fontStyle) &&
    (f == FontFamilyField || a.fontFamily == b.fontFamily) &&
    (f == ColorField || a.color == b.color) &&
    (f == LetterSpacingField || a.letterSpacing == b.letterSpacing) &&
    (f == LineHeightField || a.lineHeight == b.lineHeight) &&
    (f == WordSpacingField || a.wordSpacing == b.wordSpacing) &&
    (f == UnderlineField || a.underline == b.underline) &&
    (f == StrikethroughField || a.strikethrough == b.strikethrough) &&
    (f == TextAlignField || a.textAlign == b.textAlign) &&
    (f == BackgroundField || a.background == b.background) &&
    (f == BorderColorField || a.borderColor == b.borderColor) &&
    (f == HoverBorderColorField || a.hoverBorderColor == b.hoverBorderColor) &&
    (f == BorderWidthField || a.borderWidth == b.borderWidth) &&
    (f == CornerRadiusField || a.cornerRadius == b.cornerRadius) &&
    (f == PaddingField || a.padding == b.padding) &&
    (f == WidthField || a.width == b.width) &&
    (f == HeightField || a.height == b.height) &&
    (f == FlexField || a.flex == b.flex) &&
    (f == DirectionField || a.direction == b.direction) &&
    (f == CrossAxisField || a.crossAxisAlignment == b.crossAxisAlignment) &&
    (f == MainAxisField || a.mainAxisAlignment == b.mainAxisAlignment) &&
    (f == GapField || a.gap == b.gap) &&
    (f == MustFillField || a.mustFillMainAxis == b.mustFillMainAxis)
  }
}
