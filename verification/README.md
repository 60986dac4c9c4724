# appjs command bridge — a Dafny model

appjs lets a script process (Bun or an embedded engine) build and change a
native desktop user interface. The script names widgets with string ids and
sends commands over a length-prefixed MessagePack channel. The UI side keeps
a registry that maps each id to a native widget handle, a kind, a parent and
a position among the parent's children. It applies every command to the
native widget tree and sends widget actions back to the script as events.

This project models that bridge in Dafny and proves what it promises:

- **Wire framing** (`Framing`): a 4-byte little-endian length, then the
  payload. Writer and reader are classes over a byte stream. A frame just
  written reads back as the value written, and a frame cut anywhere is an
  unexpected end of stream.
- **Protocol translation**: the `ui` revision's `handle_client_message`,
  kind alias table and widget-data builder (`Server`); the `js_thread`
  revision's message mapping and log levels (`JsBridge`); and the older op
  layer (`IpcOps`) with its JSON escaping and event serialisation. The
  repository carries several revisions of the command type. Each is
  modelled as written, as its own datatype, and none are merged.
- **String parsers**: the colour parser (`Colors`) and the hand-rolled
  style scanner and property setter (`StyleParser`).
- **Widget registry** (`Registry`): a `WidgetManager` class whose maps are
  updated in place. Its removal deletes a subtree and renumbers the
  surviving siblings to `0..n-1`, and keeps parent links, contiguity and
  "nothing else changes".
- **Creation** (`Toolkit`, `Constructors`, `Creation`): the attach table of
  both revisions and the per-kind constructors. A record is registered only
  when attaching succeeded.
- **Dispatchers**: both revisions' dispatchers (`Handler`, `ThreadHandler`).
  Each command maps to its native edits, and each failure to a non-fatal
  diagnostic. A removal can give both: a stale child index is reported and
  then clamped, and a stale index under a missing parent gives two
  diagnostics.
- **Driver and hover** (`Driver`, `Hover`): the ui-thread driver's reverse
  lookup and action-to-event mapping, and the hover container's state
  machine.
- **Small helpers**: the module specifier resolvers (`ModuleLoader`), the
  video widget's URI normaliser and overlay key (`Video`), and the
  launcher's script path normaliser (`ScriptPath`).

The native toolkit is modelled as a log of edit operations (`RenderRoot`),
and the event channel as a log of sent events. The following stay abstract
and are passed in as function parameters:

- the MessagePack codec;
- serde JSON decoding;
- number parsing;
- image decoding;
- URL parsing and resolution;
- `canonicalize`.

Floating-point numbers are `real`.

## Model

| member | source | states |
|---|---|---|
| Colors.ParseByte | src/ipc/color.rs:21-30 | a byte parses exactly from a non-empty run of digits of the radix, after at most one leading `+`, whose value is below 256, and it is that value; any other character, and a leading minus sign, is rejected |
| Colors.Parse | src/ipc/color.rs:15-131 | no colour only for trimmed text starting with `#`, `rgb(` or `rgba(`; `#` text of any length but 7 or 9 is no colour; a `#` colour is RGBA, opaque for six digits; a `Named` colour is the lower-cased trimmed text and never a name of the table |
| Colors.ParseHex | src/ipc/color.rs:18-34 | a body of any length but 6 or 8 is no colour; otherwise there is a colour exactly when every two-digit pair parses as a hex byte, and its channels are those bytes, with alpha 255 for six digits |
| Colors.HexRejectsNonDigit | src/ipc/color.rs:19-33 | a six- or eight-character body holding a character that is neither a hex digit nor `+` is no colour |
| Colors.HashNonHexRejected | src/ipc/color.rs:16-34 | `#` followed anywhere by a character that is neither a hex digit nor `+` is no colour |
| Colors.RgbComponentRejected | src/ipc/color.rs:41-44 | an `rgb(`/`rgba(` list whose first, second or third component is not a decimal byte is no colour |
| Colors.RgbOutOfRangeRejected | src/ipc/color.rs:42 | `rgb(r,g,b)` with a decimal red of 256 or more is no colour |
| Colors.AlphaByte | src/ipc/color.rs:45-47 | the `rgba` alpha cast: 0 at or below 0.0, 255 at or above 1.0, and in between the largest byte not above `af * 255` |
| Colors.ParseRgb | src/ipc/color.rs:36-54 | fewer than three components is no colour; otherwise there is a colour exactly when the first three trimmed components parse as decimal bytes and a fourth, if present, parses as a number; the channels are those bytes, and the alpha is 255 for three components and the cast of the fourth otherwise |
| Colors.NamedColorTable | src/ipc/color.rs:56-131 | a name is kept as `Named` (lower-cased) exactly when it is outside the thirteen-name table; only `transparent` has zero alpha |
| Colors.ParseIgnoresSurroundingSpace | src/ipc/color.rs:16 | surrounding whitespace never changes the parsed colour |
| Colors.HexRoundTrip | src/ipc/color.rs:19-25 | `#rrggbb` written from three bytes parses back to them with alpha 255 |
| Colors.HexAlphaRoundTrip | src/ipc/color.rs:26-31 | `#rrggbbaa` written from four bytes parses back to them |
| Colors.RgbRoundTrip | src/ipc/color.rs:35-51 | `rgb(r,g,b)` written in decimal parses back to the three bytes, opaque |
| Colors.RgbOfDigits | src/ipc/color.rs:40-51 | any all-digit components that parse as bytes give that opaque colour |
| Colors.NamedCaseInsensitive | src/ipc/color.rs:57 | named colours are matched without regard to letter case |
| JsBridge.ParseWidgetKind | src/js_thread/mod.rs:39-58 | any name outside the alias table is a custom kind carrying the name unchanged |
| JsBridge.ParseWidgetKindRange | src/js_thread/mod.rs:39-58 | the result is a kind the table names, or `Custom(name)`; Svg, Image and Hoverable are never produced |
| JsBridge.ParseWidgetKindNames | src/js_thread/mod.rs:41-55 | each kind in the table is reached from its own variant name |
| JsBridge.UnaliasedNames | src/js_thread/mod.rs:56 | `svg`, `image` and `hoverable` become custom kinds in this revision |
| JsBridge.LogLevelOf | src/js_thread/mod.rs:60-68 | Debug, Warn and Error come only from their exact names; everything else is Info |
| JsBridge.LogLevelRoundTrip | src/js_thread/mod.rs:60-68 | every level is reached from its own name |
| JsBridge.HandleJsMessage | src/js_thread/mod.rs:70-126 | every message yields a command; `Ready` logs the fixed ready text at Info; a restyle with a style that does not parse is the default style; a create keeps id, parent and text, has no style without style text and otherwise the style the style parser makes of that text; a log goes through the level table |
| JsBridge.ForwardedFieldsUnchanged | src/js_thread/mod.rs:88-116 | every forwarding message is recovered from its command: no field is lost or altered |
| StyleParser.SplitJsonPairs | src/js_thread/style_parser.rs:66-94 | the scanning loop returns exactly the pieces cut at top-level commas (`JsonPairs`) |
| StyleParser.PairsRejoin | src/js_thread/style_parser.rs:83-92 | the pieces joined with commas give back the input, less a trailing top-level comma |
| StyleParser.NoCutOnePair | src/js_thread/style_parser.rs:90-92 | a non-empty input without a top-level comma is one pair |
| StyleParser.EscapedCharStaysInString | src/js_thread/style_parser.rs:74-79 | inside a string a backslash skips the next character, so `\"` does not close the string |
| StyleParser.CommaInStringNoCut | src/js_thread/style_parser.rs:83 | a comma inside a string literal never separates pairs |
| StyleParser.ParseJsonKv | src/js_thread/style_parser.rs:97-106 | a pair has a key and value exactly when it contains a colon |
| StyleParser.KvRoundTrip | src/js_thread/style_parser.rs:97-106 | `"key": value` gives back the key and the trimmed value |
| StyleParser.UnquoteQuoted | src/js_thread/style_parser.rs:109-114 | a quoted text without backslashes unquotes to itself |
| StyleParser.UnquoteUnquoted | src/js_thread/style_parser.rs:115-116 | text not starting with a quote is only trimmed |
| StyleParser.BoolRoundTrip | src/js_thread/style_parser.rs:287-294 | `true`/`false`, bare or quoted, parse back to the boolean |
| StyleParser.CamelCaseArmsUnreachable | src/js_thread/style_parser.rs:259-268 | a lower-cased keyword never equals `spaceBetween`, `spaceAround` or `spaceEvenly`, so those arms are dead |
| StyleParser.SpaceBetweenCamelCase | src/js_thread/style_parser.rs:264 | `"spaceBetween"` is rejected by the table as written and accepted by the corrected table |
| StyleParser.SetMainAxisIntended | src/js_thread/style_parser.rs:259-268 | the corrected main-axis setter changes only the main-axis alignment, and agrees with the table as written wherever that table recognises the keyword |
| StyleParser.SpaceBetweenCorrected | src/js_thread/style_parser.rs:264 | with `"spaceBetween"` the corrected setter selects SpaceBetween, where the table as written gives nothing |
| StyleParser.KeywordTablesCover | src/js_thread/style_parser.rs:145-268 | every font-style, text-align, direction, cross-axis and main-axis value is reached by its canonical spelling |
| StyleParser.QuotedKeyword | src/js_thread/style_parser.rs:131 | a lower-case keyword in quotes reads back as that keyword |
| StyleParser.NoKeyForHoverBorder | src/js_thread/style_parser.rs:124-283 | no key sets the hover border colour |
| StyleParser.NumbersOf | src/js_thread/style_parser.rs:202-205 | the numbers kept from a comma list are never more than its pieces |
| StyleParser.PaddingFromParts | src/js_thread/style_parser.rs:206-225 | a list gives padding exactly when it holds 1, 2 or 4 numbers |
| StyleParser.PaddingShorthands | src/js_thread/style_parser.rs:207-222 | two numbers are the four-number form with opposite sides repeated; one number is uniform |
| StyleParser.PaddingUpdate | src/js_thread/style_parser.rs:196-228 | a single number is uniform padding; text with no number and no comma leaves the padding unchanged |
| StyleParser.SetFieldSameExcept | src/js_thread/style_parser.rs:126-275 | setting one property leaves every other property of the style unchanged |
| StyleParser.ApplyStyleProperty | src/js_thread/style_parser.rs:122-285 | the result is true exactly for a recognised key; then only that key's property changes, otherwise the style is untouched |
| StyleParser.ApplyStyleValue | src/js_thread/style_parser.rs:122-285 | the value each key stores, whatever whitespace surrounds the value: colours by the colour parser on the unquoted text; underline, strikethrough and must-fill by the JSON boolean reader; font style, text align, direction and both axis alignments by their tables after unquoting and lower-casing, the main axis by the table as written; the font family as the unquoted text; the weight as a number or else a weight keyword; font size, letter spacing, line height and word spacing as 32-bit numbers and width, height, border width, corner radius, flex and gap as 64-bit numbers, each inside optional quotes; padding by the padding update |
| StyleParser.SetFieldWordValues | src/js_thread/style_parser.rs:126-275 | for the setter on a value text: the colour, flag, keyword, font family and font weight fields are read as the source reads them, the same with or without surrounding whitespace |
| StyleParser.SetFieldNumberValues | src/js_thread/style_parser.rs:126-275 | for the setter on a value text: every numeric field (font size, the three spacings, width, height, border width, corner radius, flex, gap) is the number in the optional quotes, at its width, and padding is the padding update |
| StyleParser.JustifySpaceBetweenCleared | src/js_thread/style_parser.rs:259-268 | `justifyContent` with `"spaceBetween"` is recognised and sets the main-axis alignment to None, overwriting any earlier value, and changes nothing else |
| StyleParser.ApplyIdempotent | src/js_thread/style_parser.rs:122-285 | applying the same key and value twice is applying it once |
| StyleParser.PaddingUpdateIdempotent | src/js_thread/style_parser.rs:196-228 | the padding update is idempotent |
| StyleParser.ParseStyleJson | src/js_thread/style_parser.rs:7-37 | the loop over the pairs returns `StyleFromJson` |
| StyleParser.ApplyPairsAny | src/js_thread/style_parser.rs:23-36 | the "any recognised" flag is set exactly when some pair names a recognised key |
| StyleParser.StyleFromJsonSomeIff | src/js_thread/style_parser.rs:7-37 | a style is produced exactly when the text is not empty, `{}` or `null` and some pair names a recognised key |
| StyleParser.ExtractJsonValue | src/js_thread/style_parser.rs:41-63 | the value of the first pair with the wanted key, and None exactly when no pair has that key |
| IpcOps.WidgetFieldOfKey | src/js_thread/ipc_ops.rs:142-320 | every box-style key keeps the property it has in the style parser, and a box property is set only by its style-parser key |
| IpcOps.ApplyWidgetStyleProperty | src/js_thread/ipc_ops.rs:142-320 | an unknown key changes nothing; a box key sets the box style exactly as the style parser does; a widget key leaves the box style alone |
| IpcOps.WidgetKeyValues | src/js_thread/ipc_ops.rs:297-314 | each widget key sets its own property and nothing else: minimum, maximum, step and progress as numbers inside optional quotes, the checked state by the JSON boolean reader, the placeholder as the unquoted text |
| IpcOps.WidgetJustifySpaceBetweenCleared | src/js_thread/ipc_ops.rs:275-284 | the same main-axis table as the style parser: `justifyContent` with `"spaceBetween"` sets the main-axis alignment to None and changes nothing else |
| IpcOps.ParseWidgetStyleJson | src/js_thread/ipc_ops.rs:53-86 | the loop over the pairs returns `WidgetStyleFromJson` |
| IpcOps.ApplyWidgetPairsAny | src/js_thread/ipc_ops.rs:73-83 | the "any" flag is set exactly when some pair has a colon |
| IpcOps.WidgetStyleFromJsonSomeIff | src/js_thread/ipc_ops.rs:53-86 | a style is produced exactly when the text is not empty, `{}` or `null` and some pair has a colon, known key or not |
| IpcOps.ApplyPairsAgree | src/js_thread/ipc_ops.rs:74-83 | applying the pairs gives the same box style as the style parser's loop |
| IpcOps.AgreesWithStyleParser | src/js_thread/ipc_ops.rs:53-86 | every style the style parser accepts is accepted here too, with the same box properties |
| IpcOps.OpCreateWidget | src/js_thread/ipc_ops.rs:338-358 | a create command with the id, parent and text given, the kind through the alias table, and, when style text was given, exactly the style read from it (none when it does not parse); no style when none was given |
| IpcOps.OpSetWidgetStyle | src/js_thread/ipc_ops.rs:400-413 | a restyle command carrying the parsed style, or the default style when it does not parse |
| IpcOps.OpLog | src/js_thread/ipc_ops.rs:485-504 | a log command with the message unchanged and the level through the level table |
| IpcOps.EscapeIsPerCharacter | src/js_thread/ipc_ops.rs:616-622 | the five replacement passes escape each character on its own, because the backslash pass runs first |
| IpcOps.EscapedHasNoRawControl | src/js_thread/ipc_ops.rs:616-622 | escaped text holds no raw newline, carriage return or tab, and every double quote in it comes right after a backslash |
| IpcOps.EscapeRoundTrip | src/js_thread/ipc_ops.rs:616-622 | a JSON reader's unescaping recovers the original text |
| IpcOps.EscapeInjective | src/js_thread/ipc_ops.rs:616-622 | distinct texts have distinct escapes |
| IpcOps.TypeTag | src/js_thread/ipc_ops.rs:531-614 | every event's type tag is non-empty and differs from `disconnected` at its first letter |
| IpcOps.SerializeEvent | src/js_thread/ipc_ops.rs:531-614 | every event is written as a JSON object that starts with its `"type"` field |
| IpcOps.SerializedNoRawControl | src/js_thread/ipc_ops.rs:531-622 | for every event, when the number formatter writes no raw control character, the serialised text holds no raw newline, carriage return or tab: every free text (key, text input, widget id, action value) goes through the escaper |
| IpcOps.DisconnectedIsNotAnEvent | src/js_thread/ipc_ops.rs:524-527 | the disconnect notice is never the JSON of an event |
| IpcOps.TextInputInjective | src/js_thread/ipc_ops.rs:531-614 | text-input events with different texts are written differently |
| Server.ParseWidgetKind | src/ipc/server.rs:63-85 | any name outside the alias table is a custom kind carrying the name unchanged |
| Server.ParseWidgetKindNames | src/ipc/server.rs:63-85 | every built-in kind is reached from its variant name; `box`, `scroll`, `img` and `icon` name SizedBox, Portal, Image and Svg |
| Server.GetString | src/ipc/server.rs:168-180 | a string under the key in the parameters wins over the style object |
| Server.GetBool | src/ipc/server.rs:181-192 | a boolean under the key in the parameters wins over the style object |
| Server.GetF64 | src/ipc/server.rs:193-216 | a number under the key in the parameters wins over the style object |
| Server.GetF64NumbersOnly | src/ipc/server.rs:193-216 | the integer fallbacks never change the outcome: a number comes from the parameters if they hold one, else from the style |
| Server.BuildWidgetData | src/ipc/server.rs:157-297 | no data exactly for an image without bytes; a checkbox is unchecked unless `checked` says otherwise; a custom kind carries its name |
| Server.SliderDefaults | src/ipc/server.rs:249-290 | with neither document a slider spans 0 to 1 at 0.5 with no step, and a checkbox is unchecked |
| Server.SliderMinPrecedence | src/ipc/server.rs:270-273 | `minValue` beats `min_value`, which beats `min`, which beats the default 0 |
| Server.ParamsTakePrecedence | src/ipc/server.rs:168-216 | for every key, a parameter value beats a style value |
| Server.HandleClientMessage | src/ipc/server.rs:87-150 | every message yields a command; a restyle whose style does not decode is the default style; a create carries its fields, its kind through the table and its creation data |
| Server.ForwardedFieldsUnchanged | src/ipc/server.rs:87-150 | every forwarding message is recovered from its command |
| Server.RuntimeErrorFromUiEvent | src/ipc/server.rs:48-61 | a runtime-error event becomes the dedicated message and no other event does; never a shutdown |
| Server.EventRoundTrip | src/ipc/server.rs:48-61 | no event is lost or altered on its way to the client |
| Framing.LeRoundTrip | src/ipc/msgpack.rs:84-98 | the 4-byte little-endian length reads back as the length written |
| Framing.FromLeRoundTrip | src/ipc/msgpack.rs:96-98 | any 4 header bytes are the encoding of the length they read as |
| Framing.Frame | src/ipc/msgpack.rs:84-86 | a frame is four header bytes longer than its payload |
| Framing.ReadFrameAt | src/ipc/msgpack.rs:91-109 | reading never moves backwards or past the end; a stream too short for the header fails with `UnexpectedEof`, and an early end consumes the stream |
| Framing.FrameRoundTrip | src/ipc/msgpack.rs:72-109 | reading a frame just written yields the value written and stops right after the frame, whatever surrounds it |
| Framing.TruncatedFrameFails | src/ipc/msgpack.rs:96-101 | a frame cut anywhere before its end fails with `UnexpectedEof` |
| Framing.OversizedPayloadHeader | src/ipc/msgpack.rs:84 | a payload of 4 GiB or more gets a header naming its length modulo 2^32, a shorter length |
| Framing.WriteFrame | src/ipc/msgpack.rs:72-89 | an encoding failure is `InvalidData` and writes nothing; otherwise the header, the payload and the flush are tried in turn and the result is Ok exactly when none of the three calls fails; on success the peer holds everything written so far plus the frame; on failure the error is the writer's, what reached the writer is a prefix of the frame, and nothing of the payload follows a failed header |
| Framing.Source.ReadExact | src/ipc/msgpack.rs:97 | `read_exact` fills the buffer from the stream exactly when enough bytes remain, else consumes the rest and fails |
| Framing.ReadFrame | src/ipc/msgpack.rs:91-109 | the reader's outcome and new position are those of `ReadFrameAt` |
| Framing.LeBytes | src/ipc/msgpack.rs:84-85 | the length header is four bytes |
| Framing.FromLe | src/ipc/msgpack.rs:98 | four header bytes always read as a length below 2^32 |
| Framing.Sink.WriteAll | src/ipc/msgpack.rs:85-86 | `write_all` appends the bytes to what is buffered and delivers nothing yet; a failing call is an error and keeps only the bytes it took |
| Framing.Sink.Flush | src/ipc/msgpack.rs:87 | `flush` delivers what is buffered, in order; on success all of it and the buffer is empty, on failure an error with only part delivered and nothing lost or reordered |
| Styles.ToPeniko | src/ui_thread/styles.rs:16-25 | an unparsed colour name becomes opaque white |
| Styles.PenikoRoundTrip | src/ui_thread/styles.rs:16-25 | a parsed colour reaches the toolkit with its four components unchanged |
| Styles.HexColorReachesToolkit | src/ui_thread/styles.rs:16-18 | a six-digit hex colour from a style reaches the toolkit as the same opaque colour |
| Styles.BuildTextStyles | src/ui_thread/styles.rs:30-73 | the conditional pushes build exactly the slot-by-slot list `TextStyles` |
| Styles.InTextStyles | src/ui_thread/styles.rs:30-73 | an entry is emitted exactly when its own conditional produces it |
| Styles.FontEntries | src/ui_thread/styles.rs:33-54 | size, weight and style entries appear exactly when set, with their values; the font stack always appears, named for a set family and sans-serif otherwise |
| Styles.SpacingEntries | src/ui_thread/styles.rs:55-63 | letter spacing, line height and word spacing entries appear exactly when set, with their values |
| Styles.DecorationEntries | src/ui_thread/styles.rs:64-69 | underline and strikethrough appear only when set to true, never as false |
| Styles.TextStylesOrdered | src/ui_thread/styles.rs:30-73 | entries keep the fixed order, so each kind of entry appears at most once |
| Styles.DefaultTextPropsAgree | src/ui_thread/styles.rs:205-212 | the default text props are what a style with only size 20 produces |
| Styles.BuildBoxProperties | src/ui_thread/styles.rs:76-119 | the rebinding sequence builds the same set as applying the style to an empty widget |
| Styles.ApplyBoxPropsSpec | src/ui_thread/styles.rs:123-165 | exactly the properties of the set fields are inserted, with the converted values; every other property is kept |
| Styles.PaddingSides | src/ui_thread/styles.rs:97-115 | each padding side lands on the toolkit side of the same name; uniform padding sets all four |
| Styles.ApplyBoxPropsIdempotent | src/ui_thread/styles.rs:123-165 | applying the same style twice is applying it once |
| Styles.FlexWidget.ApplyFlexStyle | src/ui_thread/styles.rs:168-202 | box properties as `ApplyBoxProps`; each flex setting takes the style's value when set and keeps its own otherwise |
| Styles.DefaultStyleChangesNothing | src/ui_thread/styles.rs:123-165 | the all-absent style changes no property |
| Toolkit.RenderRoot.Edit | src/ui/widgets/utils.rs:35-42 | one edit of the live tree is appended to the log and nothing else changes |
| Toolkit.IdAllocator.Next | src/ui/widgets/utils.rs:13 | the counter hands out its current value and moves one past it, so ids are never reused |
| Toolkit.PlaceUi | src/ui/widgets/utils.rs:20-107 | no parent means the root flex; otherwise a slot exists exactly when the parent is registered as a container, and a hover container only while no record names it as parent; the slot is the one that kind offers |
| Toolkit.PlaceUiThread | src/ui_thread/widgets/utils.rs:20-87 | no parent means the root flex; a hover container is never chosen |
| Toolkit.RevisionsAgreeExceptHoverable | src/ui_thread/widgets/utils.rs:33-83 | the two revisions choose the same slot for every parent except a hover container, which the `ui_thread` revision rejects |
| Toolkit.HoverableHoldsOne | src/ui/widgets/utils.rs:75-89 | once a record names a hover container as parent, further inserts into it fail |
| Toolkit.EmptyHoverableAccepts | src/ui/widgets/utils.rs:75-94 | an empty hover container accepts a child into its single slot |
| Toolkit.AddToParent | src/ui/widgets/utils.rs:13-108 | reports success exactly when `PlaceUi` finds a slot, and makes exactly that one insertion, with the flex factor only for flex slots |
| Toolkit.AddToParentWrapped | src/ui_thread/widgets/utils.rs:13-88 | the same with `PlaceUiThread`, inserting the widget inside a hover wrapper |
| Constructors.PropsOr | src/ui_thread/styles.rs:76-119 | without a style the constructor's fallback set; with one, exactly the properties the style sets |
| Constructors.TextStylesOr | src/ui_thread/widgets/label.rs:28-35 | without a style the fallback list; with one, a list in the fixed slot order |
| Constructors.MustFillOf | src/ui/widgets/flex.rs:58-64 | with a grow factor, fill defaults to true unless set; without one, only an explicit setting is applied |
| Constructors.LabelContents | src/ui_thread/widgets/label.rs:24-43 | a label shows its text or `[Label]`; without a style it is 30-point sans-serif in white; with one it carries exactly the style's text entries, in slot order |
| Constructors.CreateLabel | src/ui_thread/widgets/label.rs:14-62 | one hover-wrapped insertion where the `ui_thread` revision places it, and the record filed exactly when that succeeded |
| Constructors.SvgSource | src/ui_thread/widgets/svg.rs:24-28 | the markup from the SVG data when present, otherwise the text |
| Constructors.CreateSvg | src/ui_thread/widgets/svg.rs:10-62 | without a source nothing is inserted or filed; otherwise as for a label |
| Constructors.CreateFlex | src/ui/widgets/flex.rs:11-90 | one insertion of the flex where `PlaceUi` places it; on success the record under the requested kind and a zero child counter |
| Constructors.LayoutSettingsWin | src/ui/widgets/button.rs:36-85 | a layout setting the style makes is used by both the flex and the button row; the fill rule is the same in both |
| Constructors.LayoutDefaults | src/ui/widgets/button.rs:36-77 | without settings a flex is a column left to toolkit defaults, and a button row is a centred row with gap 8 |
| Constructors.CreateButton | src/ui/widgets/button.rs:15-129 | one insertion of the button; on success the record and a zero child counter |
| Constructors.ObjectFitRoundTrip | src/ui/widgets/image.rs:34-43 | every fit is reached from its canonical name in any letter case |
| Constructors.ObjectFitIgnoresCase | src/ui/widgets/image.rs:35 | letter case never changes the fit |
| Constructors.CreateImage | src/ui/widgets/image.rs:45-110 | without image data, or with bytes the decoder rejects, nothing is inserted or filed; otherwise one insertion and the record on success |
| Constructors.UpdateImageData | src/ui/widgets/image.rs:113-126 | decoded bytes replace the image's pixels; bytes the decoder rejects change nothing |
| Constructors.CustomPlaceholder | src/ui/widgets/custom.rs:26 | the placeholder is the kind's `Debug` name in brackets |
| Kinds.DebugName | src/ui/widgets/custom.rs:26 | the `Debug` name of a kind is never empty; only a custom kind's name holds a quote, and it is `Custom("…")` around the escaped custom name |
| Kinds.DebugEscape | src/ui/widgets/custom.rs:26 | the escaped name is never shorter than the name |
| Kinds.DebugEscapeQuotes | src/ui/widgets/custom.rs:26 | in the escaped name every double quote comes right after a backslash |
| Kinds.DebugEscapePlain | src/ui/widgets/custom.rs:26 | a name holding no quote, backslash, newline, carriage return, tab or NUL is written as it is |
| Kinds.CustomQuoteEscaped | src/ui/widgets/custom.rs:26 | the custom kind `a"b` is written `Custom("a\"b")` |
| Constructors.LabelLikeFallbacks | src/ui/widgets/custom.rs:26-44 | label, button caption and custom widget differ only in placeholder text and fallback size (30, 20, 16) |
| Constructors.CreateCustom | src/ui/widgets/custom.rs:13-64 | one insertion of the label standing for the custom kind; the record is filed under the custom kind itself |
| Constructors.CheckboxStartsUnchecked | src/ui/widgets/checkbox.rs:25-28 | a checkbox starts checked exactly when its data says checked |
| Constructors.CreateCheckbox | src/ui/widgets/checkbox.rs:10-54 | one insertion of the checkbox; the record on success |
| Constructors.SliderSettings | src/ui/widgets/slider.rs:23-36 | range, value and step all come from slider data; without it the slider spans 0 to 1, starts half way and is continuous |
| Constructors.CreateSlider | src/ui/widgets/slider.rs:10-60 | one insertion of the slider; the record on success |
| Constructors.CreatePlain | src/ui_thread/creation.rs:103-207 | a kind whose constructor is not part of this model inserts what it was given, hover-wrapped, at its placement, and files the record exactly when it was placed |
| Creation.BuiltWidget | src/ui_thread/creation.rs:27-233 | nothing is built exactly for the hover kind, an SVG without a source, or an image without decodable image data; labels, SVGs and the remaining kinds are hover-wrapped; the other constructors build their widget under the reserved id |
| Creation.BuiltIgnoresIdAndStyle | src/ui_thread/creation.rs:27-233 | whether a widget is built never depends on the id or the style |
| Creation.NoContainerNoRecord | src/ui/widgets/utils.rs:96-107 | a parent that is missing or is not a container rejects every child, so no record is filed |
| Creation.RootAcceptsAll | src/ui/widgets/utils.rs:22-30 | without a parent, a record is filed exactly when something was built; labels, buttons, flexes and checkboxes always are |
| Creation.Construct | src/ui_thread/creation.rs:27-233 | the constructor of the kind inserts what `BuiltWidget` describes where that kind's revision of `add_to_parent` places it, and files the record exactly when that succeeded, with a child counter for container kinds |
| Creation.ConstructWrapped | src/ui_thread/creation.rs:28-39 | the same, for the kinds inserted through the hover-wrapping revision |
| Creation.ConstructDirect | src/ui_thread/creation.rs:40-52 | the same, for the kinds inserted through the plain revision |
| Creation.CreateAndAddWidget | src/ui_thread/creation.rs:8-234 | one fresh toolkit id; the parent key's counter set past the new index; the record carries the live child count of its parent as index, so contiguous child indices stay contiguous |
| Registry.ParentKey | src/ui/widget_manager.rs:116 | a record sits under exactly one key: its parent id, or the root key when it has none |
| Registry.Range | src/ui/widget_manager.rs:95-99 | the indices 0 to n-1 |
| Registry.OwnSiblingCountPositive | src/ui/widget_manager.rs:48-53 | a registered record counts among the children of its own parent key, so that count is at least one |
| Registry.InsertKeepsContiguous | src/ui/widget_manager.rs:55-59 | filing a record at index `ChildCount` keeps the parent's child indices exactly 0..n, with one more child |
| Registry.InsertKeepsDistinct | src/ui/widget_manager.rs:55-59 | after such a filing no two children share an index |
| Registry.SortByChildIndex | src/ui/widget_manager.rs:81-93 | the children, each once, ordered by child index |
| Registry.WidgetManager.constructor | src/ui/widget_manager.rs:32-39 | an empty registry with a zero counter for the root key |
| Registry.WidgetManager.NextChildIndex | src/ui/widget_manager.rs:55-59 | returns the live child count of the key and records it plus one as the key's counter; no record changes |
| Registry.WidgetManager.CollectDescendants | src/ui/widget_manager.rs:61-78 | appends exactly the records whose parent chain reaches the given id |
| Registry.WidgetManager.RecomputeParentState | src/ui/widget_manager.rs:80-102 | renumbers the key's children 0..n-1 keeping their order, touches no other record, and records n as the key's counter |
| Registry.WidgetManager.RemoveWidgetSubtree | src/ui/widget_manager.rs:104-120 | an unknown id changes nothing; otherwise the id and everything below it go, with their counters, and the siblings left are renumbered 0..n-1 in their old order |
| Registry.RenumberedFacts | src/ui/widget_manager.rs:93-101 | after the renumbering loop the children's indices are contiguous and keep their order |
| Registry.RemovalFacts | src/ui/widget_manager.rs:104-120 | the removed keys are exactly the subtree, nothing below the id survives, and the siblings keep their order |
| Handler.Report | src/ui/handler.rs:16-24 | every error the handler reports is a non-fatal runtime error from `ui-handler` carrying the message |
| Handler.EventSink.Send | src/ui/handler.rs:16-24 | one event is appended to what was sent and nothing else changes |
| Handler.TextEdit | src/ui/handler.rs:60-121 | a text edit exists exactly for labels, prose, text inputs and SVG pictures |
| Handler.ValueEdit | src/ui/handler.rs:123-160 | a value edit exists exactly for progress bars and sliders |
| Handler.LabelStyleEdits | src/ui/handler.rs:205-214 | one label-style insertion per entry `build_text_styles` gives, in order |
| Handler.LabelInsertions | src/ui/handler.rs:208-210 | one insertion per entry, in order |
| Handler.StyleEdits | src/ui/handler.rs:192-284 | style edits exist exactly for labels, buttons, SVGs, flexes, containers, progress bars, sliders, sized boxes and images; an image gets none |
| Handler.StripQuotePair | src/ui/handler.rs:314-318 | one enclosing pair of quotes is removed; anything else is kept whole |
| Handler.ClassifyValue | src/ui/handler.rs:298-319 | a number first; a boolean only from `true` or `false`; JSON text only when it starts with `{` or `[`; otherwise the string with its quote pair stripped |
| Handler.PropertyStyle | src/ui/handler.rs:322-333 | a one-property object the style decoder rejects gives the all-absent style |
| Handler.QuotedTextIsString | src/ui/handler.rs:312-319 | a quoted non-number becomes exactly the text between the quotes |
| Handler.LoneQuoteKept | src/ui/handler.rs:314-318 | a single `"` is kept as the string it is |
| Handler.InvalidJsonIsString | src/ui/handler.rs:308-319 | an object or array that is not valid JSON falls through to a string |
| Handler.SafeIndex | src/ui/handler.rs:378-394 | the index removed is the record's own index when it is in range, and the last position otherwise |
| Handler.ChildRemoval | src/ui/handler.rs:396-432 | the root key always names the root flex's child list |
| Handler.RemovalAlwaysHasSiblings | src/ui/handler.rs:358-375 | a registered widget counts among its parent's children, so the "no siblings" branch never runs |
| Handler.ContiguousRemovalIsExact | src/ui/handler.rs:378-432 | while siblings are numbered 0..n-1 the clamp never fires: the widget's own position is removed and nothing is reported |
| Handler.EditOrReport | src/ui/handler.rs:60-514 | each command edits the tree or reports why not, never both, at most one report; only an image given a style or undecodable bytes does neither |
| Handler.UnknownWidgetReported | src/ui/handler.rs:60-514 | a command naming an unregistered widget edits nothing and reports it not found, under the command's own name |
| Handler.ReportsNeverFatal | src/ui/handler.rs:16-24 | everything the handler reports is a non-fatal error from `ui-handler` |
| Handler.LabelStyleOrder | src/ui/handler.rs:205-214 | a label's style edits insert its text properties in fixed order, each at most once, then apply the box properties |
| Handler.TextCommand | src/ui/handler.rs:60-121 | the edits and reports of `TextEffect` |
| Handler.ValueCommand | src/ui/handler.rs:123-160 | the edits and reports of `ValueEffect` |
| Handler.CheckedCommand | src/ui/handler.rs:162-190 | the edits and reports of `CheckedEffect` |
| Handler.InsertLabelStyles | src/ui/handler.rs:208-210 | the insertion loop appends exactly `LabelInsertions` |
| Handler.StyleLabel | src/ui/handler.rs:205-214 | the label arm appends the text-style insertions, then the box-style edit |
| Handler.StyleCommand | src/ui/handler.rs:192-284 | the edits and reports of `StyleEffect` |
| Handler.ImageCommand | src/ui/handler.rs:489-514 | the edits and reports of `ImageEffect` |
| Handler.DetachFromParent | src/ui/handler.rs:396-458 | a missing parent is reported and nothing is edited; otherwise the parent's removal edit, or a report when the parent kind has no removable children |
| Handler.DetachWidget | src/ui/handler.rs:355-458 | the edits and reports of `RemovalEffect` |
| Handler.RemoveCommand | src/ui/handler.rs:355-471 | the edits and reports of `RemovalEffect`; afterwards (`Handler.Removed`) the subtree and its counters are gone, the parent's surviving children are renumbered 0..n-1 in their old order, the parent's counter is n, and every record under another parent is unchanged; an unregistered id changes nothing |
| Handler.HandleClientCommand | src/ui/handler.rs:27-514 | creation is `Created`; removal as `RemoveCommand`, with the id allocator unchanged; every other command leaves the registry, its counters and the id allocator alone and makes exactly the edits and reports of `CommandEffect` |
| ThreadHandler.ThreadStyleEdits | src/ui_thread/handler.rs:145-215 | a style edit exists exactly when the `ui` revision has one and the kind is neither a sized box nor an image; then it is that same non-empty edit list |
| ThreadHandler.QuoteValue | src/ui_thread/handler.rs:228-232 | the value handed to the parser always starts with a double quote: kept as is when it already does, wrapped in quotes otherwise |
| ThreadHandler.ThreadPropertyStyle | src/ui_thread/handler.rs:217-246 | a key the script-side parser does not know gives the all-absent style; a known key changes that one property of it and nothing else |
| ThreadHandler.QuotedPlain | src/ui_thread/handler.rs:228-232 | a value without quotes or backslashes is sent in quotes, which trimming keeps and `trim_matches('"')` and unquoting remove |
| ThreadHandler.PlainPropertyValues | src/ui_thread/handler.rs:226-237 | for such a value, colours and keywords read the value as it is, the font family is the value, a flag is set only by exactly `true` or `false`, font size, letter spacing, line height and word spacing are the 32-bit reading of the value, width, height, border width, corner radius, flex and gap the 64-bit reading, the weight a number or else a weight keyword, and padding one number on all sides or else a comma list, since the quotes keep surrounding whitespace from being trimmed |
| ThreadHandler.BareAndQuotedAgree | src/ui_thread/handler.rs:228-237 | a value sent bare and the same value sent in quotes set the same style |
| ThreadHandler.QuotingKeepsNumbers | src/ui_thread/handler.rs:228-232 | the quotes added around a value never change the number text the parser reads from it |
| ThreadHandler.TrimStartKeepsSuffix | src/ui_thread/handler.rs:228-232 | trimming leading quotes from a text with one more quote at its end keeps that quote, unless the text was all quotes |
| ThreadHandler.TrimStartAllQuotes | src/ui_thread/handler.rs:228-232 | a text of only quotes followed by one more quote trims to nothing |
| ThreadHandler.RevisionsAgree | src/ui_thread/handler.rs:25-365 | for every command both revisions share (except property settings and the registry-changing ones), this revision makes exactly the `ui` revision's edits, or no edit at all for a style sent to a sized box or an image |
| ThreadHandler.UnknownPropertyIsDefault | src/ui_thread/handler.rs:217-246 | setting a property the parser does not know makes the edits of applying the all-absent style |
| ThreadHandler.TextCommand | src/ui_thread/handler.rs:50-97 | the text command appends exactly the `ui` revision's text edits for the widget |
| ThreadHandler.ValueCommand | src/ui_thread/handler.rs:98-125 | the value command appends exactly the `ui` revision's value edits for the widget |
| ThreadHandler.StyleCommand | src/ui_thread/handler.rs:145-215 | the style command appends the root flex style for the root, nothing for an unknown id, and otherwise this revision's style edits for the kind |
| ThreadHandler.RemoveCommand | src/ui_thread/handler.rs:255-333 | a removal appends the same tree edits as the `ui` revision; afterwards (`Handler.Removed`) the subtree and its counters are gone, the parent's surviving children are renumbered 0..n-1 in their old order, the parent's counter is n, and every record under another parent is unchanged |
| ThreadHandler.HandleJsCommand | src/ui_thread/handler.rs:17-365 | a creation adds the record and its edits; a removal is as `RemoveCommand`, with the id allocator unchanged; every other command leaves the registry, its counters and the allocator alone and appends exactly its edits |
| Hover.Step | src/ui/widgets/hoverable.rs:34-65 | after a hover update the effective value is "self or child hovered"; an action is submitted exactly when it changes and carries the child's id and the new value; other updates change nothing; a self-hover update sets the own flag to the new value and keeps the child flag, and a child update sets the child flag and keeps the own one |
| Hover.RunAlternates | src/ui/widgets/hoverable.rs:34-65 | from a consistent state, any sequence of updates keeps the flags consistent and submits actions that alternate, start away from the initial value and end at the current one |
| Hover.FirstActionIsEnter | src/ui/widgets/hoverable.rs:23-65 | the first action a new container submits always reports "hovered" |
| Hover.Hoverable.constructor | src/ui/widgets/hoverable.rs:23-32 | a new container has nothing hovered and has submitted nothing |
| Hover.Hoverable.UpdateHoverState | src/ui/widgets/hoverable.rs:34-43 | the effective value becomes "self or child hovered"; one action carrying it is submitted only when it changed |
| Hover.Hoverable.Update | src/ui/widgets/hoverable.rs:53-65 | an update follows `Step` exactly and keeps the flags consistent and the submitted actions alternating |
| Driver.FindJsId | src/ui_thread/driver.rs:30-36 | an answer names a record carrying the toolkit id; there is no answer exactly when no record carries it |
| Driver.CreationKeepsIdsUnique | src/ui_thread/creation.rs:24-25 | a creation keeps toolkit ids distinct and below the allocator |
| Driver.RemovalKeepsIdsUnique | src/ui/widget_manager.rs:104-120 | a removal keeps toolkit ids distinct and below the allocator |
| Driver.AnnouncementDetermined | src/ui_thread/driver.rs:30-36 | with distinct toolkit ids, the event sent for an action is determined by the registry |
| Driver.AppJsDriver.constructor | src/ui_thread/driver.rs:22-27 | a new driver has an empty registry and has sent nothing |
| Driver.AppJsDriver.OnAction | src/ui_thread/driver.rs:40-107 | a posted command makes the handler's edits and sends nothing; a toggle sets the checkbox and sends 1 or 0; a number is sent as the new value; a button press is sent as a click; anything else is ignored; events only name known widgets; a posted create makes exactly the edits, the registry change and the id step that `Creation.Created` describes; a posted removal is `Handler.Removed` with the id allocator unchanged; every other action leaves the registry, its counters and the allocator alone |
| ModuleLoader.ParsePackageVersion | src/js_thread/module_loader.rs:102-113 | without `@` the whole text is the package and the version is empty; otherwise package and version rejoin to the input around its first `@`; the path is passed through |
| ModuleLoader.PackageVersionRoundTrip | src/js_thread/module_loader.rs:102-113 | `package@version` splits back into that package and version when the package has no `@` |
| ModuleLoader.SplitN3 | src/js_thread/module_loader.rs:68 | splitting into at most three parts gives one part exactly when there is no slash, and the first two parts hold no slash |
| ModuleLoader.JsrUrlText | src/js_thread/module_loader.rs:52-57 | a specifier without `jsr:` is rejected; otherwise the rest, without leading slashes, is resolved as a scoped name |
| ModuleLoader.ScopedUrlText | src/js_thread/module_loader.rs:59-96 | a name not starting with `@` or without a slash is rejected with its message; any URL made is on `https://jsr.io/@` |
| ModuleLoader.JsrBarePackage | src/js_thread/module_loader.rs:52-96 | `jsr:@scope/package` resolves to the package's `mod.ts` |
| ModuleLoader.JsrVersionedPackage | src/js_thread/module_loader.rs:52-96 | `jsr:@scope/package@version` resolves to that version's `mod.ts` |
| ModuleLoader.JsrVersionedPath | src/js_thread/module_loader.rs:52-96 | `jsr:@scope/package@version/path` resolves to that path of that version |
| ModuleLoader.JsrUnversionedPath | src/js_thread/module_loader.rs:85-90 | `jsr:@scope/package/path` with no version resolves to that path of the package, with no `mod.ts` appended |
| ModuleLoader.ResolveJsr | src/js_thread/module_loader.rs:52-99 | a rejected specifier keeps its message; a resolved one is the URL parser's reading of the jsr.io text |
| ModuleLoader.ResolveNpm | src/js_thread/module_loader.rs:117-126 | a specifier without `npm:` is rejected; otherwise the rest is resolved on `https://esm.sh/`, or rejected naming the text the URL parser refused |
| ModuleLoader.LastDotSegment | src/js_thread/module_loader.rs:131 | the extension holds no dot and is no longer than the path |
| ModuleLoader.ExtensionAfterLastDot | src/js_thread/module_loader.rs:131 | the extension of `base.ext` is `ext` whenever `ext` has no dot |
| ModuleLoader.MediaTypeFromSpecifier | src/js_thread/module_loader.rs:129-153 | the extension after the last dot decides: `ts`/`mts`/`cts` TypeScript, `tsx` exactly for TSX, `js`/`mjs`/`cjs` exactly for JavaScript, `jsx` exactly for JSX, `json` exactly for JSON; any other extension is TypeScript for an http(s) URL and Unknown otherwise |
| ModuleLoader.TsxByExtension | src/js_thread/module_loader.rs:129-153 | a path ending in `.tsx` is TSX |
| ModuleLoader.NoDotPath | src/js_thread/module_loader.rs:129-153 | a path without a dot that is not itself an extension name is TypeScript over http(s) and unknown otherwise |
| ModuleLoader.MediaTypeFromContentType | src/js_thread/module_loader.rs:156-167 | the MIME type before any `;`, trimmed, decides for the nine known types (two TypeScript, three JavaScript, two JSON, TSX, JSX); any other type defers to the URL's extension; only a URL that is not http(s) can have an unknown media type |
| ModuleLoader.ContentTypeParamsIgnored | src/js_thread/module_loader.rs:156-168 | parameters after `;` in a content type do not change the media type |
| ModuleLoader.Resolve | src/js_thread/module_loader.rs:257-290 | `npm:` goes to the npm resolver, `jsr:` to the jsr resolver, an absolute http(s) specifier is the URL parser's reading of it or else the `Invalid URL '…'` error, and any other specifier is resolved against the referrer |
| ModuleLoader.AbsoluteIgnoresReferrer | src/js_thread/module_loader.rs:272-279 | an absolute http(s) specifier resolves the same whatever the referrer, to the URL parser's reading of it |
| Video.NormalizeUri | src/ui/widgets/video_widget_impl.rs:173-182 | a URL is kept; a path becomes `file:///` followed by a path with forward slashes only and no further leading slash |
| Video.NormalizeIdempotent | src/ui/widgets/video_widget_impl.rs:173-182 | normalising a normalised source changes nothing |
| Video.PosixPathUri | src/ui/widgets/video_widget_impl.rs:173-182 | a canonical POSIX path `/p` becomes `file:///p` |
| Video.VerbatimWindowsPathUri | src/ui/widgets/video_widget_impl.rs:173-182 | a canonical verbatim Windows path `\\?\C:\d\f` becomes `file:///C:/d/f` |
| Video.OverlayPixels | src/ui/widgets/video_widget_impl.rs:43-49 | the buffer holds width·height·4 bytes, all zero except the first four, which hold the number cut to 32 bits little-endian when there is room |
| Video.OverlayKeysDistinct | src/ui/widgets/video_widget_impl.rs:35-57 | two widgets whose numbers differ below 2^32 get different pixels whenever the image is not empty |
| Video.OverlayCounter.constructor | src/ui/widgets/video_widget_impl.rs:35 | the counter starts at 1 |
| Video.OverlayCounter.CreateUniqueOverlayKey | src/ui/widgets/video_widget_impl.rs:41-57 | takes the next number, advances the counter by one and returns its pixels with the given size |
| ScriptPath.NormalizeScriptPathForBun | src/main.rs:23-37 | elsewhere than on Windows the path is kept; on Windows `\\?\UNC\` becomes `\\`, any other `\\?\` is dropped, and other paths are kept |
| ScriptPath.UncIsVerbatim | src/main.rs:28-33 | a verbatim UNC path is also a verbatim path, and the UNC rule, checked first, is what gives it its `\\` |
| ScriptPath.VerbatimRoundTrip | src/main.rs:23-37 | normalising undoes Windows' verbatim form of a network path or of any path not itself starting with `UNC\` |

## Left out

- Threads, channels and transport loops are not modelled: the socket server loop, the Bun process runner, the channel plumbing and `op_wait_for_event`'s blocking wait. A failed channel send is never observed: every send is appended to the event log.
- Console output (`println!`/`eprintln!`) is dropped. In the `ui_thread` revision this makes every failure silent, which its methods state.
- The MessagePack codec, serde JSON decoding of styles, JSON value parsing, and `f32`/`f64` parsing are parameters. Their internals are not modelled; the frame round trip assumes an encode/decode pair that are inverses.
- Floating-point behaviour is not modelled: numbers are `real`, with no NaN, infinities or rounding. This covers the `rgba` alpha cast (modelled as a floor with saturation), `Number::from_f64`, and number formatting in event serialisation.
- Image decoding, URL parsing, `resolve_import` and `canonicalize` are parameters. The text of the URL parser's error is not modelled: a failed parse keeps only the fixed part of the message.
- Module loading I/O is not part of this model: `transpile`, `load_local`, the HTTP `load` and the source-map store.
- The GStreamer pipeline, its worker thread and texture upload in the video widget are not part of this model. The SVG renderer, layout, paint and accessibility are not part of this model either.
- The widget constructors of text inputs, text areas, prose, progress bars, spinners, sized boxes, stacks, portals and grids are not part of this model. `Constructors.CreatePlain` stands in for them: it inserts the widget it is given and keeps the register-on-attach-success rule.
- The video widget constructor and the `hoverable_create` constructor are not part of this model. They call registry and hover functions that the modelled registry and hover container do not have. Creating a Hoverable therefore constructs nothing.
- Event-loop setup, the one-line layout builders, the console ops and `main`'s argument parsing and thread spawning are not part of this model.
- Driver.FindJsId: the source searches a `HashMap` in its iteration order, which the model does not fix. The contract states what holds for every order; with unique native ids (`Driver.AppJsDriver.Valid`) the answer is the same for every order.
- Video.OverlayCounter.CreateUniqueOverlayKey: the process-wide atomic counter is a field of a counter object, and its `usize` wrap-around is not modelled. The requires bounds width and height below 2^32, which is what the source's `u32` parameters guarantee; `width * height * 4` is not wrapped.
- Constructors.CreateImage: the object fit is recorded in the widget's contents rather than as a separate toolkit property.
- The `sibling_count == 0` branch of removal in both dispatchers (`Handler.DetachWidget`, `ThreadHandler.RemoveCommand`) is dead for a registered id, because the id counts itself (`Handler.RemovalAlwaysHasSiblings`). The model keeps the branch as written and proves it is never taken.
- The branch of `media_type_from_specifier` for a path without any split piece is dead, because splitting always yields a first piece (`ModuleLoader.LastDotSegment`); the model has no such case.
- Common.Trim: whitespace is the ASCII whitespace set, whereas `str::trim` also removes Unicode whitespace, so text such as `"\u00A0red"` is the colour red in the source but no name of the table here.
- Common.ToLower: only ASCII capitals are lowered, whereas `to_lowercase` lowers every Unicode capital.
- Colors.Parse: strings are sequences of characters, not UTF-8 bytes. The source measures and slices the `#` body by bytes, so `"#aé123"` has a body of length 6 whose slice `&hex[0..2]` panics; the model sees 5 characters and gives no colour.
- Creation.ConstructDirect: Button, Flex, Container, Checkbox, Slider, Custom and Image go through the constructors of the `ui` revision and its `add_to_parent` (`PlaceUi`): they get no hover wrap, and the single-child rule of a Hoverable parent applies. src/ui_thread/creation.rs:5 uses the `ui_thread` widget modules, which are not part of this model.
- Handler.HandleClientCommand: src/ui/handler.rs:11-12 import `super::creation` and `super::styles` of the `ui` revision, which are not part of this model; the `ui_thread` `Creation` and `Styles` stand in for them, and those use `Registry` (src/ui/widget_manager.rs) in place of the `ui_thread` widget manager, which is not part of this model.
- Kinds.DebugName: the escapes written are those of `char::escape_debug` for the quote, backslash, newline, carriage return, tab and NUL; any other non-printable character, which Rust writes as `\u{…}`, is kept as it is. The definition of `WidgetKind` and its derived `Debug` is not part of this model; the names follow the variants the kind alias table produces.
- Framing.WriteFrame: a writer failure is the single error `WriterFailed`; the kind and message of the writer's `io::Error` are not modelled. Which calls fail, and how many bytes a failing call still passes on, is a fault script given with the sink.
- Native widget ids come from an `IdAllocator` object that stands in for the toolkit's global `WidgetId::next`.

## Findings

| source | as written | input that shows it | evidently intended | confidence | as-written member | corrected member |
|---|---|---|---|---|---|---|
| src/js_thread/style_parser.rs:259-268 | the main-axis alignment value is lower-cased before the match, but three arms compare it with the camel-case spellings `spaceBetween`, `spaceAround` and `spaceEvenly`, so they can never match | `justifyContent` with `"spaceBetween"` sets `main_axis_alignment` to None, overwriting any earlier value | those camel-case spellings select SpaceBetween, SpaceAround and SpaceEvenly, like the kebab-case ones | not executed | StyleParser.MainAlignAsWritten, used by StyleParser.SetField (shown by StyleParser.JustifySpaceBetweenCleared and StyleParser.CamelCaseArmsUnreachable) | StyleParser.SetMainAxisIntended with StyleParser.MainAlignOf (proved by StyleParser.SpaceBetweenCorrected) |
| src/js_thread/ipc_ops.rs:280-282 | the same three camel-case arms after the same lower-casing, in this revision's copy of the property setter | `justifyContent` with `"spaceBetween"` sets `main_axis_alignment` to None, overwriting any earlier value | as above | not executed | IpcOps.ApplyWidgetStyleProperty, through StyleParser.SetField (shown by IpcOps.WidgetJustifySpaceBetweenCleared) | StyleParser.SetMainAxisIntended (proved by StyleParser.SpaceBetweenCorrected) |
