/** The events the UI side reports to the script side. */
module Events {

  /** Modifier keys held during a key event. */
  datatype Modifiers = Modifiers(shift: bool, ctrl: bool, alt: bool, meta: bool)

  /** What a widget did. */
  datatype WidgetActionKind =
    | Click
    | DoubleClick
    | TextChanged(text: string)
    | ValueChanged(value: real)
    | CustomAction(name: string)

  /** Window sizes are 32-bit unsigned integers. */
  type U32 = x: int | 0 <= x < 0x1_0000_0000

  datatype UiEvent =
    | WindowResized(width: U32, height: U32)
    | MouseClick(x: real, y: real)
    | MouseMove(x: real, y: real)
    | KeyPress(key: string, modifiers: Modifiers)
    | KeyRelease(key: string, modifiers: Modifiers)
    | TextInput(text: string)
    | WidgetAction(widgetId: string, action: WidgetActionKind)
    | WindowFocusChanged(focused: bool)
    | WindowCloseRequested
    | AppExit
    | RuntimeError(source: string, message: string, fatal: bool)

  /** Severity of a log line sent by the script. */
  datatype LogLevel = Debug | Info | Warn | Error
}
