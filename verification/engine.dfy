/**
  What the toolbars hand to the editing engine. The engine itself is outside
  the model: a command dispatch is recorded as an emitted value, and so is a
  console warning.
 */
module Engine {

  /** One observable outcome of a toolbar action. */
  datatype Effect =
    | Dispatch(command: string, payload: string)  // dispatchCommand(command, payload)
    | Warn(message: string)                       // console.warn(message)

  /** The engine's command for toggling an inline text format. */
  const FormatTextCommand: string := "FORMAT_TEXT_COMMAND"
}
