/** What a module's `TryHandleToolCallAsync` does with a call: it answers with
    a text, returns null because the name is not its own, or throws. */
module ToolOutcome {

  datatype Outcome =
    | Handled(text: string)
    | NotHandled
    | Threw(message: string)
}
