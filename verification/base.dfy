/** The error values a tool call can end with. */
module ToolBase {

  /** How a call ends when it does not return a result: a `ToolError` raised
      on purpose with a message for the agent, or some other Python exception
      (named by its class) that escapes the tool unhandled. */
  datatype Failure =
    | ToolError(message: string)
    | Unhandled(exception: string)
}
