/**
 * The messages exchanged between the client process and the window pool
 * process, and between the pool and its renderer windows.
 */
module Protocol {
  import opened JsValues
  import opened PlainErrors

  /** A run's correlation id (a fresh token per `runScript` call). */
  type Id = nat

  /**
   * The `error` field of `run-rejected` and `fatal`. It is declared as a
   * string, but senders put different things there: the renderer and the
   * crash handler send a plain-error record, a failed window acquisition
   * sends `e.message`, which is a string for an `Error` and absent when the
   * rejection value is a bare string.
   */
  datatype ErrorPayload =
    | Text(text: string)
    | Plain(error: PlainError)
    | Absent

  /** `run-script`: what to run, with defaults already applied by the client. */
  datatype RunScriptEvent = RunScriptEvent(
    id: Id,
    pathname: string,
    functionName: string,
    args: seq<JsValue>,
    hasStatusCallback: bool,
    hasAbortSignal: bool)

  /** Messages to the pool process (and from it to a window): `run-script`, `abort-script`. */
  datatype InputMessage =
    | RunScript(event: RunScriptEvent)
    | AbortScript(id: Id)

  /** `run-resolved`, `run-status`, `run-rejected`: the events of one run. */
  datatype RunResultEvent =
    | RunResolved(id: Id, value: JsValue)
    | RunStatus(id: Id, status: JsValue)
    | RunRejected(id: Id, error: ErrorPayload)
  {
    /** The events after which no further event for the id is expected. */
    predicate IsTerminal() { RunResolved? || RunRejected? }

    /** The message's `type` tag. */
    function TypeTag(): string
    {
      match this
      case RunResolved(_, _) => "run-resolved"
      case RunStatus(_, _) => "run-status"
      case RunRejected(_, _) => "run-rejected"
    }
  }

  /** Messages from the pool process to the client: run events, `electron-ready`, `fatal`. */
  datatype OutputMessage =
    | RunResult(event: RunResultEvent)
    | ElectronReady
    | Fatal(error: ErrorPayload)
}
