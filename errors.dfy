/**
 * The failures the loggers throw. `ErrorHoodLogger` (shared core and the
 * legacy HoodLogger) and `ErrorTraceLogger` (legacy TraceLogger) are plain
 * Error subclasses carrying a message; `TypeError` stands for the engine's own
 * error when a property of `undefined` or `null` is read or a non-function is
 * called.
 */
module Errors {

  datatype LoggerError =
    | ErrorHoodLogger(message: string)
    | ErrorTraceLogger(message: string)
    | TypeError

  datatype Result<+T> = Success(value: T) | Failure(error: LoggerError)

  datatype Option<+T> = None | Some(value: T)

  const MissingName := "Missing mandatory parameter: name"

  /** Thrown by the shared core and the legacy HoodLogger. */
  const NoParentTrace := "Can't create child trace logger from global logger."

  /** Thrown by the legacy TraceLogger (no apostrophe, no full stop). */
  const NoParentTraceLegacy := "Cant create child trace logger from global logger"
}
