/** error.go's `*Error` and the other errors the library meets. */
module Errors {
  /** `Coded` is `*Error` from `NewError`/`WrapError`: a status code, the
      message `Error()` returns, and the stack trace its wrapped original
      carries. `External` is an error from code outside the library
      (encoders, templates, the network, health checks). The two sentinels
      are declared outside the modelled files. */
  datatype Error =
    | Coded(code: int, message: string, stackTrace: string)
    | External(message: string)
    | FormatterMustBeSet
    | DataIsNotStringable

  /** `NewError`. Stack traces recorded by the runtime are not modelled:
      errors the library creates carry an empty trace. */
  function NewError(code: int, message: string): (e: Error)
    ensures e.Coded? && e.code == code && Text(e) == message
  {
    Coded(code, message, "")
  }

  /** `WrapError`: the wrapped error is reachable only through `Unwrap`,
      so `Error()` is the new message alone. */
  function WrapError(code: int, cause: Error, message: string): (e: Error)
    ensures e.Coded? && e.code == code && Text(e) == message
  {
    Coded(code, message, "")
  }

  /** `errors.Wrap(err, message)` of github.com/pkg/errors: its message is
      the new message, a colon and the original message. */
  function Wrap(cause: Error, message: string): (e: Error)
    ensures Text(e) == message + ": " + Text(cause)
  {
    External(message + ": " + Text(cause))
  }

  /** `err.Error()`. */
  function Text(e: Error): string {
    match e
    case Coded(_, m, _) => m
    case External(m) => m
    case FormatterMustBeSet => "formatter must be set"
    case DataIsNotStringable => "data is not stringable"
  }
}
