/** Fatal errors of the backend (crates/rustc_codegen_qir/src/qir_errors.rs).
    rustc's `FatalError` is a unit marker; the model keeps beside it the
    message the backend logged when it raised one, so that contracts can say
    which failure was reported. */
module Errors {
  import opened Core
  import opened Text

  /** What `qir_fatal_error_wrapper` logs, by the call site that formats it. */
  datatype Logged =
    | CouldNotGetModuleName(cause: NulError)
    | CouldNotGetCguName(cause: NulError)
    | CouldNotCreate(path: Path, reason: string)
    | CouldNotWrite(reason: string)

  /** A fatal error; `logged` is `None` when it was raised without a log line. */
  datatype FatalError = FatalError(logged: Option<Logged>)

  /** `qir_fatal_error_wrapper`: log the message and build the fatal error. */
  function QirFatalError(msg: Logged): (e: FatalError)
    ensures e.logged == Some(msg)
  {
    FatalError(Some(msg))
  }
}
