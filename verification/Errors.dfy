/** The error vocabulary every guard of the pipeline speaks, and the optional value. */
module Errors {

  datatype Option<+T> = None | Some(value: T)

  /** The ToolError subclasses the guards distinguish. */
  datatype ErrorKind =
    | Policy
    | RateLimit
    | PendingApproval
    | Upstream
    | CircuitOpen
    | Timeout
    | OtherTool

  datatype ToolError = ToolError(kind: ErrorKind, code: string, retryable: bool)

  /** How an awaited coroutine ends: a value, a ToolError, or cancellation (and any
      exception that is not a ToolError), which only `finally` blocks see. */
  datatype Outcome<+V> = Returned(value: V) | Raised(error: ToolError) | Aborted

  /** The breaker counts only retryable upstream failures. */
  predicate CountedFailure<V>(o: Outcome<V>) {
    o.Raised? && o.error.kind.Upstream? && o.error.retryable
  }
}
