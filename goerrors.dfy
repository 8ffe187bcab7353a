/**
 * Go's `error` values as the datastore client produces and the service
 * wraps them: a store failure that carries an HTTP status, a plain error,
 * and an error wrapped with context by `fmt.Errorf("...: %w", cause)`.
 */
module GoErrors {

  /** A value that may be absent; `None` stands for Go's `nil`. */
  datatype Option<+T> = None | Some(value: T)

  /** An HTTP status code carried by a datastore failure. */
  type HttpStatus = s: int | 100 <= s <= 599 witness 500

  const StatusNotFound: HttpStatus := 404
  const StatusInternalServerError: HttpStatus := 500

  datatype Error =
    | StoreError(httpStatus: HttpStatus, reason: string)  // a failure reported by the datastore
    | Plain(message: string)                              // errors.New(message)
    | Wrapped(context: string, cause: Error)              // fmt.Errorf("<context>: %w", cause)

  /**
   * The status code the datastore client reports for a non-nil error: that of
   * the first store failure along the wrap chain, or 500 when there is none.
   * A nil error reads as 0, which no non-nil error does.
   */
  function StatusCode(e: Error): (s: HttpStatus)
  {
    match e
    case StoreError(status, _) => status
    case Plain(_) => StatusInternalServerError
    case Wrapped(_, cause) => StatusCode(cause)
  }

  /** `errors.Is(e, target)`: `e` or an error it wraps is `target`. */
  predicate Is(e: Error, target: Error)
  {
    e == target || (e.Wrapped? && Is(e.cause, target))
  }

  /** The text `e.Error()` returns. */
  function Text(e: Error): string
  {
    match e
    case StoreError(_, reason) => reason
    case Plain(message) => message
    case Wrapped(context, cause) => context + ": " + Text(cause)
  }
}
