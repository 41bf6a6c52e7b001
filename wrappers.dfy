/** Optional values and error-or-value results, used wherever the Go code returns
    a nil pointer or a `(value, error)` pair. */
module Wrappers {

  datatype Option<+T> = None | Some(value: T)

  datatype Result<+T, +E> = Success(value: T) | Failure(error: E)

  /** The result of an operation that returns only an error (Go's bare `error`). */
  datatype Outcome<+E> = Pass | Fail(error: E)
}
