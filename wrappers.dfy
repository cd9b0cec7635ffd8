/** Option and Result, the two wrappers the model uses for Go's
    "value or nil" and "value, error" pairs. */
module Wrappers {

  /** `None` plays Go's `nil`; `Some(e)` a non-nil value. */
  datatype Option<+T> = None | Some(value: T)

  /** The outcome of a provider call that returns a value or an error. */
  datatype Result<+R, +E> = Success(value: R) | Failure(error: E)
}
