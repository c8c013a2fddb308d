/** Option and Result, the two failure-carrying shapes the model uses for Go's
    nil slices and (value, error) returns. */
module Wrappers {

  /** A value that may be absent; `None` stands for a nil slice or a missing key. */
  datatype Option<+T> = None | Some(value: T)

  /** The outcome of an operation that returns either a value or an error. */
  datatype Result<+T, +E> = Success(value: T) | Failure(error: E)
}
