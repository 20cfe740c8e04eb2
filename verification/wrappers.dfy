/** Option and Result, the two outcome shapes the queue engine returns. */
module Wrappers {

  /** A value that may be absent; `None` stands for Go's `nil` interface value. */
  datatype Option<+T> = None | Some(value: T)

  /** Either a value or the error that prevented it. */
  datatype Result<+T, +E> = Success(value: T) | Failure(error: E)
}
