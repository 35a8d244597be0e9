/** Option and Result, the shapes the source's `None` returns and raised exceptions take here. */
module Wrappers {

  datatype Option<+T> = None | Some(value: T)

  /** A call that either returns a value or raises the error `error`. */
  datatype Result<+T, +E> = Success(value: T) | Failure(error: E)
}
