/** Option and Result, the two failure-aware wrappers the model uses. */
module Wrappers {

  datatype Option<+T> = None | Some(value: T)

  /** A completed call (`Success`) or a raised exception (`Failure`). */
  datatype Result<+R, +E> = Success(value: R) | Failure(error: E)
}
