/** Option and Result values used by the workspace model. */
module Wrappers {

  /** A value that may be absent, as `null`/`undefined` are in the source. */
  datatype Option<+T> = None | Some(value: T)

  /** The settled outcome of an awaited call: its value, or the error it threw. */
  datatype Result<+R, +E> = Success(value: R) | Failure(error: E)
}
