/** Option and Result, used for the nullable values and the thrown exceptions of the
    back office's services. */
module Wrappers {

  /** A value that may be absent: the `null` (or missing relation) of the source. */
  datatype Option<+T> = None | Some(value: T)

  /** Either a value or the exception a service throws instead of returning. */
  datatype Result<+R, +E> = Success(value: R) | Failure(error: E)
}
