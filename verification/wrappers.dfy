/** Option and Result shared by the behaviour models. */
module Wrappers {

  /** A value that may be absent; used for state the source leaves uninitialised. */
  datatype Option<+T> = None | Some(value: T)

  /** The outcome of an operation that can end in an error the source does not guard against. */
  datatype Result<+R, +E> = Success(value: R) | Failure(error: E)
}
