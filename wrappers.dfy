/** Option and Result, the two failure-carrying datatypes the model uses. */
module Wrappers {

  /** A JavaScript value that may be `null`. */
  datatype Option<+T> = None | Some(value: T)

  /** The outcome of a collaborator that may throw. */
  datatype Result<+T, +E> = Success(value: T) | Failure(error: E)
}
