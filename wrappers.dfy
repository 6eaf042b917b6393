/** Option and Result values for the absent values and raised errors of the modelled code. */
module Wrappers {

  datatype Option<+T> = None | Some(value: T)

  /** A value, or the message of the exception that replaced it. */
  datatype Result<+T, +E> = Success(value: T) | Failure(error: E)
}
