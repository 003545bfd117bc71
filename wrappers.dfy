/** Option and Result values for the optional references and the thrown errors of the site. */
module Wrappers {

  /** A value that may be absent (`null` or a missing key in the source). */
  datatype Option<+T> = None | Some(value: T)

  /** The outcome of a step that may throw: its value, or the error it throws. */
  datatype Result<+T, +E> = Success(value: T) | Failure(error: E)
}
