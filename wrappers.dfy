/** Option and Result datatypes shared by the loader model. */
module Wrappers {

  /** A value that may be absent (`undefined` / `null` in the loader). */
  datatype Option<+T> = None | Some(value: T)

  /** The outcome of a step that may throw. */
  datatype Result<+T, +E> = Success(value: T) | Failure(error: E)
}
