/** Option and Result: absence and failure as values. */
module Wrappers {

  /** A value that may be missing, such as a field left out of a JSON object. */
  datatype Option<+T> = None | Some(value: T)

  /** The outcome of a step that can fail with an error of type E. */
  datatype Result<+T, +E> = Success(value: T) | Failure(error: E)
}
