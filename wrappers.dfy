/** Option and Result, the two failure-carrying shapes the model uses. */
module Wrappers {

  /** `T | null` in the source. */
  datatype Option<+T> = None | Some(value: T)

  /** The outcome of a store call that either yields a value or reports an error. */
  datatype Result<+T, +E> = Success(value: T) | Failure(error: E)
}
