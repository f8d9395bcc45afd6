/** Optional values and fallible results, shared by every module of the model. */
module Wrappers {

  /** Swift's `Optional`: a value that may be absent (`nil`). */
  datatype Option<+T> = None | Some(value: T)

  /** The outcome of a Swift function that `throws`: a value, or the error it throws. */
  datatype Result<+T, +E> = Ok(value: T) | Err(error: E)
}
