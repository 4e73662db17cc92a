/** Optional values and results, as the rest of the model uses them. */
module Wrappers {

  /** A value that may be absent (JavaScript's `undefined`). */
  datatype Option<+T> = None | Some(value: T)

  /** The outcome of a step that either continues with a value or stops with an answer. */
  datatype Result<+T, +E> = Ok(value: T) | Err(error: E)
}
