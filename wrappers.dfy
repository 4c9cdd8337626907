/** Optional values and results with an error, as used throughout the model. */
module Wrappers {

  /** A value that may be missing: JavaScript's `null` and `undefined` both map to `None`. */
  datatype Option<+T> = None | Some(value: T)

  /** The settled outcome of an asynchronous step: a value, or the reason it was rejected. */
  datatype Result<+T, +E> = Ok(value: T) | Err(error: E)
}
