/** Optional values and success-or-error results. */
module Wrappers {

  datatype Option<+T> = None | Some(value: T)

  /** The outcome of an operation that either succeeds with a value or fails
      with an error, as a raised exception does in the clinic's views. */
  datatype Result<+T, +E> = Ok(value: T) | Err(error: E)
}
