/** Optional values and success/failure results shared by the other modules. */
module Wrappers {

  /** Swift's `T?`. */
  datatype Option<+T> = None | Some(value: T)

  /** A value or the error a Swift `throws` function raised instead. */
  datatype Result<+T, +E> = Ok(value: T) | Err(error: E)
}
