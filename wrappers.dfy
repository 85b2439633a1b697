/** The Option and Result datatypes shared by the whole model. */
module Wrappers {

  /** A value that may be absent, used where the source returns `None`
      or where a lookup raises. */
  datatype Option<+T> = None | Some(value: T)

  /** A computation that either produced a value or failed with an error. */
  datatype Result<+R, +E> = Success(value: R) | Failure(error: E)
}
