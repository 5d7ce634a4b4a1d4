/** Outcome types shared by the whole model. */
module Wrappers {

  datatype Option<+T> = None | Some(value: T)

  /** The value of a call, or the exception it raises. */
  datatype Result<+T, +E> = Ok(value: T) | Err(error: E)
}
