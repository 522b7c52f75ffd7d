/** Failure-carrying datatypes shared by every module. */
module Wrappers {

  datatype Option<+T> = None | Some(value: T)

  /** A raised exception becomes `Err`; a normal return becomes `Ok`. */
  datatype Result<+T, +E> = Ok(value: T) | Err(error: E)
}
