/** Failure-carrying datatypes shared by the model. */
module Wrappers {

  /** An optional value: the result of a lookup that may find nothing. */
  datatype Option<+T> = None | Some(value: T)

  /** Either a value or the error that stopped its computation. */
  datatype Result<+T, +E> = Ok(value: T) | Err(error: E)
}
