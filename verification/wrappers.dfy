/** Failure-carrying results shared by the model's modules. */
module Wrappers {

  /** A value that may be absent. */
  datatype Option<T> = None | Some(value: T)

  /** The value of an operation, or the exception it raises. */
  datatype Result<T, E> = Ok(value: T) | Err(error: E)
}
