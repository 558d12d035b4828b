/** Failure-carrying results used where the generator can reject its input. */
module Wrappers {

  /** An optional value, standing for a Python keyword argument that may be `None`. */
  datatype Option<+T> = None | Some(value: T)

  /** Either a value or the reason the computation stops (a Python exception). */
  datatype Result<+T> = Ok(value: T) | Err(reason: string)
}
