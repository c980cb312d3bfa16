/** Small value types shared by every table and service of the minimarket back end. */
module Comun {

  /** A value that may be absent: Python's `None` or a missing SQL row. */
  datatype Option<+T> = None | Some(value: T)

  /** The outcome of a service call: a value, or the exception it raises. */
  datatype Result<+T, +E> = Ok(value: T) | Err(error: E)
}
