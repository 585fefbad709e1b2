/** Option and Result, used for Python's `None` results and raised exceptions. */
module Wrappers {

  datatype Option<+T> = None | Some(value: T)

  /** `Err` stands for an exception that escapes the modelled call. */
  datatype Result<+T, +E> = Ok(value: T) | Err(error: E)
}
