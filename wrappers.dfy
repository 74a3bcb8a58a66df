/** Option and Result, used wherever the Python code returns None or raises. */
module Wrappers {

  datatype Option<+T> = None | Some(value: T)

  /** `Err` stands for a Python exception escaping the modelled function. */
  datatype Result<+R, +E> = Ok(value: R) | Err(error: E)
}
