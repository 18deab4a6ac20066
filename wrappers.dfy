/** Failure-compatible wrappers used across the model: Python's `None` becomes
    `None`, a raised exception becomes `Err`. */
module Wrappers {

  datatype Option<+T> = None | Some(value: T)

  datatype Result<+T, +E> = Ok(value: T) | Err(error: E)
}
