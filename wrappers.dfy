/** Optional values and error-carrying results, used where the Python code
    returns `None` or raises. */
module Wrappers {

  /** A value that may be absent (Python's `None`). */
  datatype Option<+T> = None | Some(value: T)

  /** A value, or the message of the exception that Python would raise. */
  datatype Result<+T> = Ok(value: T) | Err(error: string)
}
