/** Failure-carrying return types used in place of Python's `None` and exceptions. */
module Wrappers {

  /** A value that may be absent, as `os.getenv` returns `None` for an unset variable. */
  datatype Option<+T> = None | Some(value: T)

  /** Either the value a Python function returns or the exception it raises. */
  datatype Result<+T, +E> = Ok(value: T) | Err(error: E)
}
