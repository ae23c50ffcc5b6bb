/**
 * Optional values and results for the Python code's error paths.
 *
 * A `raise` in the source becomes an `Err` carrying the exception class it
 * raises; a Python `assert` is a caller obligation and becomes a `requires`.
 */
module Outcomes {

  datatype Option<+T> = None | Some(value: T)

  /** The exception classes the modelled code raises. */
  datatype Exception =
    | ValueError(message: string)
    | NotImplementedError
    | KeyError(key: string)
    | IOError(path: string)
    | TypeError(message: string)
    | AssertionError

  datatype Result<+T> = Ok(value: T) | Err(error: Exception)
}
