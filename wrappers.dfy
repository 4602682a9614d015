/** Optional values and results, used for Go's nil-able values and (value, error) pairs. */
module Wrappers {

  /** A value that may be absent: Go's nil pointer, nil error or zero-valued string enum. */
  datatype Option<+T> = None | Some(value: T)

  /** A value or an error message: Go's `(T, error)` return pair. */
  datatype Result<+T> = Ok(value: T) | Err(error: string)
}
