/** Wrappers used for Go's (value, error) returns and nil pointers. */
module Wrappers {

  /** A value that may be absent: Go's nil pointer, nil map or unset field. */
  datatype Option<+T> = None | Some(value: T)

  /** A value or an error: Go's (value, error) pair, where exactly one side is meaningful. */
  datatype Result<+R, +E> = Ok(value: R) | Err(error: E)
}
