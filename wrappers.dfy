/** Option and Result, used for Go's nil pointers and (value, error) pairs. */
module Wrappers {

  /** A Go pointer that may be nil, or an error that may be nil. */
  datatype Option<+T> = None | Some(value: T)

  /** A Go (value, error) pair where exactly one side is meaningful. */
  datatype Result<+T, +E> = Ok(value: T) | Err(error: E)
}
