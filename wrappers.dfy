/** Option and Result, the failure-carrying values used across the model in place
    of Go's nil handles and (value, error) return pairs. */
module Wrappers {

  datatype Option<+T> = None | Some(value: T)

  /** Go's `(handle, err)` pair where a non-nil error means a nil handle. */
  datatype Result<+R, +E> = Ok(value: R) | Err(error: E)
}
