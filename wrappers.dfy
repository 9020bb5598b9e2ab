/** Option and Result, the two shapes in which the modelled code reports
    a missing value or an error. A Go `error` that is `nil` is `None`;
    a non-nil one is `Some(message)`. */
module Wrappers {

  datatype Option<+T> = None | Some(value: T)

  datatype Result<+T, +E> = Ok(value: T) | Err(error: E)
}
