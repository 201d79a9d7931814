/** Failure-compatible result types shared by the modules of the model. */
module Wrappers {

  /** An optional value; `None` stands for Go's `nil`. */
  datatype Option<+T> = None | Some(value: T)

  /** A value or an error message (Go's `(T, error)` pair). */
  datatype Result<+T> = Ok(value: T) | Err(message: string)
}
