/** Failure-carrying result types shared by every module: Go's `(T, error)` and bare `error` returns. */
module Wrappers {

  datatype Option<+T> = None | Some(value: T)

  /** A value or an error message: Go's `(T, error)` pair where exactly one side is meaningful. */
  datatype Result<+T> = Ok(value: T) | Err(msg: string)

  /** Go's bare `error` return: nil (Pass) or an error carrying its message. */
  datatype Status = Pass | Fail(msg: string)
}
