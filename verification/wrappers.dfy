/** Failure-compatible result types shared by the scanner model. */
module Wrappers {

  /** An optional value; `None` stands for Go's nil pointer or omitted field. */
  datatype Option<+T> = None | Some(value: T) {

    /** The value, or `default` when absent. */
    function GetOr(default: T): T {
      match this
      case Some(v) => v
      case None => default
    }
  }

  /** A value or the error that prevented computing it (Go's `(T, error)` pair). */
  datatype Result<+T, +E> = Ok(value: T) | Err(error: E)

  /** Success or an error, with no value (Go's lone `error` return). */
  datatype Outcome<+E> = Pass | Fail(error: E)
}
