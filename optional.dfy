/** Failure-carrying values used in place of Go's `(value, error)` returns. */
module Optional {

  /** A value that may be absent: a parse that failed, a nil slice. */
  datatype Option<+T> = None | Some(value: T) {
    function GetOr(default: T): T {
      match this
      case Some(v) => v
      case None => default
    }
  }

  /** The outcome of a check that returns only an error (`nil` on success in Go). */
  datatype Outcome<+E> = Pass | Fail(error: E)

  /** A value or an error. */
  datatype Result<+T, +E> = Ok(value: T) | Err(error: E)
}
