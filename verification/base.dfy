/** Failure-carrying wrappers shared by every module of the gateway model. */
module Base {

  /** A value that may be absent: Python's `None` / Go's "not found". */
  datatype Option<+T> = None | Some(value: T) {
    function GetOr(default: T): T {
      match this
      case Some(v) => v
      case None => default
    }
  }

  /** The outcome of an operation that can raise: `Ok` or the raised error. */
  datatype Result<+T, +E> = Ok(value: T) | Err(error: E)
}
