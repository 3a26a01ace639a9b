/** Failure-compatible helper datatypes shared by the other modules. */
module Wrappers {

  /** A value that may be absent: a missing key, an empty store slot. */
  datatype Option<+T> = None | Some(value: T) {
    function GetOr(default: T): T {
      match this
      case Some(v) => v
      case None => default
    }
  }

  /** Either a computed value or the error the source reports instead. */
  datatype Result<+T, +E> = Success(value: T) | Failure(error: E)
}
