/** Optional values (the Java `null`) and results that carry either a value or an error. */
module Wrappers {

  /** A value that may be absent; `None` stands for a Java `null`. */
  datatype Option<+T> = None | Some(value: T) {
    /** The value if present, otherwise `default`. */
    function GetOr(default: T): T {
      match this
      case Some(v) => v
      case None => default
    }
  }

  /** Either a successful value or the error that ended the operation. */
  datatype Result<+T, +E> = Success(value: T) | Failure(error: E)
}
