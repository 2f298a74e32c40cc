/** Optional values, as the application's loosely typed records carry them. */
module Wrappers {

  /** A key that is either missing from a record or holds a value. */
  datatype Option<+T> = None | Some(value: T) {

    /** Returns the value held, or `default` when the key is missing. */
    function GetOr(default: T): T {
      match this
      case Some(v) => v
      case None => default
    }
  }

  /** A key of a JavaScript object whose code tells `undefined` (Absent) and `null` apart. */
  datatype Field<+T> = Absent | Null | Present(value: T)

  /** The outcome of an operation that either produces a value or fails with an error. */
  datatype Result<+T, +E> = Success(value: T) | Failure(error: E)
}
