/** Option and Result: absence and failure as values. */
module Wrappers {

  /** A value that may be absent (`null` / `undefined` in the application). */
  datatype Option<+T> = None | Some(value: T) {
    function GetOr(default: T): T {
      match this
      case Some(v) => v
      case None => default
    }
  }

  /** The outcome of an asynchronous call: a resolved value or a rejection. */
  datatype Result<+T, +E> = Success(value: T) | Failure(error: E)
}
