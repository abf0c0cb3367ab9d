/** Option and Result: the absent-value and error-path datatypes shared by the other modules. */
module Wrappers {

  /** A JavaScript value that may be `undefined`. */
  datatype Option<+T> = None | Some(value: T) {
    /** The value, or `default` when absent (`x ?? default`). */
    function GetOr(default: T): T {
      match this
      case Some(v) => v
      case None => default
    }
  }

  /** The outcome of an operation that may throw: `Err` carries the thrown error. */
  datatype Result<+T, +E> = Ok(value: T) | Err(error: E)
}
