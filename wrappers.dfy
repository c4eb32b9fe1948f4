/** Option and Result values used throughout the model. A Python `None`, a missing
    dictionary key or a caught exception becomes one of these. */
module Wrappers {

  datatype Option<+T> = None | Some(value: T) {
    /** The wrapped value, or `default` when there is none (Python's `d.get(k, default)`). */
    function GetOr(default: T): T {
      match this
      case Some(v) => v
      case None => default
    }
  }

  /** Either a value or the text of the exception that was raised instead. */
  datatype Result<+T> = Success(value: T) | Failure(error: string)
}
