/** Failure-carrying values shared by every module of the model: `Option`
    stands for Python's `None` / TypeScript's `undefined`, and `Result` for an
    operation that either returns a value or raises (throws) an error. */
module Wrappers {

  datatype Option<+T> = None | Some(value: T) {
    /** TypeScript `x ?? default`: the value when present, even an empty string.
        Python's `x or default`, which also replaces an empty string, is `Text.Or`. */
    function GetOr(default: T): T {
      match this
      case Some(v) => v
      case None => default
    }
  }

  datatype Result<+T, +E> = Success(value: T) | Failure(error: E)
}
