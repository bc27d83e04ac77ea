/** Option and Result values shared by the backend and frontend models. */
module Wrappers {

  /** Rust's `Option` and TypeScript's `null` / `undefined`. */
  datatype Option<+T> = None | Some(value: T) {

    /** `unwrap_or`: the value, or the default when absent. */
    function GetOr(default: T): T {
      match this
      case Some(v) => v
      case None => default
    }
  }

  /** A call that yields a value or fails with an error (a rejected promise, a Rust `Err`). */
  datatype Result<+R, +E> = Success(value: R) | Failure(error: E)
}
