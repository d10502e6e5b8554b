/** Option and Result: Rust's `Option<T>` and the `anyhow::Result<T>` error returns. */
module Wrappers {

  datatype Option<+T> = None | Some(value: T) {

    /** The value, or `default` when there is none (`unwrap_or`). */
    function GetOr(default: T): T {
      match this
      case Some(v) => v
      case None => default
    }

    /** `self.or(other)`: this option when it holds a value, else `other`. */
    function Or(other: Option<T>): Option<T> {
      match this
      case Some(_) => this
      case None => other
    }
  }

  datatype Result<+R, +E> = Success(value: R) | Failure(error: E)
}
