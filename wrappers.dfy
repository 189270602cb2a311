/** Option and Result, the two failure-carrying shapes used throughout the model. */
module Wrappers {

  datatype Option<T> = None | Some(value: T) {
    /** The wrapped value, or `default` when there is none. */
    function GetOr(default: T): T {
      match this
      case Some(v) => v
      case None => default
    }
  }

  /** A Go `(value, error)` pair, or a Python handler that either answers or raises. */
  datatype Result<T, E> = Ok(value: T) | Err(error: E)
}
