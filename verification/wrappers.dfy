/** Option and Result: the "key may be absent" and "call may raise" shapes of the agent. */
module Wrappers {

  /** A value that may be missing, as a key that may be absent from the state dictionary. */
  datatype Option<+T> = None | Some(value: T) {

    /** The value, or `default` when absent, as Python's `dict.get(key, default)` does. */
    function GetOr(default: T): T {
      match this
      case Some(v) => v
      case None => default
    }
  }

  /** The outcome of an operation that either returns a value or raises. */
  datatype Result<+T, +E> = Ok(value: T) | Err(error: E)
}
