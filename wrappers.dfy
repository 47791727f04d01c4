/** Option and Result values: the optional and fallible outcomes of the plugin's calls. */
module Wrappers {

  /** A value that may be absent (a JavaScript `undefined` or falsy option). */
  datatype Option<+T> = None | Some(value: T) {

    /** The wrapped value, or `default` when absent (JavaScript's `x || default`). */
    function GetOr(default: T): T {
      match this
      case Some(v) => v
      case None => default
    }
  }

  /** The outcome of a call that reports errors through its callback's first argument. */
  datatype Result<+T, +E> = Success(value: T) | Failure(error: E)
}
