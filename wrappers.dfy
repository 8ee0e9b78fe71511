/** Optional values: a JavaScript property that may be absent, or a lookup that may miss. */
module Wrappers {

  datatype Option<+T> = None | Some(value: T) {

    /** The wrapped value, or `default` when absent (JavaScript `x || default` on a non-empty value). */
    function GetOr(default: T): T {
      match this
      case Some(v) => v
      case None => default
    }
  }

  /** The outcome of a validation: the checked value, or what was wrong with it. */
  datatype Result<+T, +E> = Success(value: T) | Failure(error: E)
}
