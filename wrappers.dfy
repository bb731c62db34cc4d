/** Option and Result: the model's stand-ins for `null`/`undefined` and for
    services that either answer or throw. */
module Wrappers {

  datatype Option<+T> = None | Some(value: T) {
    /** `x ?? d` in the source. */
    function GetOr(default: T): T {
      match this
      case Some(v) => v
      case None => default
    }
  }

  datatype Result<+T, +E> = Success(value: T) | Failure(error: E)
}
