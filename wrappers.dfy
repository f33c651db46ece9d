/** Option and Result values, used wherever the storefront returns null/undefined or throws. */
module Wrappers {

  datatype Option<+T> = None | Some(value: T) {
    function GetOr(default: T): T {
      match this
      case Some(v) => v
      case None => default
    }
  }

  /** The outcome of a call that may throw: Failure carries what was thrown. */
  datatype Result<+R, +E> = Success(value: R) | Failure(error: E)
}
