/** Failure-carrying results used for the exporter's fallible inputs. */
module Wrappers {

  /** A value that may be absent. */
  datatype Option<+T> = None | Some(value: T) {

    /** The carried value, or `default` when there is none. */
    function GetOr(default: T): T {
      match this
      case Some(v) => v
      case None => default
    }
  }

  /** A value, or the error that prevented producing it. */
  datatype Result<+T, +E> = Success(value: T) | Failure(error: E)
}
