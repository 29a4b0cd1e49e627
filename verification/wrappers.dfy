/** Failure-carrying wrappers shared by the whole model. */
module Wrappers {

  /** An optional value: `None` stands for a missing key, a failed decode or a failed parse. */
  datatype Option<+T> = None | Some(value: T) {

    /** The wrapped value, or `default` when there is none. */
    function GetOr(default: T): T {
      match this
      case Some(v) => v
      case None => default
    }
  }

  /** A value or the error that stopped its computation. */
  datatype Result<+T, +E> = Ok(value: T) | Err(error: E)
}
