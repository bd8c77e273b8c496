/** Optional values and results shared by every module of the pipeline model. */
module Wrappers {

  /** Python's `None` or a present value. */
  datatype Option<+T> = None | Some(value: T) {
    /** `x or default`-style fallback for an absent value. */
    function GetOr(default: T): T {
      match this
      case Some(v) => v
      case None => default
    }
  }

  /** A value, or the exception a Python call would raise instead. */
  datatype Result<+T, +E> = Ok(value: T) | Err(error: E)
}
