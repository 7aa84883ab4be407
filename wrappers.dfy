/** Option and Result values used where the source has `null`/`undefined`
    or an error path. */
module Wrappers {

  /** `T | null` (or an optional property that may be absent). */
  datatype Option<+T> = None | Some(value: T) {
    /** `x ?? d`: the held value, or the default when absent. */
    function GetOr(default: T): T {
      match this
      case Some(v) => v
      case None => default
    }
  }

  /** A value or an error message. */
  datatype Result<+T> = Ok(value: T) | Err(error: string)
}
