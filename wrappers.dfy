/** Optional values and results, used wherever the source reads a field that may be absent
    or runs an operation that may fail. */
module Wrappers {

  datatype Option<+T> = None | Some(value: T) {
    /** The value, or `default` when absent (the source's `x ?? d` shape). */
    function GetOr(default: T): T {
      match this
      case Some(v) => v
      case None => default
    }
  }

  /** An outcome that is either a value or a failure the source would raise as an exception. */
  datatype Result<+T> = Ok(value: T) | Err(message: string)
}
