/** Small failure-carrying datatypes shared by every module. */
module Wrappers {

  /** A value that may be absent (Python's None). */
  datatype Option<+T> = None | Some(value: T) {
    /** The value, or `default` when absent. */
    function GetOr(default: T): T {
      match this
      case Some(v) => v
      case None => default
    }
  }

  /**
   * How a Python call ends: it returns a value, or it raises an exception
   * whose `str(e)` is `msg`.
   */
  datatype Outcome<+T> = Returned(value: T) | Raised(msg: string)
}
