/** Optional values and error-or-value results, standing in for Python's `None`
    and for the exceptions the client raises and catches. */
module Wrappers {

  datatype Option<+T> = None | Some(value: T) {
    function GetOr(default: T): T {
      match this
      case Some(v) => v
      case None => default
    }
  }

  /** `Err` carries the text `str(e)` of the exception the source would raise. */
  datatype Result<+T> = Ok(value: T) | Err(error: string)
}
