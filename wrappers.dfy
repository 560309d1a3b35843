/** Optional values, and the outcomes of operations that can raise. */
module Wrappers {

  datatype Option<+T> = None | Some(value: T) {
    /** `d.get(key, default)` once the lookup is made */
    function GetOr(default: T): T {
      if Some? then value else default
    }
  }

  /** A value, or the exception the operation raised instead. */
  datatype Result<+T, +E> = Ok(value: T) | Err(error: E)

  /** Success without a value, or the exception raised instead. */
  datatype Outcome<+E> = Pass | Fail(error: E)
}
