/** The optional-value and outcome datatypes shared by the weather tool modules. */
module Wrappers {

  /** A value that may be absent, as a missing dictionary key or environment variable is. */
  datatype Option<+T> = None | Some(value: T) {

    /** Returns the value in Some, or `default` for None, as Python's `dict.get(key, default)` does. */
    function GetOr(default: T): T
    {
      match this
      case Some(v) => v
      case None => default
    }
  }

  /** A value, or the exception raised while computing it. */
  datatype Attempt<+T> = Ok(value: T) | Raised(detail: string)
}
