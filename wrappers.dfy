/** Option and Result, the two failure-carrying values the model uses for
    Python's missing keyword arguments and raised exceptions. */
module Wrappers {

  datatype Option<+T> = None | Some(value: T) {
    /** `kwargs.get(key, default)`: the supplied value, or the default when the key was not passed. */
    function GetOr(default: T): T {
      match this
      case Some(v) => v
      case None => default
    }
  }

  datatype Result<+T, +E> = Ok(value: T) | Err(error: E)
}
