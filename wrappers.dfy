/** Option and Result: a Python value that may be None, and an operation that may raise. */
module Wrappers {

  datatype Option<+T> = None | Some(value: T) {
    /** `d.get(key, default)` once the lookup has produced this option. */
    function GetOr(default: T): T {
      match this
      case Some(v) => v
      case None => default
    }
  }

  /** The exceptions the modelled code can raise. */
  datatype Error =
    | KeyError(key: string)
    | TypeError(key: string)  // an unexpected keyword argument

  datatype Result<+T> = Ok(value: T) | Err(error: Error)
}
