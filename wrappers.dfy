/** Option and Result, the model's stand-ins for Python's `None` and for
    operations that may raise. */
module Wrappers {

  datatype Option<T> = None | Some(value: T) {
    /** The wrapped value, or `default` when there is none (`d.get(k, default)`). */
    function GetOr(default: T): T {
      match this
      case Some(v) => v
      case None => default
    }
  }

  datatype Result<T, E> = Ok(value: T) | Err(error: E)
}
