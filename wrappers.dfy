/** Option and Result, the two wrappers the rest of the model uses for
    optional fields (`x?: T` / `?? default`) and for thrown errors. */
module Wrappers {

  datatype Option<+T> = None | Some(value: T) {
    /** The `x ?? default` of the source. */
    function GetOr(default: T): T {
      match this
      case Some(v) => v
      case None => default
    }
  }

  /** A computation that either returns a value or throws an error. */
  datatype Result<+T, +E> = Ok(value: T) | Err(error: E)
}
