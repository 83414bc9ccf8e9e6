/** Option and Result, the two wrappers the model uses for "maybe absent" and
    "value or raised exception". */
module Wrappers {

  datatype Option<+T> = None | Some(value: T) {
    function GetOr(default: T): T {
      match this
      case Some(v) => v
      case None => default
    }
  }

  /** `Err` carries the text of the exception the source would raise. */
  datatype Result<+T, +E> = Ok(value: T) | Err(error: E)
}
