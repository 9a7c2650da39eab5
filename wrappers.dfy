/** Option and Result: the null/undefined values and the thrown errors of the
    front-end, made explicit. */
module Wrappers {

  datatype Option<+T> = None | Some(value: T) {
    function GetOr(default: T): T {
      match this
      case Some(v) => v
      case None => default
    }
  }

  /** A call that either yields a value or throws an Error with a message. */
  datatype Result<+T> = Ok(value: T) | Err(message: string)
}
