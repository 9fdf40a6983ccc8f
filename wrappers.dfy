/** Option and Result values shared by the service models. */
module Wrappers {

  datatype Option<+T> = None | Some(value: T) {
    function GetOr(default: T): T {
      match this
      case Some(v) => v
      case None => default
    }
  }

  /** Ok carries a value, Err the text of the error the library call returned. */
  datatype Result<+T> = Ok(value: T) | Err(error: string)
}
