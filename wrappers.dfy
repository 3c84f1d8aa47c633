/** Option and Result, the two failure-carrying shapes the model uses for Java's
    `null` returns and thrown exceptions. */
module Wrappers {

  datatype Option<+T> = None | Some(value: T) {
    function GetOr(default: T): T {
      match this
      case Some(v) => v
      case None => default
    }
  }

  datatype Result<+R, +E> = Ok(value: R) | Err(error: E)

  /** The exceptions of the modelled API, named after ZAP's ApiException types
      (plus the NullPointerException the alert walk can raise). */
  datatype Exception =
    | IllegalParameter(param: string)
    | UrlNotFound(uri: string)
    | NullPointer
}
