/** Option and Result values, used where the modelled code returns `None`
    or where a call into an external service raises. */
module Wrappers {

  datatype Option<+T> = None | Some(value: T) {

    /** The wrapped value, or `default` when there is none. */
    function GetOr(default: T): T {
      match this
      case Some(v) => v
      case None => default
    }
  }

  /** The outcome of a call that either returns a value or raises an
      exception carrying a message. */
  datatype Result<+R> = Ok(value: R) | Raised(message: string)
}
