/** Optional values and error results shared by every module of the model. */
module Wrappers {

  /** A value that may be absent (`undefined`/`null` in the application). */
  datatype Option<+T> = None | Some(value: T) {
    function GetOr(default: T): T {
      match this
      case Some(v) => v
      case None => default
    }
  }

  /** The outcome of an operation that the application lets throw: `Err` carries the message. */
  datatype Result<+T> = Ok(value: T) | Err(msg: string)

  /** A step that either succeeds without a value or throws. */
  datatype Outcome = Pass | Fail(msg: string)
}
