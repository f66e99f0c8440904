/** Option and Result values used where the source yields `null`, `undefined` or throws. */
module Wrappers {

  /** `None` stands for JavaScript's `null`/`undefined`. */
  datatype Option<+T> = None | Some(value: T) {
    function GetOr(default: T): T {
      match this
      case Some(v) => v
      case None => default
    }
  }

  /** `Err` stands for an exception the source throws (and its caller catches). */
  datatype Result<+T> = Ok(value: T) | Err(message: string)
}
