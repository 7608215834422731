/** Option and Result datatypes for JavaScript's `undefined` and thrown errors. */
module Wrappers {

  /** `None` stands for a missing (undefined) value. */
  datatype Option<+T> = None | Some(value: T) {
    function GetOr(default: T): T {
      match this
      case Some(v) => v
      case None => default
    }
  }

  /** `Err` stands for an exception thrown by the JavaScript code. */
  datatype Result<+T, +E> = Ok(value: T) | Err(error: E)
}
