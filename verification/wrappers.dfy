/** Small helper datatypes shared by every module of the model. */
module Wrappers {

  /** Swift's `Optional`. */
  datatype Option<+T> = None | Some(value: T) {
    function GetOr(default: T): T {
      match this
      case Some(v) => v
      case None => default
    }
  }

  /** The result of calling a closure that may `throw`: either the value it
      returned or the error it threw. Non-throwing closures only return. */
  datatype Try<+T, +E> = Returned(value: T) | Threw(error: E)
}
