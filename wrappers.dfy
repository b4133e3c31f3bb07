/** Small failure-carrying datatypes shared by every module. */
module Wrappers {

  /** Python's `None` or a present value. */
  datatype Option<+T> = None | Some(value: T) {
    function GetOr(default: T): T {
      match this
      case Some(v) => v
      case None => default
    }
  }

  /** The result of a Python call that either returns a value or lets an exception escape. */
  datatype Outcome<+T> = Returned(value: T) | Raised
}
