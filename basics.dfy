/** Small value wrappers shared by the whole model. */
module Basics {

  /** An optional value: a missing cell, an absent key, a failed parse. */
  datatype Option<+T> = None | Some(value: T) {
    function GetOr(default: T): T {
      match this
      case Some(v) => v
      case None => default
    }
  }

  /** The result of a Python call that either returns a value or lets an
      exception escape to its caller (which ends the current interaction). */
  datatype Attempt<+T> = Returned(value: T) | Raises

  function Min(a: int, b: int): int { if a <= b then a else b }
}
