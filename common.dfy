/** Small value wrappers shared by every module of the model. */
module Common {

  /** A JavaScript value that may be `undefined` (or `null`). */
  datatype Option<+T> = None | Some(value: T) {

    /** `x ?? fallback` */
    function GetOr(fallback: T): T {
      match this
      case Some(v) => v
      case None => fallback
    }
  }

  function Max(a: int, b: int): int { if a < b then b else a }
}
