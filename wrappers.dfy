/** Optional values and error results, used wherever the source has
    `null`, `undefined` or a thrown error. */
module Wrappers {

  /** `None` stands for JavaScript's `null` or `undefined` (an absent field). */
  datatype Option<+T> = None | Some(value: T) {

    /** `o ?? d`: the value if present, else the default. */
    function GetOr(default: T): T {
      match this
      case Some(v) => v
      case None => default
    }
  }

  /** The outcome of a call that may throw: `Failure` carries the error message. */
  datatype Result<+T> = Success(value: T) | Failure(error: string)
}
