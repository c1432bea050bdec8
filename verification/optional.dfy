/** Failure-carrying values used across the model: a lookup that may find
    nothing, and a call that may raise an error instead of returning. */
module Optional {

  /** A value that may be absent; `undefined` in the modelled code. */
  datatype Option<+T> = None | Some(value: T) {

    /** The value if present, otherwise `default` (the `x || fallback` idiom). */
    function GetOr(default: T): (r: T)
      ensures Some? ==> r == value
      ensures None? ==> r == default
    {
      match this
      case Some(v) => v
      case None => default
    }
  }

  /** Either a successful value or a thrown error message. */
  datatype Result<+R> = Success(value: R) | Failure(error: string)
}
