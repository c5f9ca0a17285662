/** Shared carriers for the model: a field or reply that may be missing
    (the source's `None`), and the outcome of a call that either returns a
    value or raises an error. */
module Common {

  /** A value that may be missing: an absent field, a nullable field, or a
      `None` reply. */
  datatype Option<+T> = None | Some(value: T) {

    /** The carried value, or `fallback` when it is missing (how a declared
        default stands in for an absent field). */
    function GetOr(fallback: T): T {
      if Some? then value else fallback
    }
  }

  /** A call that returned `value`, or raised `error` instead. */
  datatype Result<+R, +E> = Success(value: R) | Failure(error: E)
}
