/** The optional value used wherever the source returns `null`/`undefined` or a field may be absent. */
module Options {

  datatype Option<+T> = None | Some(value: T) {

    /** The wrapped value, or `default` when there is none (JavaScript's `x ?? default`). */
    function GetOr(default: T): (r: T)
      ensures Some? ==> r == value
      ensures None? ==> r == default
    {
      match this
      case Some(v) => v
      case None => default
    }
  }

  /** A success value or an error message (a thrown `Error` in the source). */
  datatype Result<+R> = Ok(value: R) | Err(message: string)
}
