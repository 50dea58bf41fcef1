/** A value that may be absent: JavaScript `null`, or a request field that
    was not supplied. */
module Optional {

  datatype Option<T> = None | Some(value: T) {

    /** The value, or `default` when absent (Mongoose schema defaults). */
    function GetOr(default: T): (r: T)
      ensures Some? ==> r == value
      ensures None? ==> r == default
    {
      match this
      case Some(v) => v
      case None => default
    }
  }
}
