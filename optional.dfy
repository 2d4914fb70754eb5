/** A C pointer that may be NULL, as a value. */
module Optional {

  datatype Option<+T> = None | Some(value: T) {

    /** The pointed-to value, or `default` for NULL (the `p ? p : default` idiom). */
    function GetOr(default: T): (r: T)
      ensures Some? ==> r == value
      ensures None? ==> r == default
    {
      match this
      case Some(v) => v
      case None => default
    }
  }
}
