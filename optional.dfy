/** An optional value: the model's stand-in for JavaScript's `undefined` / `null`. */
module Optional {

  datatype Option<+T> = None | Some(value: T) {

    /** The value if present, `default` otherwise (JavaScript's `x ?? default`). */
    function GetOr(default: T): (r: T)
      ensures Some? ==> r == value
      ensures None? ==> r == default
    {
      match this
      case Some(v) => v
      case None => default
    }
  }
}
