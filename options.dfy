/** An optional value: JavaScript's `undefined`, an absent field or a key not found. */
module Options {

  datatype Option<+T> = None | Some(value: T) {

    /** The value, or `default` when absent: the `x = default` of a destructuring pattern. */
    function GetOr(default: T): (r: T)
      ensures Some? ==> r == value
      ensures None? ==> r == default
    {
      match this
      case Some(v) => v
      case None => default
    }
  }
}
