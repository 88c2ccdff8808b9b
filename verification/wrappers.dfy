/** An optional request field: present with a value, or left out by the caller. */
module Wrappers {

  datatype Option<+T> = None | Some(value: T) {

    /** The field's value when present, otherwise the caller's fallback. */
    function GetOr(default: T): (r: T)
      ensures Some? ==> r == value
      ensures None? ==> r == default
    {
      match this
      case Some(v) => v
      case None => default
    }
  }
}
