/** The optional-value datatype shared by the whole model: a JavaScript value
    that may be `undefined` (a missing map entry, an absent property, a
    mapper that declines an error). */
module Wrappers {

  datatype Option<+T> = None | Some(value: T) {

    /** `x || fallback` for an optional argument: the fallback stands in
        for an `undefined` one. */
    function GetOr(default: T): T
    {
      match this
      case Some(v) => v
      case None => default
    }
  }
}
