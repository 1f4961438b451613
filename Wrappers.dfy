/** The optional value used for Swift optionals (`T?`) throughout the model. */
module Wrappers {

  datatype Option<+T> = None | Some(value: T) {

    /** Swift's `??` operator: the wrapped value, or `default` when absent. */
    function GetOr(default: T): (r: T)
      ensures Some? ==> r == value
      ensures None? ==> r == default
    {
      match this
      case Some(v) => v
      case None => default
    }
  }
}
