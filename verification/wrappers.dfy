/** Small failure-carrying datatypes shared by the modules of this model. */
module Wrappers {

  /** `None` stands for JavaScript's `null` or a missing property, `Some(v)` for a present value. */
  datatype Option<+T> = None | Some(value: T) {

    /** Returns the value, or `default` when there is none. */
    function GetOr(default: T): (r: T)
      ensures Some? ==> r == value
      ensures None? ==> r == default
    {
      match this
      case Some(v) => v
      case None => default
    }
  }

  /** The result of an awaited call that either returns a value or throws. */
  datatype CallResult<+T> = Returned(value: T) | Threw
}
