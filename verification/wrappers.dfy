/** The optional-value datatype used throughout the model. */
module Wrappers {

  /** Python's `Optional[T]` as a return value: `None` or a value. */
  datatype Option<+T> = None | Some(value: T) {

    /** Returns the wrapped value, or `default` when there is none. */
    function GetOr(default: T): T
    {
      match this
      case Some(v) => v
      case None => default
    }
  }
}
