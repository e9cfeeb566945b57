/** The optional-value datatype used for PHP's "value or false" returns. */
module Wrappers {

  /** `None` stands for the source's `false` (or `null`) return, `Some` for a real value. */
  datatype Option<+T> = None | Some(value: T) {

    /** The value, or `default` when there is none. */
    function GetOr(default: T): T {
      match this
      case Some(v) => v
      case None => default
    }
  }
}
