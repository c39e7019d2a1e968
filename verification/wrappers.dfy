/** The optional-value datatype used for TypeScript's `undefined`-able fields. */
module Wrappers {

  /** `None` stands for a missing (`undefined`) value, `Some(v)` for a present one. */
  datatype Option<+T> = None | Some(value: T) {

    /** The nullish-coalescing operator `value ?? default`. */
    function GetOr(default: T): T {
      match this
      case Some(v) => v
      case None => default
    }
  }
}
