/** Optional values, shared by the whole model. */
module Wrappers {

  /** `None` stands for a value pandas reports as missing (NaN, no row, a
      failed call); `Some(v)` for a present value. */
  datatype Option<+T> = None | Some(value: T) {

    /** The value, or `default` when there is none (Python's `dict.get(k, default)`). */
    function GetOr(default: T): T {
      match this
      case Some(v) => v
      case None => default
    }
  }
}
