/** Small values used throughout. */
module Wrappers {
  /** Python's `None` against a present value. */
  datatype Option<+T> = None | Some(value: T)

  /** A condition, counted. */
  function One(b: bool): nat { if b then 1 else 0 }
}
