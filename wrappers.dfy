/** Option and Outcome, the two failure-aware shapes the model needs. */
module Wrappers {

  /** A value that may be missing: Python's `None` is `None`, anything else is `Some`. */
  datatype Option<+T> = None | Some(value: T)

  /** The result of a call that returns nothing but may raise `error`. */
  datatype Outcome<+E> = Pass | Fail(error: E)
}
