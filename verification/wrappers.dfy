/** `Option` and `Outcome`, shared by the admission model. */
module Wrappers {

  /** `None` stands for an absent value, `Some(v)` for a present one. */
  datatype Option<+T> = None | Some(value: T)

  /** The outcome of a check: `Pass` is Go's nil error, `Fail(e)` a non-nil one. */
  datatype Outcome<+E> = Pass | Fail(error: E)
}
