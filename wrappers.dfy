/** Failure-carrying results: the model's counterpart of the exceptions the
    source raises and of its `Optional` returns. */
module Wrappers {

  datatype Option<+T> = None | Some(value: T)

  /** `Ok` is a normal return; `Err` is a raised exception carrying a tagged error. */
  datatype Result<+T, +E> = Ok(value: T) | Err(error: E)

  /** A call that returns nothing, or raises. */
  datatype Outcome<+E> = Pass | Fail(error: E)
}
