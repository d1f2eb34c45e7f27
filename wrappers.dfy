/** Option and Result, the two failure-carrying datatypes used across the model.
    `None` stands for JavaScript's `null`/`undefined`; `Failure` for a thrown or
    rejected value. */
module Wrappers {

  datatype Option<+T> = None | Some(value: T) {

    /** The value held, or `default` when there is none (JavaScript's `x ?? default`). */
    function GetOr(default: T): T {
      match this
      case Some(v) => v
      case None => default
    }
  }

  datatype Result<+R, +E> = Success(value: R) | Failure(error: E)
}
