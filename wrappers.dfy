/** An optional value: `undefined`/`null` on one side, a present value on the other. */
module Wrappers {

  datatype Option<+T> = None | Some(value: T) {

    /** The present value, or `default` when there is none (the `??` of typed code). */
    function GetOr(default: T): T {
      match this
      case Some(v) => v
      case None => default
    }
  }

  /** The result of an awaited call that either resolves or rejects with an error value. */
  datatype Outcome<+R, +E> = Resolved(value: R) | Rejected(error: E)
}
