/** The Option and Result datatypes, used for the search's nullable result and the entry point's errors. */
module Wrappers {

  /** `None` stands for the JavaScript `null` the search returns when nothing fits the budget. */
  datatype Option<+T> = None | Some(value: T) {

    /** The wrapped value, or `default` when absent (the `??` operator). */
    function GetOr(default: T): T {
      match this
      case Some(v) => v
      case None => default
    }
  }

  /** `Failure` stands for a thrown configuration error. */
  datatype Result<+R, +E> = Success(value: R) | Failure(error: E)
}
