/** The "absent, not error" outcome used throughout the model: JavaScript's
    `undefined`/`null` results and optional record fields; and the outcome
    of an operation whose promise can reject. */
module Wrappers {

  datatype Option<+T> = None | Some(value: T) {

    /** The value, or `default` when absent (JavaScript's `x ?? default`). */
    function GetOr(default: T): T {
      match this
      case Some(v) => v
      case None => default
    }
  }

  /** A promise that resolves with a value or rejects. */
  datatype Result<+T> = Success(value: T) | Failure(error: string)
}
