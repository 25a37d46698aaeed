/** The optional-value datatype used where the JavaScript code tests a value for `undefined`/`null`. */
module Wrappers {

  datatype Option<+T> = None | Some(value: T) {

    /** The value, or `default` when there is none (JavaScript's `x ?? default`, `x || default` on objects). */
    function GetOr(default: T): T {
      match this
      case Some(v) => v
      case None => default
    }
  }

  /** A value or an error message (a thrown `Error` in the JavaScript code). */
  datatype Result<+R> = Success(value: R) | Failure(error: string)
}
