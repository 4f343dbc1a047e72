/** Failure-carrying values shared by every module of the model. */
module Outcomes {

  /** A value that may be absent: TypeScript's optional field or `T | null`. */
  datatype Option<+T> = None | Some(value: T) {

    /** The value, or `default` when absent: the `x ?? default` idiom. */
    function GetOr(default: T): T {
      match this
      case Some(v) => v
      case None => default
    }
  }

  /** The settled state of an awaited promise: it rejected with an error
      message, or it resolved with a value. */
  datatype Attempt<+T> = Rejected(message: string) | Resolved(value: T) {

    predicate Failed() {
      Rejected?
    }
  }
}
