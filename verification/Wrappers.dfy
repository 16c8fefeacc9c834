/** Failure-carrying wrappers: `Option` stands for a Java reference that may be
    null, `Result` for a computation that may throw. */
module Wrappers {

  datatype Option<+T> = None | Some(value: T) {

    /** The wrapped value, or `default` when there is none. */
    function GetOr(default: T): T {
      match this
      case Some(v) => v
      case None => default
    }
  }

  /** `Failure` carries the message of the exception that was thrown. */
  datatype Result<+R> = Success(value: R) | Failure(message: string)
}
