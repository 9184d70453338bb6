/** Failure-carrying wrappers shared by the client model and the chat view model. */
module Wrappers {

  /** An optional value: the counterpart of a Swift optional. */
  datatype Option<+T> = None | Some(value: T) {

    /** The wrapped value, or `default` when there is none (Swift's `??`). */
    function GetOr(default: T): T
    {
      match this
      case Some(v) => v
      case None => default
    }
  }

  /** Either a value or a typed failure: the counterpart of a throwing Swift call. */
  datatype Result<+T, +E> = Success(value: T) | Failure(error: E)
}
