/** The two failure-carrying datatypes the model uses: an optional value, standing for a
    field that may be absent (`undefined`) or a decode that may fail, and a result, standing for
    a call that either returns a value or throws an `Error` with a message. */
module Wrappers {

  datatype Option<+T> = None | Some(value: T) {

    /** The value, or `default` when there is none. */
    function GetOr(default: T): T {
      match this
      case Some(v) => v
      case None => default
    }
  }

  datatype Result<+T> = Success(value: T) | Failure(error: string)
}
