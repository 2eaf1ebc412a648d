/** The wrappers used by every service module. */
module Wrappers {

  /** A Java reference that may be null. */
  datatype Option<+T> = None | Some(value: T) {

    /** The wrapped value, or `default` when there is none. */
    function GetOr(default: T): T {
      match this
      case Some(v) => v
      case None => default
    }
  }

  /** The outcome of a service call: a value, or the exception it throws. */
  datatype Result<+R, +E> = Success(value: R) | Failure(error: E)
}

/** The HTTP statuses that the services' `ResponseStatusException`s carry. */
module Http {

  datatype HttpStatus = BAD_REQUEST | NOT_FOUND | INTERNAL_SERVER_ERROR
}
