/** Failure-carrying values used across the model. */
module Wrappers {

  datatype Option<+T> = None | Some(value: T) {
    function GetOr(default: T): T {
      match this
      case Some(v) => v
      case None => default
    }
  }

  datatype Result<+T, +E> = Ok(value: T) | Err(error: E)
}

/** HTTP status codes, the service's error value and what an Express handler ends with. */
module Http {
  const OK := 200
  const CREATED := 201
  const BAD_REQUEST := 400
  const UNAUTHORIZED := 401
  const UNPROCESSABLE_ENTITY := 422
  const INTERNAL_SERVER_ERROR := 500

  /** An error a handler forwards to the error middleware: either the service's own
      `ApiError` or an exception thrown by a library and forwarded by `catchAsync`. */
  datatype Failure =
    | ApiError(message: string, status: int)
    | Thrown(message: string)

  /** How a handler finishes: it writes a JSON response, calls `next(err)`,
      or calls `next()` without an error. */
  datatype Outcome<D> =
    | Respond(status: int, message: string, data: D)
    | Forward(failure: Failure)
    | Proceed
}
