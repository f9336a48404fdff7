/** Failure-carrying datatypes shared by every module of the model. */
module Common {

  /** A value that may be absent: a nullable column, a missing dictionary key. */
  datatype Option<+T> = None | Some(value: T) {
    function GetOr(default: T): T {
      match this
      case Some(v) => v
      case None => default
    }
  }

  /** The outcome of a handler: a value, or the error the handler raises. */
  datatype Result<+T, +E> = Ok(value: T) | Err(error: E) {
    predicate IsFailure() { Err? }

    function PropagateFailure<U>(): Result<U, E>
      requires Err?
    {
      Err(error)
    }

    function Extract(): T
      requires Ok?
    {
      value
    }
  }

  /** An HTTP error as raised by a route handler: the status code and the detail text. */
  datatype HttpError = HttpError(code: nat, detail: string)

  const BadRequest: nat := 400
  const Unauthorized: nat := 401
  const Forbidden: nat := 403
  const NotFound: nat := 404
  /** Raised by the request-body validation layer before a handler runs. */
  const UnprocessableEntity: nat := 422
  const InternalServerError: nat := 500
}
