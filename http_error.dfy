/** The error value every controller hands to `next`, and the outcome of a handler. */
module HttpErrors {

  datatype Option<+T> = None | Some(value: T)

  /** An error with a message and an optional status code; a missing code is turned into 500
      by the application's error handler. */
  datatype HttpError = HttpError(message: string, status: Option<nat>)

  /** A value or an error, as returned by a collaborator such as the geocoder. */
  datatype Result<+T> = Ok(value: T) | Err(error: HttpError)

  /** What a request handler ends with: a response with a status and a body, an error passed
      to the error handler, or no response at all (an exception escaping an async handler). */
  datatype Outcome<+T> = Success(status: nat, value: T) | Failure(error: HttpError) | NoResponse

  function Coded(message: string, status: nat): (e: HttpError)
  {
    HttpError(message, Some(status))
  }
}
