/** Option, the HTTP error taxonomy the services throw, and a Result carrying it. */
module Wrappers {

  datatype Option<+T> = None | Some(value: T) {
    function GetOr(default: T): T {
      match this
      case Some(v) => v
      case None => default
    }
  }

  /** The status classes of the exceptions thrown by the services. */
  datatype Status = BadRequest | Unauthorized | NotFound | Conflict | InternalServerError

  /** An exception: its status class and its message text. */
  datatype HttpError = HttpError(status: Status, message: string)

  /** Either the value a flow returns or the exception it throws. */
  datatype Result<+T> = Ok(value: T) | Err(error: HttpError)
}
