/** Values shared by every module. */
module Common {
  datatype Option<+T> = None | Some(value: T)

  /** How a call ends: with a value, or with the error it throws. */
  datatype Result<+T> = Ok(value: T) | Fail(error: Error)

  datatype Error =
    | BadRequest
    | Unauthorized
    | NotFound
    | Conflict
    | Internal   // a plain Error or a database error, without a status code of its own
}
