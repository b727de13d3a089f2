/** Values that may be absent, and the errors the bot's code raises.

    TypeScript's `undefined` becomes `None`; a thrown exception becomes an
    `Err` of a `Result` (or a `Fail` of an `Outcome` for a `void` function). */
module Errors {

  datatype Option<+T> = None | Some(value: T) {
    function GetOr(default: T): T {
      match this
      case Some(v) => v
      case None => default
    }
  }

  /** The error kinds that can leave the core. The first three are the
      http-errors classes the code throws; the fourth is an exception the
      EC2 SDK client throws that no `try` catches. */
  datatype Error =
    | BadRequest(message: string)
    | InternalServerError(message: string)
    | Forbidden(message: string)
    | Ec2ClientError

  datatype Result<+T> = Ok(value: T) | Err(error: Error)

  /** The outcome of a `void` function that may throw. */
  datatype Outcome = Pass | Fail(error: Error)
}
