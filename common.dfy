/** Values shared by every service: optional values, the kinds of exception a
    service call can end in, and the outcome of a call. */
module Common {

  datatype Option<+T> = None | Some(value: T)

  /** The NestJS HttpException classes the services throw, by HTTP status. */
  datatype HttpStatus =
    | BadRequest           // 400
    | Unauthorized         // 401
    | Forbidden            // 403
    | NotFound             // 404
    | Conflict             // 409
    | InternalServerError  // 500
    | ServiceUnavailable   // 503

  /** The three kinds of error the Prisma client raises. */
  datatype PrismaError =
    | KnownRequest(code: string)  // PrismaClientKnownRequestError, with its "Pxxxx" code
    | Validation                  // PrismaClientValidationError
    | UnknownRequest              // PrismaClientUnknownRequestError

  /** What a call can throw. */
  datatype Thrown =
    | Http(status: HttpStatus)    // an HttpException
    | Prisma(error: PrismaError)  // a Prisma client error nobody translated
    | Plain                       // any other Error (a TypeError, `new Error(..)`, a failed fetch)

  /** The result of a call: the value it returns or what it throws. */
  datatype Outcome<+T> = Ok(value: T) | Err(thrown: Thrown)

  /** Shorthand for throwing an HttpException. */
  function Fail<T>(status: HttpStatus): Outcome<T> {
    Err(Http(status))
  }
}
