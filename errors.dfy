/** Option, the error kinds the authentication code raises, and Result. */
module Errors {

  datatype Option<+T> = None | Some(value: T)

  /** Every exception the auth service, its controller and its guard can raise.
      The first six are NestJS HttpException subclasses; the last three are
      library errors that reach the caller unclassified. */
  datatype Error =
    | Conflict(message: string)            // ConflictException
    | Forbidden                            // ForbiddenException
    | NotFound                             // NotFoundException
    | Unauthorized(message: string)        // UnauthorizedException
    | BadRequest(message: string)          // BadRequestException
    | InternalServerError(message: string) // HttpException with status 500
    | TokenExpiredError                    // jsonwebtoken: signature fine, exp passed
    | JsonWebTokenError                    // jsonwebtoken: malformed or wrongly signed
    | PrismaError                          // any failed database call

  /** `error instanceof HttpException` */
  predicate IsHttpException(e: Error)
    ensures IsHttpException(e) <==>
      e.Conflict? || e.Forbidden? || e.NotFound? || e.Unauthorized? || e.BadRequest?
      || e.InternalServerError?
  {
    !(e.TokenExpiredError? || e.JsonWebTokenError? || e.PrismaError?)
  }

  datatype Result<+T> = Success(value: T) | Failure(error: Error)
}
