/** The exceptions the core throws. Every one of them is an `Error` instance in the source. */
module Errors {

  datatype Exception =
    | Error(message: string)                        // `new Error(...)`
    | ConflictException(message: string)            // NestJS 409
    | NotFoundException(message: string)            // NestJS 404
    | InternalServerErrorException(message: string) // NestJS 500
    | UnauthorizedException(message: string)        // NestJS 401

  /** What a `catch` block can receive: an Error instance, or any other thrown value. */
  datatype Thrown = ThrownError(error: Exception) | ThrownValue(description: string)
}
