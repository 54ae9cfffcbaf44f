/**
 * The tagged error taxonomy of the request engine. Each variant keeps the
 * fields the engine fills in; the `cause` of a transport, JSON or decode
 * failure is an exception or decoder report and is not kept.
 */
module Errors {
  import opened Http

  datatype ApiError =
    | NetworkError(message: string, url: Url)
    | JsonParseError(message: string)
    | SchemaDecodeError(message: string)
    | BadRequestError(cause: string)
    | UnauthorizedError(cause: string)
    | ForbiddenError(cause: string)
    | NotFoundError(cause: string)
    | RateLimitError(cause: string, retryAfterSeconds: nat)
    | UnknownApiError(cause: string)
  {
    /** The variants built from a decoded Spotify error envelope. */
    predicate IsApiStatusError()
    {
      BadRequestError? || UnauthorizedError? || ForbiddenError? || NotFoundError? ||
      RateLimitError? || UnknownApiError?
    }
  }
}
