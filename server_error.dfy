/** The error responses of lib/http-server/error.js: each static method of
    `ServerError` computes one status and one `{ error: true, message }` body. */
module ServerError {
  import opened Js
  import opened Http

  const INVALID_JSON := "Invalid JSON"
  const NOT_FOUND_MESSAGE := "Not found"
  const INTERNAL_ERROR_MESSAGE := "Internal server error"
  const BAD_REQUEST_MESSAGE := "Bad request"

  /** Error-handling middleware: a body-parser `SyntaxError` is answered with
      400 "Invalid JSON"; every other error is passed on. */
  function Middleware(err: Error): (o: Outcome)
    ensures o.Respond? <==> err.name == SyntaxError
    ensures o.Respond? ==> IsError(o.reply, BAD_REQUEST, INVALID_JSON)
  {
    if err.name == SyntaxError then Respond(ErrorReply(BAD_REQUEST, INVALID_JSON)) else Next
  }

  /** `notFound`: "Not found", followed by the `customError` a failed schema
      validation left on the response when there is one ("" = unset). */
  function NotFound(customError: string): (r: Reply)
    ensures customError == "" ==> IsError(r, NOT_FOUND, NOT_FOUND_MESSAGE)
    ensures customError != "" ==> IsError(r, NOT_FOUND, NOT_FOUND_MESSAGE + ", " + customError)
  {
    var message := if customError != "" then NOT_FOUND_MESSAGE + ", " + customError else NOT_FOUND_MESSAGE;
    ErrorReply(NOT_FOUND, message)
  }

  /** `handleError`: always 500 "Internal server error", whatever the error. */
  function HandleError(err: Error): (r: Reply)
    ensures IsError(r, INTERNAL_ERROR, INTERNAL_ERROR_MESSAGE)
  {
    ErrorReply(INTERNAL_ERROR, INTERNAL_ERROR_MESSAGE)
  }

  /** `internalServerError`: 500 with the error's own message when there is an
      error with a non-empty message, else the default message. */
  function InternalServerError(err: Option<Error>): (r: Reply)
    ensures r.status == INTERNAL_ERROR
    ensures err.Some? && err.value.message != "" ==> IsError(r, INTERNAL_ERROR, err.value.message)
    ensures err.None? || err.value.message == "" ==> IsError(r, INTERNAL_ERROR, INTERNAL_ERROR_MESSAGE)
  {
    ErrorReply(INTERNAL_ERROR, if err.Some? && err.value.message != "" then err.value.message else INTERNAL_ERROR_MESSAGE)
  }

  /** `badRequest`: 400 with the given message, or "Bad request" when it is empty. */
  function BadRequest(message: string): (r: Reply)
    ensures message != "" ==> IsError(r, BAD_REQUEST, message)
    ensures message == "" ==> IsError(r, BAD_REQUEST, BAD_REQUEST_MESSAGE)
  {
    ErrorReply(BAD_REQUEST, if message != "" then message else BAD_REQUEST_MESSAGE)
  }
}
