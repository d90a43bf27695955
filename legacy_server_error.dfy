/** The error responses of the older server/http-server/error.js. They agree
    with lib/http-server/error.js except for `notFound`, whose fourth argument
    replaces the message instead of being appended to it. */
module LegacyServerError {
  import opened Js
  import opened Http
  import ServerError

  /** `notFound(req, res, next, message)`: 404 with `message`, or "Not found"
      when it is empty or absent. */
  function NotFound(message: string): (r: Reply)
    ensures message != "" ==> IsError(r, NOT_FOUND, message)
    ensures message == "" ==> IsError(r, NOT_FOUND, ServerError.NOT_FOUND_MESSAGE)
  {
    ErrorReply(NOT_FOUND, if message != "" then message else ServerError.NOT_FOUND_MESSAGE)
  }

  /** `handleError`: 500 "Internal server error", whether or not `err` is set
      (it only decides whether the error is logged). */
  function HandleError(err: Option<Error>): (r: Reply)
    ensures IsError(r, INTERNAL_ERROR, ServerError.INTERNAL_ERROR_MESSAGE)
  {
    ErrorReply(INTERNAL_ERROR, ServerError.INTERNAL_ERROR_MESSAGE)
  }

  /** `middleware`: a `SyntaxError` becomes 400 "Invalid JSON"; anything else
      goes to `next()`. */
  function Middleware(err: Error): (o: Outcome)
    ensures o.Respond? <==> err.name == SyntaxError
    ensures o.Respond? ==> IsError(o.reply, BAD_REQUEST, ServerError.INVALID_JSON)
  {
    if err.name == SyntaxError then Respond(ErrorReply(BAD_REQUEST, ServerError.INVALID_JSON)) else Next
  }

  /** `internalServerError`: the error's message when present, else the default. */
  function InternalServerError(err: Option<Error>): (r: Reply)
    ensures err.Some? && err.value.message != "" ==> IsError(r, INTERNAL_ERROR, err.value.message)
    ensures err.None? || err.value.message == "" ==> IsError(r, INTERNAL_ERROR, ServerError.INTERNAL_ERROR_MESSAGE)
  {
    ErrorReply(INTERNAL_ERROR, if err.Some? && err.value.message != "" then err.value.message else ServerError.INTERNAL_ERROR_MESSAGE)
  }

  /** `badRequest`: the given message or "Bad request". */
  function BadRequest(message: string): (r: Reply)
    ensures message != "" ==> IsError(r, BAD_REQUEST, message)
    ensures message == "" ==> IsError(r, BAD_REQUEST, ServerError.BAD_REQUEST_MESSAGE)
  {
    ErrorReply(BAD_REQUEST, if message != "" then message else ServerError.BAD_REQUEST_MESSAGE)
  }

  /** The two tables answer every error identically except in `notFound`: the
      newer one appends the custom error to "Not found", the older one uses
      the given message alone. */
  lemma VariantsAgree(err: Error, e: Option<Error>, message: string)
    ensures Middleware(err) == ServerError.Middleware(err)
    ensures HandleError(e) == ServerError.HandleError(err)
    ensures InternalServerError(e) == ServerError.InternalServerError(e)
    ensures BadRequest(message) == ServerError.BadRequest(message)
    ensures message != "" ==> NotFound(message) != ServerError.NotFound(message)
    ensures NotFound("") == ServerError.NotFound("")
  {
    if message != "" {
      var older, newer := NotFound(message), ServerError.NotFound(message);
      assert older.body["message"] == JStr(message);
      assert newer.body["message"] == JStr(ServerError.NOT_FOUND_MESSAGE + ", " + message);
      assert |ServerError.NOT_FOUND_MESSAGE + ", " + message| > |message|;
    }
  }
}
