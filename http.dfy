/** HTTP replies as Express sends them: a status, headers and a JSON body. */
module Http {

  datatype Json =
    | JNull
    | JBool(b: bool)
    | JNum(n: int)
    | JStr(s: string)
    | JArray(items: seq<Json>)
    | JObject(fields: map<string, Json>)

  /** A JSON object body, by key. */
  type Body = map<string, Json>

  /** The three named codes come from a status table that is not part of this
      model, so they stay abstract; `Code` is a literal number. */
  datatype Status = BAD_REQUEST | NOT_FOUND | INTERNAL_ERROR | Code(n: int)

  datatype Reply = Reply(status: Status, headers: map<string, string>, body: Body)

  /** What a middleware does with a request: pass it on with `next()`, or answer it. */
  datatype Outcome = Next | Respond(reply: Reply)

  /** The `{ error: true, message }` body every error reply carries. */
  function ErrorBody(message: string): Body
  {
    map["error" := JBool(true), "message" := JStr(message)]
  }

  /** `res.status(status).json(ErrorBody(message))` */
  function ErrorReply(status: Status, message: string): Reply
  {
    Reply(status, map[], ErrorBody(message))
  }

  /** A reply flagged as an error whose message is `message`. */
  predicate IsError(r: Reply, status: Status, message: string)
  {
    r.status == status && "error" in r.body && r.body["error"] == JBool(true)
    && "message" in r.body && r.body["message"] == JStr(message)
  }
}
