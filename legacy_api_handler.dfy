/** `APIHandler` of the older http-server/api-handlers/api-handler.js: a
    dispatcher table with a view entry, `getDispatcher`, which loads the
    package on every call, and a `dispatchApi` that never adds an error
    flag to the body. */
module LegacyApiHandler {
  import opened Js
  import opened Http
  import LegacyServerError
  import opened ApiHandler

  /** `DISPATCHERS` */
  const LegacyDispatchers: map<string, string> :=
    map["rest" := "@janiscommerce/api", "view" := "@janiscommerce/api-view"]

  function LegacyNotInstalledMessage(package: string): string
  {
    "Package " + package + " not installed.\nPlease run: npm install " + package
  }

  /** What `getDispatcher` returns, and the reply it sent, if any. */
  datatype Lookup = Lookup(dispatcher: Value, sent: Option<Reply>)

  /** `getDispatcher(type)`: the loaded module, or, when loading fails, a 500
      carrying the rewritten message and the `undefined` that
      `internalServerError` returns. */
  function GetDispatcher(dispatcherType: string, load: Load): (r: Lookup)
    ensures load.Loaded? ==> r == Lookup(load.exported, None)
    ensures load.LoadFailed? ==> r.dispatcher == Undefined && r.sent.Some?
    ensures load.LoadFailed? ==> IsError(r.sent.value, INTERNAL_ERROR,
      LegacyNotInstalledMessage(PackageName(LegacyDispatchers, dispatcherType)))
  {
    match load
    case Loaded(m) => Lookup(m, None)
    case LoadFailed =>
      var message := LegacyNotInstalledMessage(PackageName(LegacyDispatchers, dispatcherType));
      Lookup(Undefined, Some(LegacyServerError.InternalServerError(Some(Error(PlainError, message)))))
  }

  /** `dispatchApi`: as in the newer handler, except that a status of 400 or
      more only gets logged. */
  function LegacyDispatchApi(response: ApiResponse): (d: Dispatched)
    ensures d.Rejected? <==> response.Throws? || response.NullResponse?
    ensures response.Throws? ==> d == Rejected(response.err)
    ensures response.NullResponse? ==> d == Rejected(TypeError)
    ensures d.Sent? ==> Normalised(response, d.reply)
    ensures d.Sent? ==> ("error" in d.reply.body <==> "error" in BaseBody(response))
    ensures d.Sent? && "error" in BaseBody(response) ==> d.reply.body["error"] == BaseBody(response)["error"]
  {
    if response.Throws? then Rejected(response.err)
    else if response.NullResponse? then Rejected(TypeError)
    else
      var body := BaseBody(response);
      var answered := if Message(response) != "" then body["message" := JStr(Message(response))] else body;
      Sent(Reply(Code(StatusCode(response)), Headers(response), answered))
  }

  /** The two `dispatchApi` variants send the same reply, except that the
      newer one sets `error: true` when the status is 400 or more. */
  lemma DispatchVariantsAgree(response: ApiResponse)
    ensures LegacyDispatchApi(response).Rejected? ==> LegacyDispatchApi(response) == DispatchApi(response)
    ensures LegacyDispatchApi(response).Rejected? == DispatchApi(response).Rejected?
    ensures var (older, newer) := (LegacyDispatchApi(response), DispatchApi(response));
      older.Sent? ==>
        && older.reply.status == newer.reply.status && older.reply.headers == newer.reply.headers
        && newer.reply.body == (if StatusCode(response) >= 400 then older.reply.body["error" := JBool(true)] else older.reply.body)
  {
    var older, newer := LegacyDispatchApi(response), DispatchApi(response);
    if older.Sent? && StatusCode(response) >= 400 {
      var body := BaseBody(response);
      var m := JStr(Message(response));
      if Message(response) != "" {
        assert body["error" := JBool(true)]["message" := m] == body["message" := m]["error" := JBool(true)];
      }
    }
  }
}
