/** `APIHandler` of lib/http-server/api-handlers/api-handler.js: the
    dispatcher table, the middleware that loads and caches the dispatcher
    class, and `dispatchApi`, which turns what a dispatcher returns into
    the HTTP reply. */
module ApiHandler {
  import opened Js
  import opened Http
  import ServerError

  /** `DISPATCHERS`: dispatcher type to npm package. */
  const Dispatchers: map<string, string> := map["rest" := "@janiscommerce/api"]

  /** `${this.dispatchers[type]}`: "undefined" for a type with no entry. */
  function PackageName(table: map<string, string>, dispatcherType: string): (name: string)
    ensures dispatcherType in table ==> name == table[dispatcherType]
    ensures dispatcherType !in table ==> name == "undefined"
  {
    if dispatcherType in table then table[dispatcherType] else "undefined"
  }

  function NotInstalledMessage(package: string): string
  {
    "Package " + package + " not installed. Please run: npm install " + package
  }

  function NotAClassMessage(package: string): string
  {
    "Package " + package + " not returning 'Dispatcher' Class"
  }

  /** The outcome of `require(...)` of a plugin package: the export read from
      the loaded module, or a failure to load it. */
  datatype Load = Loaded(exported: Value) | LoadFailed

  /** What the `try` of `setDispatcherMiddleware` gets: for a type with no
      entry, `path.join` throws on the `undefined` package before anything
      is loaded; otherwise the outcome of the `require`. */
  function TryLoad(dispatcherType: string, load: Load): (l: Load)
    ensures dispatcherType !in Dispatchers ==> l.LoadFailed?
    ensures dispatcherType in Dispatchers ==> l == load
  {
    if dispatcherType in Dispatchers then load else LoadFailed
  }

  /** `setDispatcherMiddleware` over the cached `_dispatcherClass`: the new
      cache and what the middleware does. */
  function SetDispatcher(cached: Value, dispatcherType: string, load: Load): (r: (Value, Outcome))
    ensures Truthy(cached) ==> r == (cached, Next)
    ensures !Truthy(cached) && (load.LoadFailed? || dispatcherType !in Dispatchers) ==> r.0 == cached
    ensures !Truthy(cached) && (load.LoadFailed? || dispatcherType !in Dispatchers) ==>
      r.1 == Respond(ServerError.InternalServerError(Some(Error(PlainError, NotInstalledMessage(PackageName(Dispatchers, dispatcherType))))))
    ensures !Truthy(cached) && dispatcherType !in Dispatchers ==>
      r.1 == Respond(ServerError.InternalServerError(Some(Error(PlainError, NotInstalledMessage("undefined")))))
    ensures !Truthy(cached) && load.Loaded? && dispatcherType in Dispatchers ==> r.0 == load.exported
    ensures !Truthy(cached) && load.Loaded? && dispatcherType in Dispatchers ==> (r.1 == Next <==> load.exported.Function?)
    ensures r.1 == Next <==> Truthy(cached) || (dispatcherType in Dispatchers && load.Loaded? && load.exported.Function?)
    ensures r.1.Respond? ==> r.1.reply.status == INTERNAL_ERROR
  {
    var package := PackageName(Dispatchers, dispatcherType);
    if Truthy(cached) then (cached, Next)
    else match TryLoad(dispatcherType, load)
      case LoadFailed =>
        (cached, Respond(ServerError.InternalServerError(Some(Error(PlainError, NotInstalledMessage(package))))))
      case Loaded(exported) =>
        if exported.Function? then (exported, Next)
        else (exported, Respond(ServerError.InternalServerError(Some(Error(PlainError, NotAClassMessage(package))))))
  }

  /** A handler whose type has no entry never gets past the middleware: the
      cache stays empty and every request, whatever could be loaded, is
      answered with the 500 naming the package "undefined". */
  lemma {:induction false} UnknownTypeNeverPasses(dispatcherType: string, loads: seq<Load>)
    requires dispatcherType !in Dispatchers
    ensures CacheAfter(Undefined, dispatcherType, loads) == Undefined
    ensures forall i :: 0 <= i < |loads| ==>
      SetDispatcher(CacheAfter(Undefined, dispatcherType, loads[..i]), dispatcherType, loads[i]).1
        == Respond(ServerError.InternalServerError(Some(Error(PlainError, NotInstalledMessage("undefined")))))
  {
    if loads != [] {
      var n := |loads| - 1;
      UnknownTypeNeverPasses(dispatcherType, loads[..n]);
      assert loads[..n][..n] == loads[..n];
      forall i | 0 <= i < |loads|
        ensures SetDispatcher(CacheAfter(Undefined, dispatcherType, loads[..i]), dispatcherType, loads[i]).1
          == Respond(ServerError.InternalServerError(Some(Error(PlainError, NotInstalledMessage("undefined")))))
      {
        if i < n {
          assert loads[..n][..i] == loads[..i];
          assert loads[..n][i] == loads[i];
        }
      }
    }
  }

  /** The cache after one call of the middleware per load, in order. */
  function CacheAfter(cached: Value, dispatcherType: string, loads: seq<Load>): Value
    decreases |loads|
  {
    if loads == [] then cached
    else SetDispatcher(CacheAfter(cached, dispatcherType, loads[..|loads| - 1]), dispatcherType, loads[|loads| - 1]).0
  }

  /** Once a call has passed, every later call passes without loading
      anything. */
  lemma PassedOnceCached(cached: Value, dispatcherType: string, load: Load, later: Load)
    requires SetDispatcher(cached, dispatcherType, load).1 == Next
    ensures var c := SetDispatcher(cached, dispatcherType, load).0;
      SetDispatcher(c, dispatcherType, later) == (c, Next)
  {
  }

  /** The cache is written before the type check: a truthy exported that is
      not a class is refused once with a 500, then accepted by every later
      call. */
  lemma NonClassAcceptedNextTime(cached: Value, dispatcherType: string, exported: Value, later: Load)
    requires dispatcherType in Dispatchers
    requires !Truthy(cached) && Truthy(exported) && !exported.Function?
    ensures var (c, first) := SetDispatcher(cached, dispatcherType, Loaded(exported));
      && first == Respond(ServerError.InternalServerError(Some(Error(PlainError, NotAClassMessage(PackageName(Dispatchers, dispatcherType))))))
      && SetDispatcher(c, dispatcherType, later) == (exported, Next)
  {
  }

  /** The static side of a handler class: its dispatcher type and the
      cached dispatcher class. */
  class Handler {
    const dispatcherType: string
    var dispatcherClass: Value

    constructor (dispatcherType: string)
      ensures this.dispatcherType == dispatcherType && dispatcherClass == Undefined
    {
      this.dispatcherType := dispatcherType;
      dispatcherClass := Undefined;
    }

    method SetDispatcherMiddleware(load: Load) returns (o: Outcome)
      modifies this
      ensures (dispatcherClass, o) == SetDispatcher(old(dispatcherClass), dispatcherType, load)
    {
      o := Next;
      if !Truthy(dispatcherClass) {
        var package := PackageName(Dispatchers, dispatcherType);
        if dispatcherType !in Dispatchers || load.LoadFailed? {
          return Respond(ServerError.InternalServerError(Some(Error(PlainError, NotInstalledMessage(package)))));
        }
        dispatcherClass := load.exported;
        if !dispatcherClass.Function? {
          o := Respond(ServerError.InternalServerError(Some(Error(PlainError, NotAClassMessage(package)))));
        }
      }
    }
  }

  // ---- dispatchApi ----

  /** What `await api.dispatch()` gives: a rejection with an error of the
      named kind, or it resolves to something whose `typeof` is not
      'object', to `null`, or to an object with `body`, `code`, `message` and
      `headers` (falsy ones as None, 0 and ""). */
  datatype ApiResponse =
    | Throws(err: ErrorName)
    | NotAnObject
    | NullResponse
    | Response(body: Option<Body>, code: int, message: string, headers: Option<map<string, string>>)

  /** `res.set(headers).status(code).json(body)`, or a promise rejected with
      an error of the named kind. */
  datatype Dispatched = Sent(reply: Reply) | Rejected(err: ErrorName)

  /** `response.body || {}` */
  function BaseBody(response: ApiResponse): Body
  {
    if response.Response? && response.body.Some? then response.body.value else map[]
  }

  /** `response.code || 200` */
  function StatusCode(response: ApiResponse): (code: int)
    ensures code != 0
    ensures response.Response? && response.code != 0 ==> code == response.code
    ensures !(response.Response? && response.code != 0) ==> code == 200
  {
    if response.Response? && response.code != 0 then response.code else 200
  }

  function Message(response: ApiResponse): string
  {
    if response.Response? then response.message else ""
  }

  /** `response.headers || {}` */
  function Headers(response: ApiResponse): map<string, string>
  {
    if response.Response? && response.headers.Some? then response.headers.value else map[]
  }

  /** A reply that keeps the dispatcher's body except for `error` and
      `message`, with the normalised status and headers. */
  predicate Normalised(response: ApiResponse, reply: Reply)
  {
    && reply.status == Code(StatusCode(response))
    && reply.headers == Headers(response)
    && reply.body - {"error", "message"} == BaseBody(response) - {"error", "message"}
    && (Message(response) != "" ==> "message" in reply.body && reply.body["message"] == JStr(Message(response)))
    && (Message(response) == "" ==> ("message" in reply.body <==> "message" in BaseBody(response)))
    && (Message(response) == "" && "message" in BaseBody(response) ==> reply.body["message"] == BaseBody(response)["message"])
  }

  /** `dispatchApi`: a rejection of `api.dispatch()` passes through; a
      non-object result counts as `{}`; `null` makes `response.body` throw; the reply carries `error: true` exactly when the
      status is 400 or more (otherwise the dispatcher's own `error`, if any),
      and a non-empty `message` overrides the body's. */
  function DispatchApi(response: ApiResponse): (d: Dispatched)
    ensures d.Rejected? <==> response.Throws? || response.NullResponse?
    ensures response.Throws? ==> d == Rejected(response.err)
    ensures response.NullResponse? ==> d == Rejected(TypeError)
    ensures d.Sent? ==> Normalised(response, d.reply)
    ensures d.Sent? && StatusCode(response) >= 400 ==> "error" in d.reply.body && d.reply.body["error"] == JBool(true)
    ensures d.Sent? && StatusCode(response) < 400 ==> ("error" in d.reply.body <==> "error" in BaseBody(response))
    ensures d.Sent? && StatusCode(response) < 400 && "error" in BaseBody(response) ==>
      d.reply.body["error"] == BaseBody(response)["error"]
  {
    if response.Throws? then Rejected(response.err)
    else if response.NullResponse? then Rejected(TypeError)
    else
      var body := BaseBody(response);
      var code := StatusCode(response);
      var flagged := if code >= 400 then body["error" := JBool(true)] else body;
      var answered := if Message(response) != "" then flagged["message" := JStr(Message(response))] else flagged;
      Sent(Reply(Code(code), Headers(response), answered))
  }

  /** A result that is not an object is answered like `{}`: 200, no
      headers, an empty body. */
  lemma NonObjectIsEmptyReply()
    ensures DispatchApi(NotAnObject) == Sent(Reply(Code(200), map[], map[]))
  {
  }
}
