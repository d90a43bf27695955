/** `APIRestHandler` of the older http-server/api-handlers/api-rest-handler.js:
    the middleware chain, a schema validation that always runs, and
    `dispatch`, which looks the dispatcher up on every request. The route is
    the same matcher as the newer handler's (RestRoute). */
module LegacyApiRestHandler {
  import opened Js
  import opened Http
  import ServerError
  import LegacyServerError
  import opened RestRoute
  import opened ApiHandler
  import ApiRestHandler
  import opened LegacyApiHandler

  /** One entry of the array `handler()` returns. */
  datatype Stage = Cors(middleware: Value) | ValidateSchemaStage | DispatchStage

  /** `handler()`: `[cors ? this.corsMiddleware() : null, validateSchema,
      dispatch].filter(Boolean)`. `corsMiddleware` is None when the class
      has no such method (neither handler class of this version defines
      one), so a truthy `cors` option makes the call throw a TypeError;
      otherwise its result is kept only when it is truthy. */
  function Handler(cors: Value, corsMiddleware: Option<Value>): (r: Result)
    ensures Truthy(cors) && corsMiddleware.None? <==> r.Failure?
    ensures r.Failure? ==> r.err == TypeError
    ensures r.Success? ==> |r.stages| >= 2
    ensures r.Success? ==> r.stages[|r.stages| - 2] == ValidateSchemaStage && r.stages[|r.stages| - 1] == DispatchStage
    ensures r.Success? ==> forall i :: 0 <= i < |r.stages| ==> !r.stages[i].Cors? || Truthy(r.stages[i].middleware)
    ensures r.Success? ==> (|r.stages| == 3 <==> Truthy(cors) && Truthy(corsMiddleware.value))
  {
    if !Truthy(cors) then Success([ValidateSchemaStage, DispatchStage])
    else match corsMiddleware
      case None => Failure(TypeError)
      case Some(m) => Success(if Truthy(m) then [Cors(m), ValidateSchemaStage, DispatchStage] else [ValidateSchemaStage, DispatchStage])
  }

  datatype Result = Success(stages: seq<Stage>) | Failure(err: ErrorName)

  /** `validateSchema`: always runs; a constructor failure is a 500 with its
      error, a failed `validate()` is a 404 whose message is the error's. */
  function ValidateSchema(construct: ApiRestHandler.Attempt, validate: ApiRestHandler.Attempt): (o: Outcome)
    ensures construct.Threw? ==> o == Respond(LegacyServerError.InternalServerError(Some(construct.err)))
    ensures construct.Succeeded? && validate.Threw? ==> o == Respond(LegacyServerError.NotFound(validate.err.message))
    ensures o == Next <==> construct.Succeeded? && validate.Succeeded?
  {
    if construct.Threw? then Respond(LegacyServerError.InternalServerError(Some(construct.err)))
    else if validate.Threw? then Respond(LegacyServerError.NotFound(validate.err.message))
    else Next
  }

  /** With validation on and the validator module at hand, the two variants
      agree except on the 404: the older one answers with the validation
      message alone, the newer one with "Not found, " before it. */
  lemma ValidationVariantsAgree(validator: Value, construct: ApiRestHandler.Attempt, validate: ApiRestHandler.Attempt, load: Load)
    requires Truthy(validator)
    ensures var newer := ApiRestHandler.ValidateSchema(Undefined, validator, load, construct, validate).1;
      && (ValidateSchema(construct, validate) == Next <==> newer == Next)
      && (construct.Threw? ==> ValidateSchema(construct, validate) == newer)
      && (construct.Succeeded? && validate.Threw? && validate.err.message != "" ==>
            newer.Respond? && ValidateSchema(construct, validate) != newer)
  {
    if construct.Succeeded? && validate.Threw? && validate.err.message != "" {
      var message := validate.err.message;
      var older, newer := ValidateSchema(construct, validate), ApiRestHandler.ValidateSchema(Undefined, validator, load, construct, validate).1;
      assert older.reply.body["message"] == JStr(message);
      assert newer.reply.body["message"] == JStr(ServerError.NOT_FOUND_MESSAGE + ", " + message);
      assert |ServerError.NOT_FOUND_MESSAGE + ", " + message| > |message|;
    }
  }

  /** What `dispatch` leads to: the replies sent, in order, and whether the
      returned promise rejects. */
  datatype Dispatched = Dispatched(sent: seq<Reply>, rejected: Option<ErrorName>)

  /** `dispatch`: look the 'rest' dispatcher up, construct it with the
      request's arguments, then `dispatchApi`. When loading fails the 500 is
      sent, and `new undefined` then rejects the promise; a constructor that
      throws rejects it too. */
  function LegacyDispatch(load: Load, req: ApiRestHandler.Request, construct: ApiRestHandler.Attempt,
                          api: ApiRestHandler.ApiArgs -> ApiResponse): (d: Dispatched)
    requires Route(req.path).Some?
    ensures load.LoadFailed? ==> d.rejected == Some(TypeError) && |d.sent| == 1
    ensures load.LoadFailed? ==> IsError(d.sent[0], INTERNAL_ERROR, LegacyNotInstalledMessage("@janiscommerce/api"))
    ensures load.Loaded? && !load.exported.Function? ==> d == Dispatched([], Some(TypeError))
    ensures load.Loaded? && load.exported.Function? && construct.Threw? ==> d == Dispatched([], Some(construct.err.name))
    ensures load.Loaded? && load.exported.Function? && construct.Succeeded? ==>
      match LegacyDispatchApi(api(ApiRestHandler.DispatchArgs(req)))
      case Sent(reply) => d == Dispatched([reply], None)
      case Rejected(e) => d == Dispatched([], Some(e))
  {
    var lookup := GetDispatcher("rest", load);
    var sent := if lookup.sent.Some? then [lookup.sent.value] else [];
    if !lookup.dispatcher.Function? then Dispatched(sent, Some(TypeError))
    else if construct.Threw? then Dispatched(sent, Some(construct.err.name))
    else
      match LegacyDispatchApi(api(ApiRestHandler.DispatchArgs(req)))
      case Sent(reply) => Dispatched(sent + [reply], None)
      case Rejected(e) => Dispatched(sent, Some(e))
  }

  /** With a class at hand, the older `dispatch` rejects exactly when the
      newer one does, with an error of the same kind, and otherwise sends
      the same status and headers. */
  lemma DispatchersAgree(load: Load, req: ApiRestHandler.Request, construct: ApiRestHandler.Attempt,
                          api: ApiRestHandler.ApiArgs -> ApiResponse)
    requires Route(req.path).Some? && load.Loaded? && load.exported.Function?
    ensures var (older, newer) := (LegacyDispatch(load, req, construct, api), ApiRestHandler.Dispatch(load.exported, req, construct, api));
      && (older.rejected.Some? <==> newer.Rejected?)
      && (newer.Rejected? ==> older == Dispatched([], Some(newer.err)))
      && (newer.Sent? ==> |older.sent| == 1 && older.sent[0].status == newer.reply.status && older.sent[0].headers == newer.reply.headers)
  {
  }
}
