/** `APIRestHandler` of lib/http-server/api-handlers/api-rest-handler.js:
    the schema-validation middleware with its cached validator module, and
    the arguments `dispatch` hands to the dispatcher. The route is the
    matcher of RestRoute. */
module ApiRestHandler {
  import opened Js
  import opened Http
  import ServerError
  import opened RestRoute
  import opened ApiHandler

  const DispatcherType := "rest"

  const ValidatorNotInstalled :=
    "Package 'SchemaValidator' not installed. Please run: npm install @janiscommerce/schema-validator"

  /** Whether a call (the validator's constructor, or `validate()`) returned
      or threw. */
  datatype Attempt = Succeeded | Threw(err: Error)

  /** `typeof v === 'undefined' || v !== false`: only an explicit `false`
      turns validation off. */
  function ValidationEnabled(validateApiSchemas: Value): (b: bool)
    ensures b <==> validateApiSchemas != Bool(false)
  {
    validateApiSchemas == Undefined || validateApiSchemas != Bool(false)
  }

  /** The `schemaValidator` getter: the new cache, and the error it throws. */
  function SchemaValidator(cached: Value, load: Load): (r: (Value, Option<Error>))
    ensures Truthy(cached) ==> r == (cached, None)
    ensures !Truthy(cached) && load.LoadFailed? ==> r == (cached, Some(Error(PlainError, ValidatorNotInstalled)))
    ensures !Truthy(cached) && load.Loaded? ==> r == (load.exported, None)
  {
    if Truthy(cached) then (cached, None)
    else match load
      case LoadFailed => (cached, Some(Error(PlainError, ValidatorNotInstalled)))
      case Loaded(m) => (m, None)
  }

  /** `validateSchemaMiddleware`: the new validator cache and what the
      middleware does. A failure to load or construct the validator is a
      500; a failed `validate()` leaves its message in `res.customError` and
      is answered by `notFound`. */
  function ValidateSchema(validateApiSchemas: Value, cached: Value, load: Load, construct: Attempt, validate: Attempt): (r: (Value, Outcome))
    ensures !ValidationEnabled(validateApiSchemas) ==> r == (cached, Next)
    ensures ValidationEnabled(validateApiSchemas) ==> r.0 == SchemaValidator(cached, load).0
    ensures ValidationEnabled(validateApiSchemas) && SchemaValidator(cached, load).1.Some? ==>
      r.1 == Respond(ServerError.InternalServerError(Some(Error(PlainError, ValidatorNotInstalled))))
    ensures ValidationEnabled(validateApiSchemas) && SchemaValidator(cached, load).1.None? && construct.Threw? ==>
      r.1 == Respond(ServerError.InternalServerError(Some(construct.err)))
    ensures ValidationEnabled(validateApiSchemas) && SchemaValidator(cached, load).1.None? && construct.Succeeded? && validate.Threw? ==>
      r.1 == Respond(ServerError.NotFound(validate.err.message))
    ensures r.1 == Next <==>
      !ValidationEnabled(validateApiSchemas) || (SchemaValidator(cached, load).1.None? && construct.Succeeded? && validate.Succeeded?)
  {
    if !ValidationEnabled(validateApiSchemas) then (cached, Next)
    else
      var (validator, thrown) := SchemaValidator(cached, load);
      if thrown.Some? then (validator, Respond(ServerError.InternalServerError(thrown)))
      else if construct.Threw? then (validator, Respond(ServerError.InternalServerError(Some(construct.err))))
      else if validate.Threw? then (validator, Respond(ServerError.NotFound(validate.err.message)))
      else (validator, Next)
  }

  /** The validator module is loaded at most once: after a call that found
      or loaded it, the next call does not depend on loading again. */
  lemma ValidatorLoadedOnce(v: Value, cached: Value, load: Load, c1: Attempt, v1: Attempt, later: Load, c2: Attempt, v2: Attempt)
    requires ValidationEnabled(v) && SchemaValidator(cached, load).1.None?
    requires Truthy(SchemaValidator(cached, load).0)
    ensures var c := ValidateSchema(v, cached, load, c1, v1).0;
      ValidateSchema(v, c, later, c2, v2) == ValidateSchema(v, c, LoadFailed, c2, v2)
  {
  }

  /** The static side of `APIRestHandler`: the `validateApiSchemas` option
      and the cached validator module. */
  class RestHandler {
    const validateApiSchemas: Value
    var schemaValidator: Value

    constructor (validateApiSchemas: Value)
      ensures this.validateApiSchemas == validateApiSchemas && schemaValidator == Undefined
    {
      this.validateApiSchemas := validateApiSchemas;
      schemaValidator := Undefined;
    }

    method ValidateSchemaMiddleware(load: Load, construct: Attempt, validate: Attempt) returns (o: Outcome)
      modifies this
      ensures (schemaValidator, o) == ValidateSchema(validateApiSchemas, old(schemaValidator), load, construct, validate)
    {
      o := Next;
      if validateApiSchemas == Undefined || validateApiSchemas != Bool(false) {
        if !Truthy(schemaValidator) {
          if load.LoadFailed? {
            return Respond(ServerError.InternalServerError(Some(Error(PlainError, ValidatorNotInstalled))));
          }
          schemaValidator := load.exported;
        }
        if construct.Threw? {
          return Respond(ServerError.InternalServerError(Some(construct.err)));
        }
        if validate.Threw? {
          return Respond(ServerError.NotFound(validate.err.message));
        }
      }
    }
  }

  // ---- dispatch ----

  /** The parts of an Express request `dispatch` reads; `verb` is
      `req.method` (`method` is a keyword here). */
  datatype Request = Request(path: string, verb: string, query: Json, body: Json, headers: Json, cookies: Json)

  /** The object the dispatcher class is constructed with. */
  datatype ApiArgs = ApiArgs(endpoint: string, verb: string, data: Json, headers: Json, cookies: Json)

  /** The route's capture (`req.params[0]`), the lower-cased method, and the
      query for a GET (compared case-sensitively), the body otherwise. */
  function DispatchArgs(req: Request): (a: ApiArgs)
    requires Route(req.path).Some?
    ensures req.path == req.path[..4] + a.endpoint
    ensures a.endpoint == Render(Segments(req.path))
    ensures a.verb == ToLower(req.verb)
    ensures forall i :: 0 <= i < |a.verb| ==> !('A' <= a.verb[i] <= 'Z')
    ensures a.data == (if req.verb == "GET" then req.query else req.body)
    ensures a.headers == req.headers && a.cookies == req.cookies
  {
    RouteSound(req.path);
    ApiArgs(Route(req.path).value, ToLower(req.verb),
            if req.verb == "GET" then req.query else req.body, req.headers, req.cookies)
  }

  /** `dispatch`: build the API with the cached dispatcher class, then
      `dispatchApi` its result. A cached value that is not a class makes
      `new` throw, and so does a constructor that throws; either rejects
      the returned promise before anything is sent. */
  function Dispatch(dispatcherClass: Value, req: Request, construct: Attempt, api: ApiArgs -> ApiResponse): (d: Dispatched)
    requires Route(req.path).Some?
    ensures !dispatcherClass.Function? ==> d == Rejected(TypeError)
    ensures dispatcherClass.Function? && construct.Threw? ==> d == Rejected(construct.err.name)
    ensures dispatcherClass.Function? && construct.Succeeded? ==> d == DispatchApi(api(DispatchArgs(req)))
    ensures d.Sent? ==> dispatcherClass.Function? && construct.Succeeded?
  {
    if !dispatcherClass.Function? then Rejected(TypeError)
    else if construct.Threw? then Rejected(construct.err.name)
    else DispatchApi(api(DispatchArgs(req)))
  }

  /** A truthy non-class exported passes `setDispatcherMiddleware` on the second
      request, and that request's `dispatch` then throws at `new`. */
  lemma NonClassDispatcherRejects(exported: Value, load: Load, req: Request, construct: Attempt, api: ApiArgs -> ApiResponse)
    requires Truthy(exported) && !exported.Function? && Route(req.path).Some?
    ensures var (c, _) := SetDispatcher(Undefined, DispatcherType, Loaded(exported));
      && SetDispatcher(c, DispatcherType, load).1 == Next
      && Dispatch(c, req, construct, api) == Rejected(TypeError)
  {
  }
}
