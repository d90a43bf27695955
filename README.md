# janis-commerce/server in Dafny

This project models the core of janis-commerce/server, a Node.js HTTP server
that runs Express workers under a cluster master. Four parts are modelled:

- **The graceful cluster supervisor** (`GracefulCluster` in server/graceful.js).
  - The master forks workers and counts those that are forked and those that are listening.
  - It keeps a restart queue of pids and releases one queued worker at a time, only when as many workers listen as are configured.
  - It replaces workers that exit.
  - After SIGINT it drains every worker and ends itself once the last one exits.
  - Each worker narrows its options, may ask for its own restart on memory or on a timer, and reacts to the master's disconnect message.
- **Connection draining on shutdown** (`enableShutdown` in lib/http-server/close.js).
- **The start-up of `Server`** (lib/index.js): the worker-count formula, the supervisor configuration, and what the master and the workers set up.
- **The API request path**, in both versions of the handlers:
  - the `/api/...` route matcher and its endpoint capture;
  - schema-validation gating;
  - dispatcher loading and caching;
  - the arguments handed to the dispatcher;
  - `dispatchApi` reply normalisation;
  - the two `ServerError` tables of error replies.

Modules:

- **`Js`**: the JavaScript values the code inspects (truthiness, `||`, `typeof`), error objects, and ASCII `toLowerCase`.
- **`Http`**: JSON bodies, replies, and a middleware's outcome (`next()` or a reply).
  - `BAD_REQUEST`, `NOT_FOUND` and `INTERNAL_ERROR` stay abstract, because the table of status codes is not part of this model.
- **`GracefulSpec`**: the master as a state machine over values.
  - A `Cluster` is a snapshot of the supervisor's fields, plus `cluster.workers`, the workers that have not exited yet, the pid the next fork gets, and a log of the effects on workers and on the process.
  - There is one function per event handler, and `Step`/`Run` replay events.
  - The outcome of each `send`/`disconnect` is an input (`Os`): ok, ESRCH, or another error code.
- **`GracefulProperties`**: what the supervisor guarantees over any run, and the behaviours it allows as written.
- **`Graceful`**: the class `GracefulCluster`. It has the same fields and one method per handler. Each method is proved to move the object exactly as the matching `GracefulSpec` function moves a `Cluster`.
- **`GracefulWorker`**: the worker side of `start` in server/graceful.js. A worker of lib/index.js never runs it, because lib/index.js starts the supervisor only on the master.
- **`Close`** and **`CloseProperties`**:
  - the listeners of `enableShutdown` as methods on objects (server, responses, sockets);
  - the same rules over whole traces of events, with the ordering guarantees proved.
- **`ServerMain`**: lib/index.js, including how its workers react to signals and to the master's messages.
- **The API handlers**: `RestRoute`, `ApiHandler`, `ApiRestHandler`, `LegacyApiHandler` and `LegacyApiRestHandler`.
- **The error tables**: `ServerError` and `LegacyServerError`.

Nothing in `checkRestartQueue` (server/graceful.js:216-245) lowers `listeningWorkersCount`, so a second release can happen before the first released worker exits; `SecondReleaseBeforeFirstExit` proves this of the model.

## Model

| member | source | states |
|---|---|---|
| ServerError.Middleware | lib/http-server/error.js:24-42 | a SyntaxError, and only a SyntaxError, is answered with BAD_REQUEST and `{error: true, message: "Invalid JSON"}`; anything else goes to `next()` |
| ServerError.NotFound | lib/http-server/error.js:50-65 | NOT_FOUND with "Not found", or "Not found, " followed by the custom error when one is set |
| ServerError.HandleError | lib/http-server/error.js:74-84 | INTERNAL_ERROR with "Internal server error" whatever the error |
| ServerError.InternalServerError | lib/http-server/error.js:93-103 | INTERNAL_ERROR with the error's message when there is an error with a non-empty message, else the default message |
| ServerError.BadRequest | lib/http-server/error.js:111-121 | BAD_REQUEST with the given message, or "Bad request" when it is empty |
| LegacyServerError.NotFound | server/http-server/error.js:21-33 | NOT_FOUND with the given message, or "Not found" when it is empty |
| LegacyServerError.HandleError | server/http-server/error.js:42-53 | INTERNAL_ERROR with "Internal server error" whether or not there is an error |
| LegacyServerError.Middleware | server/http-server/error.js:65-83 | a SyntaxError, and only one, becomes BAD_REQUEST "Invalid JSON"; anything else goes to `next()` |
| LegacyServerError.InternalServerError | server/http-server/error.js:91-102 | the error's message when present, else "Internal server error" |
| LegacyServerError.BadRequest | server/http-server/error.js:110-120 | the given message, or "Bad request" |
| LegacyServerError.VariantsAgree | server/http-server/error.js:21-53 | both tables give the same reply for every error, except `notFound` with a non-empty message, where the older one drops the "Not found, " prefix |
| RestRoute.SplitSlashed | lib/http-server/api-handlers/api-rest-handler.js:23 | a text that starts with `/` is cut at its slashes into parts with no slash, and joining them back with slashes gives the text again |
| RestRoute.SplitSlashedRoundTrip | lib/http-server/api-handlers/api-rest-handler.js:23 | cutting parts that have no slash, after joining them with slashes, gives the same parts back |
| RestRoute.ParseParts | lib/http-server/api-handlers/api-rest-handler.js:23 | a successful parse of the parts yields valid name/id segments whose parts are exactly the input |
| RestRoute.ParsePartsComplete | lib/http-server/api-handlers/api-rest-handler.js:23 | every list of valid segments is parsed back from its own parts |
| RestRoute.Route | lib/http-server/api-handlers/api-rest-handler.js:22-24 | a match captures the path with its first four characters (`/api` in any case) removed |
| RestRoute.RouteComplete | lib/http-server/api-handlers/api-rest-handler.js:23 | every `/api` (in any case) followed by one or more segments `/name` or `/name/id` matches, and the capture is those segments |
| RestRoute.Segments | lib/http-server/api-handlers/api-rest-handler.js:23 | a matching path has a non-empty list of valid segments that renders to its capture |
| RestRoute.RouteSound | lib/http-server/api-handlers/api-rest-handler.js:23 | every matching path is `/api` in some case followed by the rendering of its segments |
| RestRoute.RouteShape | lib/http-server/api-handlers/api-rest-handler.js:23 | a matching path is longer than `/api/`, never ends in `/` and has no empty segment |
| RestRoute.RouteFirstSegment | lib/http-server/api-handlers/api-rest-handler.js:23 | the first segment of a matching path is a non-empty name (letters and `-`, so no digit) |
| GracefulSpec.ResolveSignal | server/graceful.js:55-62 | the restart signal is always SIGUSR1 or SIGUSR2, and SIGUSR1 exactly when it was given as SIGUSR1 |
| GracefulSpec.Fork | server/graceful.js:201-214 | a fork adds one fresh pid at the end of `cluster.workers` and of the workers that have not exited, logs the fork, advances the next pid and raises `currentWorkersCount` by one, changes no other field, and keeps the bookkeeping invariant |
| GracefulSpec.ForkMany | server/graceful.js:65-66 | the fork loop adds `workersCount` fresh consecutive pids (none when it is 0 or less) and changes nothing else |
| GracefulSpec.StartMaster | server/graceful.js:53-66 | a master starts with an empty queue, no kill flag, no listener counted, and exactly `workersCount` (at least 0) workers, all of them in `cluster.workers` |
| GracefulSpec.DisconnectWorker | server/graceful.js:232-234 | the send, then the disconnect; only the log and `cluster.workers` change, and the worker leaves `cluster.workers` exactly when both go through |
| GracefulSpec.CheckRestartQueue | server/graceful.js:216-245 | the gate (a non-empty queue and listening == workersCount); only the head is popped, even when the send fails; only the queue, `cluster.workers` and the log change; a popped pid that is not in `cluster.workers` throws; a release that goes through takes the worker out of `cluster.workers`, and nothing else does; an ESRCH from the send or the disconnect is swallowed and any other error code escapes as that code, the log keeping what went through |
| GracefulSpec.DisconnectAll | server/graceful.js:77-83 | only an OS error can escape; only the log and `cluster.workers` change; the log only grows, by sends and disconnects to these workers |
| GracefulSpec.DisconnectAllSucceeds | server/graceful.js:77-83 | with every reply ok, every worker is sent the disconnect message and then disconnected, in order, and nothing escapes |
| GracefulSpec.DisconnectAllSucceedsWorkers | server/graceful.js:77-83 | with every reply ok, exactly the workers of the loop leave `cluster.workers` |
| GracefulSpec.DisconnectAllStops | server/graceful.js:77-83 | the first worker whose send or disconnect fails stops the loop: the workers before it are fully disconnected, it was sent the message only if the send went through, and its error escapes |
| GracefulSpec.DisconnectAllStopsWorkers | server/graceful.js:77-83 | when the loop stops at a failing worker, exactly the workers before it have left `cluster.workers` |
| GracefulSpec.DisconnectAllShrinks | server/graceful.js:77-83 | the loop only takes pids out of `cluster.workers`, which stays free of duplicates |
| GracefulSpec.OnSigint | server/graceful.js:72-85 | SIGINT sets the kill flag and changes nothing but it, `cluster.workers` and the log |
| GracefulSpec.OnExit | server/graceful.js:123-146 | the pid leaves `cluster.workers` and the workers that have not exited; an exit lowers the listening count whether or not the worker listened; without a kill it forks one replacement; with a kill it ends the master when the last worker exits |
| GracefulProperties.StepKeepsInv | server/graceful.js:111-146 | every event keeps the pids of the workers that have not exited distinct and fresh, `cluster.workers` among them and free of duplicates, and `currentWorkersCount` equal to their number |
| GracefulProperties.RunKeepsInv | server/graceful.js:53-147 | the same holds after any run of events |
| GracefulProperties.ExitKeepsInv | server/graceful.js:123-132 | an exit keeps the bookkeeping invariant |
| GracefulProperties.DisconnectKeepsInv | server/graceful.js:232-234 | a send and disconnect keeps the bookkeeping invariant |
| GracefulProperties.CheckKeepsInv | server/graceful.js:216-245 | a `checkRestartQueue` call keeps the bookkeeping invariant |
| GracefulProperties.SigintKeepsInv | server/graceful.js:72-85 | the SIGINT listener keeps the bookkeeping invariant |
| GracefulProperties.SignalKeepsInv | server/graceful.js:68-109 | every signal keeps the bookkeeping invariant |
| GracefulProperties.StepAfterKill | server/graceful.js:131-132 | once the kill flag is set, no event clears it or forks |
| GracefulProperties.NoForkAfterKill | server/graceful.js:129-132 | after SIGINT no run of events forks a replacement, and the flag stays set |
| GracefulProperties.ExitForksReplacement | server/graceful.js:129-132 | without a kill, every exit forks exactly one replacement, which joins `cluster.workers`, and the number of workers that have not exited is restored |
| GracefulProperties.NoneRunningNoWorkers | server/graceful.js:136-139 | once every worker has exited, `cluster.workers` is empty |
| GracefulProperties.LastExitEndsMaster | server/graceful.js:136-145 | after a kill, once every worker has exited (and `cluster.workers` is empty), the master ends with `process.exit(0)`, or with a self SIGUSR2 under nodemon |
| GracefulProperties.SigintDisconnectsEveryWorker | server/graceful.js:72-85 | SIGINT with every reply ok disconnects every worker of `cluster.workers` in order and empties it, while none of them has exited yet; the queue is left alone |
| GracefulProperties.DisconnectOwnWorkers | server/graceful.js:77-83 | disconnecting every worker of `cluster.workers` with every reply ok empties it |
| GracefulProperties.StepQueue | server/graceful.js:216-220 | each event appends to the back of the queue, then takes at most one pid from the front, and only when the gate is open |
| GracefulProperties.RunQueue | server/graceful.js:201-245 | the queue is first in, first out over any run: everything pushed, minus as many pids from the front as were released |
| GracefulProperties.MessageKeepsQueueDistinct | server/graceful.js:206-211 | a worker's restart request never puts a pid in the queue twice |
| GracefulProperties.RestartSignalDuplicates | server/graceful.js:92-93 | the restart signal does not deduplicate, so a worker that is already queued ends up queued twice |
| GracefulProperties.RestartSignalReleases | server/graceful.js:88-96 | with every worker listening, a restart signal queues `cluster.workers` and pops the head: a pid still in `cluster.workers` is released and, when its send and disconnect go through, leaves it; any other head ends the master |
| GracefulProperties.ReleaseFirstWorker | server/graceful.js:216-234 | a restart signal whose queue starts with the first worker of `cluster.workers` releases it, and it leaves `cluster.workers` |
| GracefulProperties.SecondReleaseBeforeFirstExit | server/graceful.js:216-234 | with every worker listening, two restart signals release the first two workers of `cluster.workers`, which leave it, before either exits; the log shows both sends and disconnects, in order |
| GracefulProperties.ThirdRestartSignalEndsMaster | server/graceful.js:216-232 | with two workers, both listening, and every reply ok, the third restart signal in a row pops the pid of a worker the second signal already released, `worker` is `undefined`, and the TypeError ends the master |
| GracefulProperties.QueuedCrashEndsMaster | server/graceful.js:222-243 | a queued worker that crashes is popped later as `undefined`, and the TypeError ends the master |
| GracefulProperties.EarlyExitStallsRestarts | server/graceful.js:123-125 | a worker that dies before it listens leaves the listening count one short, so later restarts are only queued |
| GracefulProperties.StartOneWorker | server/graceful.js:53-66 | a master configured for one worker starts with that worker alone, counted, and nothing listening |
| GracefulProperties.EarlyExitReplaced | server/graceful.js:123-132 | the only worker exits before it listens: it is replaced and the listening count drops to -1 |
| GracefulProperties.ReplacementListens | server/graceful.js:114-118 | with an empty queue, a listening event raises the count and releases nothing |
| GracefulProperties.RestartSignalOnlyQueues | server/graceful.js:88-96 | with the listening count short of `workersCount`, a restart signal queues the workers and releases none |
| Graceful.GracefulCluster.constructor | server/graceful.js:36-41 | an empty queue, no kill flag, both counters at 0 |
| Graceful.GracefulCluster.Start | server/graceful.js:43-66 | a master resolves its signal and forks `workersCount` workers, as StartMaster; a worker only narrows its options |
| Graceful.GracefulCluster.ForkWorkers | server/graceful.js:65-66 | the fork loop moves the object as GracefulSpec.ForkMany: `n` more workers with consecutive fresh pids, none when `n` is 0 or less |
| Graceful.GracefulCluster.Fork | server/graceful.js:201-214 | the new state is GracefulSpec.Fork of the old |
| Graceful.GracefulCluster.FindWorker | server/graceful.js:222-227 | the loop finds a worker exactly when the popped value is the pid of a worker in `cluster.workers` |
| Graceful.GracefulCluster.SendDisconnect | server/graceful.js:232-234 | the new state and the result are those of GracefulSpec.DisconnectWorker: send, then disconnect, the first failure stopping the attempt; a worker whose disconnect goes through leaves `cluster.workers` |
| Graceful.GracefulCluster.CheckRestartQueue | server/graceful.js:216-245 | the new state and the completion are those of GracefulSpec.CheckRestartQueue |
| Graceful.GracefulCluster.OnSigint | server/graceful.js:72-85 | the `forEach` over a snapshot of `cluster.workers` has the effect of GracefulSpec.OnSigint |
| Graceful.GracefulCluster.OnRestartSignal | server/graceful.js:88-96 | the push loop queues the pid of every worker in `cluster.workers`, in order, then tries a release |
| Graceful.GracefulCluster.OnNodemonSignal | server/graceful.js:99-109 | sets the kill flag; the once-listener is gone |
| Graceful.GracefulCluster.OnSignal | server/graceful.js:68-109 | the listeners run in registration order, as GracefulSpec.OnSignal |
| Graceful.GracefulCluster.OnListening | server/graceful.js:114-118 | the listening count goes up by one, then a release is tried |
| Graceful.GracefulCluster.OnWorkerMessage | server/graceful.js:205-212 | a truthy, not yet queued restart request is queued and a release is tried |
| Graceful.GracefulCluster.OnExit | server/graceful.js:123-146 | the new state is GracefulSpec.OnExit of the old |
| Graceful.GracefulCluster.Handle | server/graceful.js:111-146 | one event moves the object as GracefulSpec.Step |
| Graceful.GracefulCluster.Replay | server/graceful.js:53-147 | a sequence of events moves the object as GracefulSpec.Run, stopping at the first handler that throws |
| GracefulWorker.WorkerOptions | server/graceful.js:154-155 | only the two self-restart options change, and with more than one worker nothing changes |
| GracefulWorker.MemoryTick | server/graceful.js:172-187 | a restart request with the worker's own pid exactly when the memory limit is set and strictly exceeded |
| GracefulWorker.TimeoutTick | server/graceful.js:189-197 | a restart request on every tick exactly when the timer is set |
| GracefulWorker.OnWorkerEvent | server/graceful.js:157-169 | SIGINT ends a running worker exactly when graceful restarts are off; a message never ends it; the hook runs exactly on a disconnect message, and only when it is a function; nothing reaches an ended worker |
| GracefulWorker.WorkerEndsOnlyBySigint | server/graceful.js:157-169 | over any sequence of events, a worker ends exactly when graceful restarts are off and a SIGINT comes; with them on, nothing the worker receives ends it |
| GracefulWorker.HookRunsPerDisconnect | server/graceful.js:162-169 | while the worker runs, the hook runs once per disconnect message when it is a function, and never otherwise |
| GracefulWorker.HookNeverRuns | server/graceful.js:167-168 | without an `onDisconnect` function, no sequence of events runs the hook |
| GracefulWorker.WorkerListenersFollowOptions | server/graceful.js:151-169 | narrowing the options does not change how a worker reacts to SIGINT and to messages |
| GracefulWorker.SingleWorkerNeverSelfRestarts | server/graceful.js:151-155 | with one worker or fewer, no tick ever asks for a restart |
| GracefulWorker.RequestQueuedOnce | server/graceful.js:206-211 | a request from a worker that is not queued is queued; the same request repeated while it waits changes nothing |
| Close.ShutdownStep | lib/http-server/close.js:29-33 | shutdown sets the flag and starts one more close, carrying the callback |
| Close.CloseDone | lib/http-server/close.js:33-39 | a completed close schedules its callback with the close's error, and schedules nothing without a callback |
| Close.RunTick | lib/http-server/close.js:35-37 | a tick runs the oldest scheduled callback |
| Close.ShutdownServer.constructor | lib/http-server/close.js:10-12 | no shutdown requested, nothing pending |
| Close.ShutdownServer.OnRequest | lib/http-server/close.js:14-17 | `Connection: close` is set exactly when a shutdown was requested and the headers are not sent; otherwise the headers are untouched |
| Close.ShutdownServer.OnFinish | lib/http-server/close.js:22-26 | the request's socket is destroyed exactly when a shutdown was requested by then |
| Close.ShutdownServer.Shutdown | lib/http-server/close.js:29-40 | the state moves as ShutdownStep |
| Close.ShutdownServer.CloseCompleted | lib/http-server/close.js:33-39 | the state moves as CloseDone |
| Close.ShutdownServer.Tick | lib/http-server/close.js:35-37 | the state moves as RunTick |
| CloseProperties.FlagSticky | lib/http-server/close.js:31 | once set, the shutdown flag stays set over any trace |
| CloseProperties.QuietBeforeShutdown | lib/http-server/close.js:12-27 | until shutdown, no header is overridden, no socket is destroyed, and no close or callback is pending |
| CloseProperties.IdleSocketsSurvive | lib/http-server/close.js:14-27 | over any trace the sockets destroyed are exactly those of the requests that finish while the shutdown flag is set, so an idle keep-alive socket is never destroyed |
| CloseProperties.KeepAliveSocketSurvives | lib/http-server/close.js:22-26 | a socket whose only request finished before `shutdown` is still open after it |
| CloseProperties.InFlightRequestDestroyed | lib/http-server/close.js:22-25 | a request that finishes after shutdown, even one that arrived before it, has its socket destroyed |
| CloseProperties.CallbacksFollowCloses | lib/http-server/close.js:29-40 | closes complete in shutdown order; each callback is scheduled only after its close completes and is called with that close's error, in order; a shutdown without a callback schedules nothing |
| CloseProperties.CalledOnlyOnTick | lib/http-server/close.js:35-37 | no event other than a tick calls a callback |
| ServerMain.WorkersCount | lib/index.js:64-67 | `-w` when given; otherwise the number of CPUs minus one when that is not 0; otherwise 1 |
| ServerMain.WorkersCountCases | lib/index.js:66 | with at least one CPU, an absent or positive `-w` gives at least 1; no `-w` and no CPU gives -1, and then the supervisor forks no worker at all |
| ServerMain.HandleMessages | lib/index.js:131-144 | a listener is registered exactly in a cluster worker |
| ServerMain.StartupRoles | lib/index.js:29-47 | the master writes its pid file, then starts the supervisor with the computed count, and never serves HTTP; a worker never starts a supervisor, listens to the master, and starts its HTTP server last |
| ServerMain.ConfigChoosesOneMechanism | lib/index.js:86-97 | exactly one of graceful restarts (in production) and nodemon is on; the signal is SIGUSR2; self restarts are off |
| ServerMain.WorkerSignals | lib/index.js:100-144 | a worker stays alive exactly while no SIGINT, SIGUSR2 or disconnect message has come; the first of them decides the end: SIGINT kills it, SIGUSR2 exits it with 0 outside production and kills it in production, a disconnect message exits it with 0 |
| ServerMain.EndedStaysEnded | lib/index.js:118-123 | once a worker has ended, no later event changes anything |
| ServerMain.ProductionWorkerKilledBySigint | lib/index.js:33-46 | a production worker registers neither the supervisor nor a SIGUSR2 listener, so SIGINT and SIGUSR2 both kill it |
| ServerMain.Server.constructor | lib/index.js:29-47 | the count and the start-up actions are WorkersCount and StartupActions |
| ServerMain.Server.Shutdown | lib/index.js:118-123 | the worker exits with code 0 |
| ServerMain.Server.OnMasterMessage | lib/index.js:136-143 | a disconnect message, and only that, ends the worker with code 0 |
| ApiHandler.PackageName | lib/http-server/api-handlers/api-handler.js:55-58 | the package of the dispatcher type, or "undefined" for a type with no entry |
| ApiHandler.TryLoad | lib/http-server/api-handlers/api-handler.js:54-55 | a type with no entry always fails to load, whatever the package would give; a known type gets the load's outcome |
| ApiHandler.SetDispatcher | lib/http-server/api-handlers/api-handler.js:52-69 | a cached class passes at once; a failed load, or a type with no entry, is a 500 "not installed" (naming "undefined" for the latter), with the cache untouched; for a known type a loaded export is cached before the check; the call passes exactly when the cache is set or a known type loads a function |
| ApiHandler.UnknownTypeNeverPasses | lib/http-server/api-handlers/api-handler.js:52-59 | a handler whose type has no entry keeps an empty cache and answers every request with the 500 for the package "undefined" |
| ApiHandler.PassedOnceCached | lib/http-server/api-handlers/api-handler.js:53 | after one call passes, every later call passes without loading |
| ApiHandler.NonClassAcceptedNextTime | lib/http-server/api-handlers/api-handler.js:56-65 | for a type with an entry, a truthy export that is not a class is refused once with a 500 and then accepted by every later call |
| ApiHandler.Handler.SetDispatcherMiddleware | lib/http-server/api-handlers/api-handler.js:52-69 | the cache and the outcome are those of SetDispatcher |
| ApiHandler.StatusCode | lib/http-server/api-handlers/api-handler.js:77 | the response's code when it is not 0, else 200 |
| ApiHandler.DispatchApi | lib/http-server/api-handlers/api-handler.js:71-93 | a rejected `dispatch()` rejects with its error and `null` with a TypeError, and nothing else rejects; otherwise the reply has the normalised status, headers and body; `error: true` exactly from 400 up; a non-empty message overrides; all other keys are kept |
| ApiHandler.NonObjectIsEmptyReply | lib/http-server/api-handlers/api-handler.js:73-74 | a result that is not an object is answered with 200, no headers and `{}` |
| ApiRestHandler.ValidationEnabled | lib/http-server/api-handlers/api-rest-handler.js:58-60 | validation runs unless `validateApiSchemas` is exactly `false` |
| ApiRestHandler.SchemaValidator | lib/http-server/api-handlers/api-rest-handler.js:43-54 | a cached validator is returned as is; otherwise the module is loaded and cached, or the "not installed" error is thrown |
| ApiRestHandler.ValidateSchema | lib/http-server/api-handlers/api-rest-handler.js:56-79 | off: `next()`; a load or constructor failure: 500; a failed `validate()`: 404 "Not found, " plus its message; `next()` exactly when validation is off or everything succeeds |
| ApiRestHandler.ValidatorLoadedOnce | lib/http-server/api-handlers/api-rest-handler.js:45-50 | after the validator is cached, later calls do not depend on loading |
| ApiRestHandler.RestHandler.ValidateSchemaMiddleware | lib/http-server/api-handlers/api-rest-handler.js:56-79 | the cache and the outcome are those of ValidateSchema |
| ApiRestHandler.DispatchArgs | lib/http-server/api-handlers/api-rest-handler.js:91-97 | the endpoint is the route's capture (the rendering of the path's segments), the method is lower-cased (no upper-case letter is left), and the data is the query for GET and the body otherwise |
| ApiRestHandler.Dispatch | lib/http-server/api-handlers/api-rest-handler.js:87-100 | a cached value that is not a class rejects with a TypeError; a constructor that throws rejects with its error; otherwise the reply is dispatchApi of the dispatcher's result, and only then is a reply sent |
| ApiRestHandler.NonClassDispatcherRejects | lib/http-server/api-handlers/api-rest-handler.js:91 | a truthy non-class export passes the middleware on the next request, and that request's dispatch throws |
| LegacyApiHandler.GetDispatcher | http-server/api-handlers/api-handler.js:29-36 | the loaded module; or a 500 with "Package X not installed.\nPlease run: npm install X", after which `undefined` is returned |
| LegacyApiHandler.LegacyDispatchApi | http-server/api-handlers/api-handler.js:38-56 | the same rejections and the same normalisation, but the body's `error` is never touched |
| LegacyApiHandler.DispatchVariantsAgree | http-server/api-handlers/api-handler.js:38-56 | the two dispatchApi variants send the same reply, except that the newer one adds `error: true` from 400 up |
| LegacyApiRestHandler.Handler | http-server/api-handlers/api-rest-handler.js:21-34 | the chain always ends with validation then dispatch and holds no falsy entry; with a truthy `cors` and no `corsMiddleware`, building it throws a TypeError |
| LegacyApiRestHandler.ValidateSchema | http-server/api-handlers/api-rest-handler.js:36-53 | always runs: a constructor failure is a 500; a failed `validate()` is a 404 with its message; `next()` exactly when both succeed |
| LegacyApiRestHandler.ValidationVariantsAgree | http-server/api-handlers/api-rest-handler.js:36-53 | with validation on, the two variants agree except on the 404 message |
| LegacyApiRestHandler.LegacyDispatch | http-server/api-handlers/api-rest-handler.js:61-76 | a missing package sends the 500 and then rejects with a TypeError; an export that is not a class sends nothing and rejects with a TypeError; a constructor that throws sends nothing and rejects with its error; a class gives the outcome of the older dispatchApi |
| LegacyApiRestHandler.DispatchersAgree | http-server/api-handlers/api-rest-handler.js:61-76 | for a loaded class, the older dispatch rejects exactly when the newer one does, with the same error and nothing sent, and otherwise sends one reply with the same status and headers |

## Left out

- **Processes, signals, IPC, timers, memory probes, the pid file, `process.exit`/`process.kill` and logging.**
  - These are not executed.
  - Signals and worker events are inputs.
  - The outcome of each `send`/`disconnect` and each load of a package or call to a plugin comes in as a parameter.
  - The effects are recorded in a log.
- **When Node removes a worker from `cluster.workers`.** The master's `worker.disconnect()` removes it at once, and its exit removes any worker still there. The model does both, but it takes a `disconnect()` that fails as leaving the worker in place.
- **The 'fork' event.** It is merged into `fork()`. The counter it raises is read by no handler that could run in between.
- **The default action of a signal nobody in the master listens to.** It is reported as `NoListener` and nothing more.
- **How a worker ends after a disconnect.** `ServerMain.WorkerLife` exits it on the master's message. Node's own handling of the closed IPC channel is not modelled.
- **The default action of a signal nobody in a worker listens to.** It is taken to end the worker at once (`KilledBy`), as Node's default for SIGINT and SIGUSR2 does.
- **Non-numeric arguments.**
  - A `-w` that is not a number is not modelled.
  - A falsy option such as `false` or `undefined` is written 0.
  - Numbers are integers. JSON key order is not kept, and bodies are maps.
- **Aliasing of the body object.**
  - ApiHandler.DispatchApi: `dispatchApi` sets `error` and `message` on the dispatcher's own body object. The model builds a new body, so a dispatcher that keeps a reference to its body object does not see the change.
  - A truthy body that is not an object (a string, say) is not modelled.
- **The lib `APIRestHandler` chain.** `handler()` binds `authorizeRequest`, which no class of this version defines. Its middlewares are modelled one by one and the chain is not.
- **`corsMiddleware` of the lib `APIHandler`.** Its result is discarded, so it has no reply to model.
- **The `./codes` status table.** It is not part of this model, so the three named statuses stay abstract.
- **Other files, not part of this model:**
  - the view handlers;
  - the Express assembly in both `http-server/index.js` files;
  - server/index.js;
  - the lib `./graceful` module, whose behaviour is taken to be that of server/graceful.js.
- **http-server/error.js.** The older handlers load `./../error`, which resolves to http-server/error.js. That file is not part of this model; `LegacyServerError` follows server/http-server/error.js, taken to be the same table.
- **Worker-side supervisor settings under lib/index.js.** The supervisor is only started on the master.
