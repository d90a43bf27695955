/** `enableShutdown(server)` of lib/http-server/close.js: draining keep-alive
    connections when the HTTP server is closed.

    `ShutdownServer` holds the closure state (`shutdownRequested`) together
    with the parts of Node it drives: the `server.close` calls still in
    progress and the `process.nextTick` queue. Responses and sockets are
    objects the listeners change in place. The functions below give the
    same behaviour over values, and over whole traces of events. */
module Close {
  import opened Js

  type CallbackId = nat
  type RequestId = nat
  type SocketId = nat

  /** The 'request' listener overrides keep-alive exactly when a shutdown
      was requested and the headers are not sent yet. */
  predicate ClosesConnection(shutdownRequested: bool, headersSent: bool)
  {
    shutdownRequested && !headersSent
  }

  /** The 'finish' listener destroys the request's socket exactly when a
      shutdown was requested by then. */
  predicate DestroysSocket(shutdownRequested: bool)
  {
    shutdownRequested
  }

  /** `callback(err)` */
  datatype Call = Call(callback: CallbackId, err: Value)

  /** The server-side state: the flag, the `server.close` calls not yet
      completed (each with the callback given to `shutdown`, oldest first),
      the deferred ticks, and the callbacks that have run. */
  datatype ServerState = ServerState(
    shutdownRequested: bool,
    closing: seq<Option<CallbackId>>,
    ticks: seq<Call>,
    called: seq<Call>)

  /** `server.shutdown(callback)`: the flag first, then `server.close`. */
  function ShutdownStep(s: ServerState, callback: Option<CallbackId>): (r: ServerState)
    ensures r.shutdownRequested && r.ticks == s.ticks && r.called == s.called
    ensures r.closing == s.closing + [callback]
  {
    s.(shutdownRequested := true, closing := s.closing + [callback])
  }

  /** The oldest `server.close` call completes with `err`: its callback, if
      any, is put on the tick queue with that error; nothing runs yet. */
  function CloseDone(s: ServerState, err: Value): (r: ServerState)
    requires s.closing != []
    ensures r.shutdownRequested == s.shutdownRequested && r.called == s.called
    ensures r.closing == s.closing[1..]
    ensures s.closing[0].None? ==> r.ticks == s.ticks
    ensures s.closing[0].Some? ==> r.ticks == s.ticks + [Call(s.closing[0].value, err)]
  {
    var pending := s.closing[0];
    s.(closing := s.closing[1..],
       ticks := if pending.Some? then s.ticks + [Call(pending.value, err)] else s.ticks)
  }

  /** The next tick runs the oldest deferred callback. */
  function RunTick(s: ServerState): (r: ServerState)
    requires s.ticks != []
    ensures r.called == s.called + [s.ticks[0]] && r.ticks == s.ticks[1..]
    ensures r.shutdownRequested == s.shutdownRequested && r.closing == s.closing
  {
    s.(ticks := s.ticks[1..], called := s.called + [s.ticks[0]])
  }

  class Socket {
    var destroyed: bool

    constructor ()
      ensures !destroyed
    {
      destroyed := false;
    }

    method Destroy()
      modifies this
      ensures destroyed
    {
      destroyed := true;
    }
  }

  class Request {
    const socket: Socket

    constructor (socket: Socket)
      ensures this.socket == socket
    {
      this.socket := socket;
    }
  }

  class Response {
    var headersSent: bool
    var headers: map<string, string>

    constructor (headersSent: bool, headers: map<string, string>)
      ensures this.headersSent == headersSent && this.headers == headers
    {
      this.headersSent := headersSent;
      this.headers := headers;
    }

    method SetHeader(name: string, value: string)
      modifies this
      ensures headers == old(headers)[name := value] && headersSent == old(headersSent)
    {
      headers := headers[name := value];
    }
  }

  class ShutdownServer {
    var shutdownRequested: bool
    var closing: seq<Option<CallbackId>>
    var ticks: seq<Call>
    var called: seq<Call>

    ghost function Model(): ServerState
      reads this
    {
      ServerState(shutdownRequested, closing, ticks, called)
    }

    /** `enableShutdown(server)` */
    constructor ()
      ensures Model() == ServerState(false, [], [], [])
    {
      shutdownRequested := false;
      closing := [];
      ticks := [];
      called := [];
    }

    /** The 'request' listener. */
    method OnRequest(req: Request, res: Response)
      modifies res
      ensures res.headersSent == old(res.headersSent)
      ensures ClosesConnection(shutdownRequested, old(res.headersSent)) ==>
        res.headers == old(res.headers)["Connection" := "close"]
      ensures !ClosesConnection(shutdownRequested, old(res.headersSent)) ==> res.headers == old(res.headers)
    {
      if shutdownRequested && !res.headersSent {
        res.SetHeader("Connection", "close");
      }
    }

    /** The 'finish' listener attached to each response. */
    method OnFinish(req: Request)
      modifies req.socket
      ensures req.socket.destroyed == (old(req.socket.destroyed) || DestroysSocket(shutdownRequested))
    {
      if shutdownRequested {
        req.socket.Destroy();
      }
    }

    /** `server.shutdown(callback)` */
    method Shutdown(callback: Option<CallbackId>)
      modifies this
      ensures Model() == ShutdownStep(old(Model()), callback)
    {
      shutdownRequested := true;
      closing := closing + [callback];
    }

    /** Node completes the oldest `server.close` call with `err`. */
    method CloseCompleted(err: Value)
      requires closing != []
      modifies this
      ensures Model() == CloseDone(old(Model()), err)
    {
      var callback := closing[0];
      closing := closing[1..];
      if callback.Some? {
        ticks := ticks + [Call(callback.value, err)];
      }
    }

    /** Node runs the next `process.nextTick` callback. */
    method Tick()
      requires ticks != []
      modifies this
      ensures Model() == RunTick(old(Model()))
    {
      called := called + [ticks[0]];
      ticks := ticks[1..];
    }
  }

  // ---- whole traces ----

  datatype Event =
    | RequestArrives(id: RequestId, socket: SocketId, headersSent: bool)
    | Finish(id: RequestId)
    | ShutdownCalled(callback: Option<CallbackId>)
    | CloseCompletes(err: Value)
    | TickRuns

  /** A server plus what its listeners have done to requests and sockets. */
  datatype World = World(
    server: ServerState,
    sockets: map<RequestId, SocketId>,    // request.socket of each request seen
    closeHeader: set<RequestId>,          // responses given `Connection: close`
    finished: set<RequestId>,
    destroyed: set<SocketId>)

  const Init := World(ServerState(false, [], [], []), map[], {}, {}, {})

  /** Node's side of the bargain: request ids are fresh, only a seen request
      finishes, close completes only when called, ticks only when queued. */
  predicate Admissible(w: World, e: Event)
  {
    match e
    case RequestArrives(id, _, _) => id !in w.sockets
    case Finish(id) => id in w.sockets
    case ShutdownCalled(_) => true
    case CloseCompletes(_) => w.server.closing != []
    case TickRuns => w.server.ticks != []
  }

  function Step(w: World, e: Event): World
    requires Admissible(w, e)
  {
    match e
    case RequestArrives(id, socket, sent) =>
      w.(sockets := w.sockets[id := socket],
         closeHeader := if ClosesConnection(w.server.shutdownRequested, sent) then w.closeHeader + {id} else w.closeHeader)
    case Finish(id) =>
      w.(finished := w.finished + {id},
         destroyed := if DestroysSocket(w.server.shutdownRequested) then w.destroyed + {w.sockets[id]} else w.destroyed)
    case ShutdownCalled(callback) => w.(server := ShutdownStep(w.server, callback))
    case CloseCompletes(err) => w.(server := CloseDone(w.server, err))
    case TickRuns => w.(server := RunTick(w.server))
  }

  predicate AdmissibleRun(w: World, es: seq<Event>)
    decreases |es|
  {
    es == [] || (Admissible(w, es[0]) && AdmissibleRun(Step(w, es[0]), es[1..]))
  }

  function Run(w: World, es: seq<Event>): World
    requires AdmissibleRun(w, es)
    decreases |es|
  {
    if es == [] then w else Run(Step(w, es[0]), es[1..])
  }
}
