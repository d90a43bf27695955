/** The `Server` class of lib/index.js: how many workers to run, how the
    supervisor is configured, and what the master and the workers each set
    up at start. The file write, the listener registrations, the HTTP server
    and `process.exit` are recorded as actions, in order. */
module ServerMain {
  import opened Js
  import GracefulSpec

  /** `argv.w || os.cpus().length - 1 || 1`; an absent `-w` is 0. */
  function WorkersCount(w: int, cpus: nat): (r: int)
    ensures w != 0 ==> r == w
    ensures w == 0 && cpus != 1 ==> r == cpus - 1
    ensures w == 0 && cpus == 1 ==> r == 1
  {
    Or(Number(w), Or(Number(cpus - 1), Number(1))).n
  }

  /** The options `handleGracefulRestart` passes to the supervisor:
      self restarts off, SIGUSR2 as the restart signal, graceful restarts in
      production and nodemon's restarts everywhere else. */
  function GracefulConfig(isProduction: bool, workersCount: int): GracefulSpec.Options
  {
    GracefulSpec.Options(
      signal := Str("SIGUSR2"),
      workersCount := workersCount,
      shouldRestart := isProduction,
      nodemon := !isProduction,
      restartOnMemory := 0,
      restartOnTimeout := 0,
      onDisconnect := Undefined)
  }

  /** What the process sees when `new Server(options)` runs. */
  datatype Env = Env(isMaster: bool, isProduction: bool, w: int, cpus: nat, pid: int)

  datatype Action =
    | WritePidFile(pid: int)                        // fs.writeFileSync(.pid, process.pid)
    | StartSupervisor(options: GracefulSpec.Options) // GracefulCluster.start(...)
    | ShutdownOnSigusr2                             // process.once('SIGUSR2', shutdown)
    | ListenToMaster                                // process.on('message', ...)
    | StartHttpServer                               // new HTTPServer(options).start()
    | Exit(code: int)                               // process.exit(code)

  /** `handleMessages()`: a listener only in a cluster worker. */
  function HandleMessages(isWorker: bool): (r: seq<Action>)
    ensures r == [] <==> !isWorker
  {
    if isWorker then [ListenToMaster] else []
  }

  /** `handleWorkerShutdown()`: outside production a worker leaves on the
      SIGUSR2 nodemon sends. */
  function HandleWorkerShutdown(isProduction: bool): seq<Action>
  {
    if isProduction then [] else [ShutdownOnSigusr2]
  }

  /** Everything the constructor sets up, in order. */
  function StartupActions(env: Env): seq<Action>
  {
    if env.isMaster then
      [WritePidFile(env.pid), StartSupervisor(GracefulConfig(env.isProduction, WorkersCount(env.w, env.cpus)))]
    else
      HandleWorkerShutdown(env.isProduction) + HandleMessages(!env.isMaster) + [StartHttpServer]
  }

  /** The master writes its pid file, then starts the supervisor with the
      computed worker count, and never serves HTTP itself; a worker never
      starts a supervisor and always starts exactly one HTTP server, last. */
  lemma StartupRoles(env: Env)
    ensures env.isMaster ==>
      StartupActions(env) == [WritePidFile(env.pid), StartSupervisor(GracefulConfig(env.isProduction, WorkersCount(env.w, env.cpus)))]
    ensures env.isMaster ==> StartHttpServer !in StartupActions(env)
    ensures !env.isMaster ==> StartupActions(env)[|StartupActions(env)| - 1] == StartHttpServer
    ensures !env.isMaster ==> ListenToMaster in StartupActions(env)
    ensures !env.isMaster ==> forall a :: a in StartupActions(env) ==> !a.StartSupervisor?
  {
  }

  /** Exactly one restart mechanism is on: the supervisor's graceful
      restarts in production, nodemon's otherwise; and with the SIGUSR2
      signal given, the supervisor restarts on SIGUSR2. */
  lemma ConfigChoosesOneMechanism(isProduction: bool, workersCount: int)
    ensures var o := GracefulConfig(isProduction, workersCount);
      && o.shouldRestart != o.nodemon && o.shouldRestart == isProduction
      && GracefulSpec.ResolveSignal(o.signal) == "SIGUSR2"
      && o.restartOnMemory == 0 && o.restartOnTimeout == 0
  {
  }

  /** What reaches a worker process: a signal, or a message from the master. */
  datatype ProcessEvent = SigInt | SigUsr2 | FromMaster(msg: GracefulSpec.Message)

  /** Where a worker process stands: still running, ended by the default
      action of a signal nobody listens to, or ended by `process.exit`. */
  datatype Fate = Alive | KilledBy(signal: string) | ExitedWith(code: int)

  /** One event against the listeners a worker registered at start-up
      (`StartupActions`). A worker registers no SIGINT listener, since the
      supervisor and its worker-side listeners run only on the master's
      side of lib/index.js, so SIGINT takes Node's default action; SIGUSR2
      does too, unless `handleWorkerShutdown` listens for it. */
  function WorkerReact(env: Env, f: Fate, e: ProcessEvent): Fate
    requires !env.isMaster
  {
    var listeners := StartupActions(env);
    if !f.Alive? then f
    else match e
      case SigInt => KilledBy("SIGINT")
      case SigUsr2 => if ShutdownOnSigusr2 in listeners then ExitedWith(0) else KilledBy("SIGUSR2")
      case FromMaster(msg) => if ListenToMaster in listeners && msg.cmd == "disconnect" then ExitedWith(0) else f
  }

  /** A worker's fate after a sequence of events. */
  function WorkerLife(env: Env, f: Fate, es: seq<ProcessEvent>): Fate
    requires !env.isMaster
    decreases |es|
  {
    if es == [] then f else WorkerLife(env, WorkerReact(env, f, es[0]), es[1..])
  }

  /** The events that end a worker of lib/index.js. */
  predicate EndsWorker(e: ProcessEvent)
  {
    e.SigInt? || e.SigUsr2? || (e.FromMaster? && e.msg.cmd == "disconnect")
  }

  /** How such an event ends it: SIGINT by the signal, in every environment;
      SIGUSR2 by `shutdown()` outside production and by the signal in
      production; the master's disconnect message by `shutdown()`. */
  function EndOf(isProduction: bool, e: ProcessEvent): Fate
  {
    match e
      case SigInt => KilledBy("SIGINT")
      case SigUsr2 => if isProduction then KilledBy("SIGUSR2") else ExitedWith(0)
      case FromMaster(_) => ExitedWith(0)
  }

  /** Nothing reaches a worker that has ended. */
  lemma {:induction false} EndedStaysEnded(env: Env, f: Fate, es: seq<ProcessEvent>)
    requires !env.isMaster && !f.Alive?
    ensures WorkerLife(env, f, es) == f
    decreases |es|
  {
    if es != [] {
      EndedStaysEnded(env, f, es[1..]);
    }
  }

  /** A worker of lib/index.js, in production or not, outlives exactly the
      sequences without a SIGINT, a SIGUSR2 or a disconnect message from the
      master, and the first of these decides how it ends: SIGINT always
      kills it, SIGUSR2 exits it with 0 outside production and kills it in
      production, and a disconnect message exits it with 0. */
  lemma {:induction false} WorkerSignals(env: Env, es: seq<ProcessEvent>)
    requires !env.isMaster
    ensures WorkerLife(env, Alive, es).Alive? <==> forall i :: 0 <= i < |es| ==> !EndsWorker(es[i])
    ensures forall i :: 0 <= i < |es| && EndsWorker(es[i]) && (forall j :: 0 <= j < i ==> !EndsWorker(es[j])) ==>
      WorkerLife(env, Alive, es) == EndOf(env.isProduction, es[i])
    decreases |es|
  {
    if es != [] {
      if EndsWorker(es[0]) {
        assert WorkerReact(env, Alive, es[0]) == EndOf(env.isProduction, es[0]);
        EndedStaysEnded(env, EndOf(env.isProduction, es[0]), es[1..]);
      } else {
        assert WorkerReact(env, Alive, es[0]) == Alive;
        WorkerSignals(env, es[1..]);
        forall i | 1 <= i < |es|
          ensures es[1..][i - 1] == es[i]
        {
        }
        assert forall i :: 0 <= i < |es| && EndsWorker(es[i]) && (forall j :: 0 <= j < i ==> !EndsWorker(es[j])) ==>
          (i > 0 && forall j :: 0 <= j < i - 1 ==> !EndsWorker(es[1..][j]));
      }
    }
  }

  /** A production worker is not shielded from SIGINT: the supervisor's
      no-op SIGINT listener is never registered in a worker of
      lib/index.js, so the signal ends it. */
  lemma ProductionWorkerKilledBySigint(env: Env)
    requires !env.isMaster && env.isProduction
    ensures WorkerLife(env, Alive, [SigInt]) == KilledBy("SIGINT")
    ensures WorkerLife(env, Alive, [SigUsr2]) == KilledBy("SIGUSR2")
    ensures forall a :: a in StartupActions(env) ==> !a.StartSupervisor? && !a.ShutdownOnSigusr2?
  {
    assert [SigInt][1..] == [] && [SigUsr2][1..] == [];
  }

  /** With `-w` given, or more than one CPU, the count is at least 1 for a
      positive `-w`; with no `-w` and no CPU reported, `-1 || 1` is -1 and
      the supervisor forks no worker at all. */
  lemma WorkersCountCases(w: int, cpus: nat, firstPid: GracefulSpec.Pid)
    requires firstPid > 0
    ensures w >= 0 && cpus >= 1 ==> WorkersCount(w, cpus) >= 1
    ensures w == 0 && cpus == 0 ==> WorkersCount(w, cpus) == -1
    ensures w == 0 && cpus == 0 ==> GracefulSpec.StartMaster(GracefulConfig(true, WorkersCount(w, cpus)), firstPid).workers == []
  {
  }

  class Server {
    var workersCount: int
    var actions: seq<Action>

    /** `new Server(options)` */
    constructor (env: Env)
      ensures workersCount == WorkersCount(env.w, env.cpus)
      ensures actions == StartupActions(env)
    {
      workersCount := WorkersCount(env.w, env.cpus);
      actions := [];
      new;
      if env.isMaster {
        actions := [WritePidFile(env.pid)];
        actions := actions + [StartSupervisor(GracefulConfig(env.isProduction, workersCount))];
      } else {
        actions := HandleWorkerShutdown(env.isProduction);
        actions := actions + HandleMessages(!env.isMaster);
        actions := actions + [StartHttpServer];
      }
    }

    /** `shutdown()` */
    method Shutdown()
      modifies this
      ensures actions == old(actions) + [Exit(0)] && workersCount == old(workersCount)
    {
      actions := actions + [Exit(0)];
    }

    /** The listener `handleMessages` registers: a `{cmd: 'disconnect'}`
        from the master ends the worker with code 0. */
    method OnMasterMessage(msg: GracefulSpec.Message)
      modifies this
      ensures msg.cmd == "disconnect" ==> actions == old(actions) + [Exit(0)]
      ensures msg.cmd != "disconnect" ==> actions == old(actions)
      ensures workersCount == old(workersCount)
    {
      if msg.cmd == "disconnect" {
        Shutdown();
      }
    }
  }
}
