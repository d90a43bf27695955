/** The `GracefulCluster` class of server/graceful.js, with the parts of
    Node's `cluster` module it touches (`cluster.workers`, the workers that
    have not exited, the pid the next fork gets, and the effects on workers
    and the process) as fields. Every handler is proved to move the object
    exactly as the matching function of GracefulSpec moves a `Cluster`. */
module Graceful {
  import opened Js
  import opened GracefulSpec
  import GracefulWorker

  /** One more pass of the fork loop is one more fork. */
  lemma ForkManyNext(c: Cluster, i: nat)
    requires Inv(c)
    ensures ForkMany(c, i + 1) == GracefulSpec.Fork(ForkMany(c, i))
  {
  }

  /** Each pass of the SIGINT loop disconnects one more worker. */
  lemma DisconnectAllStep(ws: seq<Pid>, i: nat, c: Cluster, os: Os)
    requires i < |ws|
    ensures DisconnectAll(ws[i..], c, os) ==
      var (c1, res) := DisconnectWorker(c, ws[i], os(ws[i]));
      if res.Failed? then (c1, Threw(OsFault(res.code))) else DisconnectAll(ws[i + 1..], c1, os)
  {
    assert ws[i..][1..] == ws[i + 1..];
  }

  class GracefulCluster {
    var options: Options
    var restartSignal: string
    var nodemonListening: bool
    var workers: seq<Pid>
    var running: seq<Pid>
    var nextPid: Pid
    var restartQueue: seq<Value>
    var killSignalReceived: bool
    var currentWorkersCount: int
    var listeningWorkersCount: int
    var log: seq<Effect>

    ghost function Model(): Cluster
      reads this
    {
      Cluster(options, restartSignal, nodemonListening, workers, running, nextPid, restartQueue,
              killSignalReceived, currentWorkersCount, listeningWorkersCount, log)
    }

    /** The state `new GracefulCluster()` leaves, before `start`. */
    predicate Fresh()
      reads this
    {
      workers == [] && running == [] && nextPid > 0 && restartQueue == [] && !killSignalReceived
      && currentWorkersCount == 0 && listeningWorkersCount == 0 && log == []
    }

    /** `firstPid` is the pid the OS will give the first fork. */
    constructor (firstPid: Pid)
      requires firstPid > 0
      ensures Fresh() && nextPid == firstPid
    {
      options := Options(Undefined, 0, false, false, 0, 0, Undefined);
      restartSignal := DEFAULT_SIGNAL;
      nodemonListening := false;
      workers := [];
      running := [];
      nextPid := firstPid;
      restartQueue := [];
      killSignalReceived := false;
      currentWorkersCount := 0;
      listeningWorkersCount := 0;
      log := [];
    }

    /** `start(options)`: the master resolves its restart signal and forks
        `workersCount` workers; a worker narrows its options. */
    method Start(opts: Options, isMaster: bool)
      requires Fresh()
      modifies this
      ensures isMaster ==> Model() == StartMaster(opts, old(nextPid))
      ensures !isMaster ==> Model() == old(Model()).(options := GracefulWorker.WorkerOptions(opts))
    {
      if isMaster {
        options := opts;
        var signal := Or(opts.signal, Str(DEFAULT_SIGNAL));
        if signal == Str("SIGUSR1") || signal == Str("SIGUSR2") {
          restartSignal := signal.s;
        } else {
          restartSignal := DEFAULT_SIGNAL;
        }
        nodemonListening := opts.nodemon;
        assert Model() == Cluster(opts, ResolveSignal(opts.signal), opts.nodemon, [], [], old(nextPid), [], false, 0, 0, []);
        ForkWorkers(opts.workersCount);
      } else {
        var narrowed := opts;
        if !(opts.workersCount > 1) {
          narrowed := narrowed.(restartOnMemory := 0, restartOnTimeout := 0);
        }
        options := narrowed;
      }
    }

    /** The loop of `startMaster` that forks `n` workers. */
    method ForkWorkers(n: int)
      requires Inv(Model())
      modifies this
      ensures Model() == ForkMany(old(Model()), n)
    {
      ghost var base := Model();
      var i := 0;
      while i < n
        invariant 0 <= i <= (if n <= 0 then 0 else n)
        invariant Model() == ForkMany(base, i)
        decreases n - i
      {
        ForkManyNext(base, i);
        Fork();
        i := i + 1;
      }
      if n <= 0 {
        assert ForkMany(base, n) == base;
      }
    }

    /** `fork()`: Node starts a worker and emits 'fork', which counts it. */
    method Fork()
      modifies this
      ensures Model() == GracefulSpec.Fork(old(Model()))
    {
      workers := workers + [nextPid];
      running := running + [nextPid];
      log := log + [Forked(nextPid)];
      currentWorkersCount := currentWorkersCount + 1;
      nextPid := nextPid + 1;
    }

    /** The `forEach` over `cluster.workers` that looks a popped pid up: the
        last worker whose pid is strictly equal to it. */
    method FindWorker(pid: Value) returns (found: bool, worker: Pid)
      ensures found <==> Live(Model(), pid)
      ensures found ==> pid == Number(worker)
    {
      found, worker := false, 0;
      for i := 0 to |workers|
        invariant found <==> exists j :: 0 <= j < i && pid == Number(workers[j])
        invariant found ==> pid == Number(worker)
      {
        if pid == Number(workers[i]) {
          found, worker := true, workers[i];
        }
      }
    }

    /** `worker.send({cmd: 'disconnect'})` then `worker.disconnect()`; a
        disconnect that goes through takes the worker out of `cluster.workers`. */
    method SendDisconnect(worker: Pid, reply: Reply) returns (res: OsResult)
      modifies this
      ensures (Model(), res) == DisconnectWorker(old(Model()), worker, reply)
    {
      if reply.send.Failed? {
        res := reply.send;
      } else {
        log := log + [SentDisconnect(worker)];
        if reply.disconnect.Failed? {
          res := reply.disconnect;
        } else {
          log := log + [Disconnected(worker)];
          assert log == old(log) + [SentDisconnect(worker), Disconnected(worker)];
          workers := Remove(workers, worker);
          res := Ok;
        }
      }
    }

    method CheckRestartQueue(os: Os) returns (k: Completion)
      modifies this
      ensures (Model(), k) == GracefulSpec.CheckRestartQueue(old(Model()), os)
    {
      k := Done;
      if |restartQueue| > 0 && listeningWorkersCount == options.workersCount {
        var pid := restartQueue[0];
        restartQueue := restartQueue[1..];
        var found, worker := FindWorker(pid);
        if !found {
          return Threw(NoSuchWorker(pid));
        }
        var res := SendDisconnect(worker, os(worker));
        if res.Failed? && res.code != ESRCH {
          k := Threw(OsFault(res.code));
        }
      }
    }

    /** The SIGINT listener. */
    method OnSigint(os: Os) returns (k: Completion)
      modifies this
      ensures (Model(), k) == GracefulSpec.OnSigint(old(Model()), os)
    {
      killSignalReceived := true;
      var ws := workers;
      var i := 0;
      while i < |ws|
        invariant 0 <= i <= |ws|
        invariant DisconnectAll(ws[i..], Model(), os) == GracefulSpec.OnSigint(old(Model()), os)
      {
        DisconnectAllStep(ws, i, Model(), os);
        var res := SendDisconnect(ws[i], os(ws[i]));
        if res.Failed? {
          return Threw(OsFault(res.code));
        }
        i := i + 1;
      }
      k := Done;
    }

    /** The restart-signal listener. */
    method OnRestartSignal(os: Os) returns (k: Completion)
      modifies this
      ensures (Model(), k) == GracefulSpec.OnRestartSignal(old(Model()), os)
    {
      var i := 0;
      while i < |workers|
        invariant 0 <= i <= |workers|
        invariant Model() == old(Model()).(restartQueue := restartQueue)
        invariant restartQueue == old(restartQueue) + AsValues(workers[..i])
      {
        assert AsValues(workers[..i + 1]) == AsValues(workers[..i]) + [Number(workers[i])];
        restartQueue := restartQueue + [Number(workers[i])];
        i := i + 1;
      }
      assert workers[..i] == workers;
      k := CheckRestartQueue(os);
    }

    /** The nodemon `process.once('SIGUSR2')` listener; it unregisters itself. */
    method OnNodemonSignal()
      modifies this
      ensures Model() == GracefulSpec.OnNodemonSignal(old(Model()))
    {
      killSignalReceived := true;
      nodemonListening := false;
    }

    /** A signal reaches the master: its listeners run in registration order
        (SIGINT, the restart signal, then nodemon's SIGUSR2). */
    method OnSignal(signal: string, os: Os) returns (k: Completion)
      modifies this
      ensures (Model(), k) == GracefulSpec.OnSignal(old(Model()), signal, os)
    {
      if options.shouldRestart && signal == "SIGINT" {
        k := OnSigint(os);
      } else if options.shouldRestart && signal == restartSignal {
        k := OnRestartSignal(os);
        if !k.Threw? && nodemonListening && signal == "SIGUSR2" {
          OnNodemonSignal();
        }
      } else if nodemonListening && signal == "SIGUSR2" {
        OnNodemonSignal();
        k := Done;
      } else {
        k := NoListener;
      }
    }

    /** A worker's 'listening' event. */
    method OnListening(os: Os) returns (k: Completion)
      modifies this
      ensures (Model(), k) == GracefulSpec.OnListening(old(Model()), os)
    {
      listeningWorkersCount := listeningWorkersCount + 1;
      k := CheckRestartQueue(os);
    }

    /** The 'message' listener `fork()` attaches to each worker. */
    method OnWorkerMessage(msg: Message, os: Os) returns (k: Completion)
      modifies this
      ensures (Model(), k) == GracefulSpec.OnWorkerMessage(old(Model()), msg, os)
    {
      k := Done;
      if msg.cmd == "restart" && Truthy(msg.pid) && msg.pid !in restartQueue {
        restartQueue := restartQueue + [msg.pid];
        k := CheckRestartQueue(os);
      }
    }

    /** The cluster's 'exit' event; Node drops the worker from
        `cluster.workers` before it emits the event (when a disconnect has
        not dropped it already). */
    method OnExit(pid: Pid)
      modifies this
      ensures Model() == GracefulSpec.OnExit(old(Model()), pid)
    {
      workers := Remove(workers, pid);
      running := Remove(running, pid);
      currentWorkersCount := currentWorkersCount - 1;
      listeningWorkersCount := listeningWorkersCount - 1;
      if !killSignalReceived {
        Fork();
      }
      if killSignalReceived && currentWorkersCount == 0 {
        if options.nodemon {
          log := log + [SelfSignal("SIGUSR2")];
        } else {
          log := log + [ExitProcess(0)];
        }
      }
    }

    /** One event, dispatched to its handler. */
    method Handle(e: Input) returns (k: Completion)
      modifies this
      ensures (Model(), k) == Step(old(Model()), e)
    {
      match e
      case WorkerListening(_, os) => k := OnListening(os);
      case WorkerExit(p, _) => OnExit(p); k := Done;
      case WorkerSends(_, msg, os) => k := OnWorkerMessage(msg, os);
      case SignalReceived(signal, os) => k := OnSignal(signal, os);
    }

    /** Events in order, until a handler throws and ends the master. */
    method Replay(es: seq<Input>)
      modifies this
      ensures Model() == Run(old(Model()), es)
    {
      var i := 0;
      while i < |es|
        invariant 0 <= i <= |es|
        invariant Run(Model(), es[i..]) == Run(old(Model()), es)
      {
        assert es[i..][1..] == es[i + 1..];
        var k := Handle(es[i]);
        if k.Threw? {
          return;
        }
        i := i + 1;
      }
    }
  }
}
