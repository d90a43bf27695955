/** The master side of server/graceful.js as a state machine over values.
    `Cluster` is a snapshot of a `GracefulCluster` (plus Node's
    `cluster.workers`, the workers that have not exited yet, and the pid the
    OS hands out next); there is one
    function per event handler, `Step` dispatches an `Input` to it, and `Run`
    replays a sequence of inputs. The class in Graceful is proved against
    these functions.

    The OS is an oracle: each input carries the outcome (`Os`) of every
    `worker.send` / `worker.disconnect` it may cause. */
module GracefulSpec {
  import opened Js

  type Pid = int

  const ESRCH := "ESRCH"
  const DEFAULT_SIGNAL := "SIGUSR2"

  /** The outcome of one `worker.send(...)` or `worker.disconnect()`. */
  datatype OsResult = Ok | Failed(code: string)

  /** The outcomes of sending `{cmd: 'disconnect'}` to a worker and then
      calling its `disconnect()`. */
  datatype Reply = Reply(send: OsResult, disconnect: OsResult)

  type Os = Pid -> Reply

  /** A message from a worker: `{cmd, pid}`. */
  datatype Message = Message(cmd: string, pid: Value)

  /** What the master does to the outside world, in order. */
  datatype Effect =
    | Forked(pid: Pid)            // cluster.fork()
    | SentDisconnect(pid: Pid)    // worker.send({cmd: 'disconnect'}) went through
    | Disconnected(pid: Pid)      // worker.disconnect() went through
    | ExitProcess(code: int)      // process.exit(code)
    | SelfSignal(signal: string)  // process.kill(process.pid, signal)

  /** An exception that escapes a handler, and so ends the master. */
  datatype Fault =
    | OsFault(code: string)       // a send or disconnect error rethrown
    | NoSuchWorker(pid: Value)    // `worker.send` on `undefined`: a TypeError

  /** How a handler ends; `NoListener` for a signal nobody listens to. */
  datatype Completion = Done | Threw(fault: Fault) | NoListener

  /** The options passed to `start`. Disabled numeric options are 0 (false). */
  datatype Options = Options(
    signal: Value,
    workersCount: int,
    shouldRestart: bool,
    nodemon: bool,
    restartOnMemory: int,
    restartOnTimeout: int,
    onDisconnect: Value)

  datatype Cluster = Cluster(
    options: Options,
    restartSignal: string,      // the validated restart signal (SIGUSR)
    nodemonListening: bool,     // the `process.once('SIGUSR2')` listener is still registered
    workers: seq<Pid>,          // cluster.workers, in fork order
    running: seq<Pid>,          // forked workers whose 'exit' has not come yet, in fork order
    nextPid: Pid,               // the pid the OS gives the next fork
    restartQueue: seq<Value>,
    killSignalReceived: bool,
    currentWorkersCount: int,
    listeningWorkersCount: int,
    log: seq<Effect>)

  /** The worker bookkeeping the supervisor keeps consistent: Node keeps in
      `cluster.workers` only workers that have not exited (it drops one
      earlier when the master's `disconnect()` goes through), and
      `currentWorkersCount` counts the workers that have not exited. */
  ghost predicate Inv(c: Cluster)
  {
    && c.nextPid > 0
    && (forall i :: 0 <= i < |c.running| ==> 0 < c.running[i] < c.nextPid)
    && Distinct(c.running)
    && Distinct(c.workers)
    && (forall p :: p in c.workers ==> p in c.running)
    && c.currentWorkersCount == |c.running|
  }

  /** `v` is the pid of a worker in `cluster.workers`. */
  predicate Live(c: Cluster, v: Value)
  {
    v.Number? && v.n in c.workers
  }

  /** `this.options.signal || 'SIGUSR2'`, replaced by 'SIGUSR2' unless it is
      one of the two user signals. */
  function ResolveSignal(signal: Value): (s: string)
    ensures s == "SIGUSR1" || s == "SIGUSR2"
    ensures s == "SIGUSR1" <==> signal == Str("SIGUSR1")
  {
    var v := Or(signal, Str(DEFAULT_SIGNAL));
    if v == Str("SIGUSR1") || v == Str("SIGUSR2") then v.s else DEFAULT_SIGNAL
  }

  /** `fork()`: a new worker with a fresh pid, counted by the 'fork' event. */
  function Fork(c: Cluster): (r: Cluster)
    ensures Inv(c) ==> Inv(r) && c.nextPid !in c.running && c.nextPid !in c.workers
    ensures r.workers == c.workers + [c.nextPid] && r.running == c.running + [c.nextPid]
    ensures r == c.(workers := r.workers, running := r.running, nextPid := c.nextPid + 1,
                    currentWorkersCount := c.currentWorkersCount + 1, log := c.log + [Forked(c.nextPid)])
  {
    FreshPid(c);
    c.(workers := c.workers + [c.nextPid], running := c.running + [c.nextPid], nextPid := c.nextPid + 1,
       currentWorkersCount := c.currentWorkersCount + 1, log := c.log + [Forked(c.nextPid)])
  }

  /** The OS never hands out the pid of a worker that has not exited. */
  lemma FreshPid(c: Cluster)
    ensures Inv(c) ==> c.nextPid !in c.running && c.nextPid !in c.workers
  {
  }

  /** The fork loop of `startMaster`: `n` workers, in order. */
  function ForkMany(c: Cluster, n: int): (r: Cluster)
    requires Inv(c)
    ensures Inv(r)
    ensures r.workers == c.workers + PidRange(c.nextPid, if n <= 0 then 0 else n)
    ensures r.running == c.running + PidRange(c.nextPid, if n <= 0 then 0 else n)
    ensures r.nextPid == c.nextPid + (if n <= 0 then 0 else n)
    ensures r == c.(workers := r.workers, running := r.running, nextPid := r.nextPid,
                    currentWorkersCount := r.currentWorkersCount, log := r.log)
    decreases n
  {
    if n <= 0 then c
    else
      var r := Fork(ForkMany(c, n - 1));
      PidRangeSnoc(c.nextPid, n - 1);
      r
  }

  /** from, from + 1, ..., from + n - 1 */
  function PidRange(from: Pid, n: nat): (r: seq<Pid>)
    ensures |r| == n && forall i :: 0 <= i < n ==> r[i] == from + i
    decreases n
  {
    if n == 0 then [] else [from] + PidRange(from + 1, n - 1)
  }

  lemma PidRangeSnoc(from: Pid, n: nat)
    ensures PidRange(from, n + 1) == PidRange(from, n) + [from + n]
  {
    assert PidRange(from, n + 1)[n] == from + n;
  }

  /** `startMaster()` right after `new GracefulCluster()`: resolve the
      restart signal, fork `workersCount` workers, register the listeners. */
  function StartMaster(options: Options, firstPid: Pid): (c: Cluster)
    requires firstPid > 0
    ensures Inv(c) && c.restartQueue == [] && !c.killSignalReceived && c.listeningWorkersCount == 0
    ensures |c.workers| == (if options.workersCount <= 0 then 0 else options.workersCount)
    ensures c.running == c.workers
  {
    var empty := Cluster(options, ResolveSignal(options.signal), options.nodemon, [], [], firstPid, [], false, 0, 0, []);
    ForkMany(empty, options.workersCount)
  }

  /** `worker.send({cmd: 'disconnect'})` then `worker.disconnect()`; the first
      failure stops the attempt and is returned. A `disconnect()` that goes
      through takes the worker out of `cluster.workers` at once (its 'exit'
      comes later). */
  function DisconnectWorker(c: Cluster, pid: Pid, rep: Reply): (r: (Cluster, OsResult))
    ensures r.0 == c.(log := r.0.log, workers := r.0.workers)
    ensures r.0.workers == if rep == Reply(Ok, Ok) then Remove(c.workers, pid) else c.workers
  {
    if rep.send.Failed? then (c, rep.send)
    else if rep.disconnect.Failed? then (c.(log := c.log + [SentDisconnect(pid)]), rep.disconnect)
    else (c.(log := c.log + [SentDisconnect(pid), Disconnected(pid)], workers := Remove(c.workers, pid)), Ok)
  }

  /** The log gained at most an attempt at disconnecting `pid`. */
  predicate DisconnectsOnly(before: seq<Effect>, after: seq<Effect>, pid: Pid)
  {
    after == before || after == before + [SentDisconnect(pid)]
    || after == before + [SentDisconnect(pid), Disconnected(pid)]
  }

  /** The gate of `checkRestartQueue`. */
  predicate Admits(c: Cluster)
  {
    |c.restartQueue| > 0 && c.listeningWorkersCount == c.options.workersCount
  }

  /** `checkRestartQueue()`: release the head of the queue only when as many
      workers listen as configured; an ESRCH error is swallowed, every other
      error (including a popped pid that is not in `cluster.workers`) is
      rethrown. A released worker leaves `cluster.workers`. */
  function CheckRestartQueue(c: Cluster, os: Os): (r: (Cluster, Completion))
    ensures !Admits(c) ==> r == (c, Done)
    ensures Admits(c) ==> r.0.restartQueue == c.restartQueue[1..]
    ensures r.0 == c.(restartQueue := r.0.restartQueue, log := r.0.log, workers := r.0.workers)
    ensures Admits(c) && Live(c, c.restartQueue[0]) ==> DisconnectsOnly(c.log, r.0.log, c.restartQueue[0].n)
    ensures Admits(c) && Live(c, c.restartQueue[0]) && os(c.restartQueue[0].n) == Reply(Ok, Ok) ==>
              && r.0.log == c.log + [SentDisconnect(c.restartQueue[0].n), Disconnected(c.restartQueue[0].n)] && r.1 == Done
              && r.0.workers == Remove(c.workers, c.restartQueue[0].n)
    ensures !(Admits(c) && Live(c, c.restartQueue[0]) && os(c.restartQueue[0].n) == Reply(Ok, Ok)) ==> r.0.workers == c.workers
    ensures Admits(c) && !Live(c, c.restartQueue[0]) ==> r.0.log == c.log && r.1 == Threw(NoSuchWorker(c.restartQueue[0]))
    ensures Admits(c) && Live(c, c.restartQueue[0]) && os(c.restartQueue[0].n).send == Failed(ESRCH) ==>
              r.0.log == c.log && r.1 == Done
    ensures Admits(c) && Live(c, c.restartQueue[0]) && os(c.restartQueue[0].n).send.Failed? && os(c.restartQueue[0].n).send.code != ESRCH ==>
              r.0.log == c.log && r.1 == Threw(OsFault(os(c.restartQueue[0].n).send.code))
    ensures Admits(c) && Live(c, c.restartQueue[0]) && os(c.restartQueue[0].n).send.Ok? && os(c.restartQueue[0].n).disconnect == Failed(ESRCH) ==>
              r.0.log == c.log + [SentDisconnect(c.restartQueue[0].n)] && r.1 == Done
    ensures Admits(c) && Live(c, c.restartQueue[0]) && os(c.restartQueue[0].n).send.Ok? && os(c.restartQueue[0].n).disconnect.Failed? && os(c.restartQueue[0].n).disconnect.code != ESRCH ==>
              r.0.log == c.log + [SentDisconnect(c.restartQueue[0].n)] && r.1 == Threw(OsFault(os(c.restartQueue[0].n).disconnect.code))
    ensures r.1 == Done || (r.1.Threw? && (r.1.fault.NoSuchWorker? || r.1.fault.code != ESRCH))
  {
    if Admits(c) then
      var head := c.restartQueue[0];
      var popped := c.(restartQueue := c.restartQueue[1..]);
      if Live(c, head) then
        var (released, res) := DisconnectWorker(popped, head.n, os(head.n));
        (released, if res.Failed? && res.code != ESRCH then Threw(OsFault(res.code)) else Done)
      else (popped, Threw(NoSuchWorker(head)))
    else (c, Done)
  }

  /** The effects of a fully successful SIGINT on workers `ws`. */
  function DisconnectEffects(ws: seq<Pid>): seq<Effect>
  {
    if ws == [] then [] else [SentDisconnect(ws[0]), Disconnected(ws[0])] + DisconnectEffects(ws[1..])
  }

  /** `k` is the first worker of `ws` whose send or disconnect fails. */
  predicate FirstFailure(ws: seq<Pid>, os: Os, k: int)
  {
    0 <= k < |ws| && os(ws[k]) != Reply(Ok, Ok) && forall j :: 0 <= j < k ==> os(ws[j]) == Reply(Ok, Ok)
  }

  /** The error code of a reply that failed: the send's, else the disconnect's. */
  function FailureCode(rep: Reply): string
  {
    if rep.send.Failed? then rep.send.code else if rep.disconnect.Failed? then rep.disconnect.code else ""
  }

  /** The `forEach` of the SIGINT listener over `ws`: send and disconnect
      each worker in turn; nothing is caught, so the first failure ends the
      loop. Each disconnected worker leaves `cluster.workers`. */
  function DisconnectAll(ws: seq<Pid>, c: Cluster, os: Os): (r: (Cluster, Completion))
    ensures r.1 == Done || (r.1.Threw? && r.1.fault.OsFault?)
    ensures r.0 == c.(log := r.0.log, workers := r.0.workers)
    ensures DisconnectsAmong(c.log, r.0.log, ws)
    decreases |ws|
  {
    if ws == [] then (c, Done)
    else
      var (c1, res) := DisconnectWorker(c, ws[0], os(ws[0]));
      if res.Failed? then (c1, Threw(OsFault(res.code)))
      else
        var r := DisconnectAll(ws[1..], c1, os);
        DisconnectsAmongTrans(c.log, c1.log, r.0.log, ws[0], ws);
        r
  }

  /** `after` is `before` followed by sends and disconnects to workers of `ws`. */
  predicate DisconnectsAmong(before: seq<Effect>, after: seq<Effect>, ws: seq<Pid>)
  {
    && |before| <= |after| && after[..|before|] == before
    && forall i :: |before| <= i < |after| ==> (after[i].SentDisconnect? || after[i].Disconnected?) && after[i].pid in ws
  }

  lemma DisconnectsAmongTrans(a: seq<Effect>, b: seq<Effect>, d: seq<Effect>, p: Pid, ws: seq<Pid>)
    requires ws != [] && p == ws[0]
    requires DisconnectsOnly(a, b, p) && DisconnectsAmong(b, d, ws[1..])
    ensures DisconnectsAmong(a, d, ws)
  {
    forall i | |b| <= i < |d| ensures d[i].pid in ws {
      assert d[i].pid in ws[1..];
    }
    assert d[..|a|] == d[..|b|][..|a|];
  }

  /** When every send and disconnect goes through, the loop disconnects every
      worker of `ws` in order, and nothing escapes. */
  lemma {:induction false} DisconnectAllSucceeds(ws: seq<Pid>, c: Cluster, os: Os)
    requires forall i :: 0 <= i < |ws| ==> os(ws[i]) == Reply(Ok, Ok)
    ensures DisconnectAll(ws, c, os).0.log == c.log + DisconnectEffects(ws)
    ensures DisconnectAll(ws, c, os).1 == Done
    decreases |ws|
  {
    if ws == [] {
      assert c.log + DisconnectEffects(ws) == c.log;
    } else {
      AllOkTail(ws, os);
      var c1 := DisconnectAllUnfold(ws, c, os);
      DisconnectAllSucceeds(ws[1..], c1, os);
      Regroup3(c.log, [SentDisconnect(ws[0]), Disconnected(ws[0])], DisconnectEffects(ws[1..]));
    }
  }

  /** When every send and disconnect goes through, the loop takes every
      worker of `ws` out of `cluster.workers`. */
  lemma {:induction false} DisconnectAllSucceedsWorkers(ws: seq<Pid>, c: Cluster, os: Os)
    requires forall i :: 0 <= i < |ws| ==> os(ws[i]) == Reply(Ok, Ok)
    ensures forall x :: x in DisconnectAll(ws, c, os).0.workers <==> x in c.workers && x !in ws
    decreases |ws|
  {
    if ws != [] {
      AllOkTail(ws, os);
      var c1 := DisconnectAllUnfold(ws, c, os);
      DisconnectAllSucceedsWorkers(ws[1..], c1, os);
      RemoveThenRest(c.workers, c1.workers, DisconnectAll(ws, c, os).0.workers, ws);
    }
  }

  /** Taking `ws[0]` out, then the rest of `ws`, takes out all of `ws`. */
  lemma RemoveThenRest(before: seq<Pid>, mid: seq<Pid>, after: seq<Pid>, ws: seq<Pid>)
    requires ws != [] && mid == Remove(before, ws[0])
    requires forall x :: x in after <==> x in mid && x !in ws[1..]
    ensures forall x :: x in after <==> x in before && x !in ws
  {
    MembersSplit(ws);
  }

  lemma AllOkTail(ws: seq<Pid>, os: Os)
    requires ws != [] && forall i :: 0 <= i < |ws| ==> os(ws[i]) == Reply(Ok, Ok)
    ensures os(ws[0]) == Reply(Ok, Ok)
    ensures forall i :: 0 <= i < |ws[1..]| ==> os(ws[1..][i]) == Reply(Ok, Ok)
  {
    forall i | 0 <= i < |ws[1..]| ensures os(ws[1..][i]) == Reply(Ok, Ok) {
      assert ws[1..][i] == ws[i + 1];
    }
  }

  lemma MembersSplit(ws: seq<Pid>)
    requires ws != []
    ensures forall x :: x in ws <==> x == ws[0] || x in ws[1..]
  {
    assert ws == [ws[0]] + ws[1..];
  }

  lemma Regroup3<T>(a: seq<T>, p: seq<T>, f: seq<T>)
    ensures (a + p) + f == a + (p + f)
  {
  }

  lemma Regroup<T>(a: seq<T>, p: seq<T>, f: seq<T>, t: seq<T>)
    ensures (a + p) + f + t == a + (p + f) + t
  {
  }

  /** One round of the loop on a worker whose send and disconnect go through. */
  lemma DisconnectAllUnfold(ws: seq<Pid>, c: Cluster, os: Os) returns (c1: Cluster)
    requires ws != [] && os(ws[0]) == Reply(Ok, Ok)
    ensures c1.log == c.log + [SentDisconnect(ws[0]), Disconnected(ws[0])]
    ensures c1.workers == Remove(c.workers, ws[0])
    ensures DisconnectAll(ws, c, os) == DisconnectAll(ws[1..], c1, os)
  {
    c1 := DisconnectWorker(c, ws[0], os(ws[0])).0;
  }

  lemma DisconnectEffectsPrefix(ws: seq<Pid>, k: int)
    requires 0 < k <= |ws|
    ensures DisconnectEffects(ws[..k]) == [SentDisconnect(ws[0]), Disconnected(ws[0])] + DisconnectEffects(ws[1..][..k - 1])
  {
    assert ws[..k][1..] == ws[1..][..k - 1];
  }

  lemma PrefixMembers(ws: seq<Pid>, k: int)
    requires 0 < k <= |ws|
    ensures forall x :: x in ws[..k] <==> x == ws[0] || x in ws[1..][..k - 1]
  {
    assert ws[..k] == [ws[0]] + ws[1..][..k - 1];
  }

  /** A worker whose send or disconnect fails ends the loop at once. */
  lemma DisconnectAllFirstFails(ws: seq<Pid>, c: Cluster, os: Os)
    requires ws != [] && os(ws[0]) != Reply(Ok, Ok)
    ensures DisconnectAll(ws, c, os) ==
      (c.(log := c.log + if os(ws[0]).send.Ok? then [SentDisconnect(ws[0])] else []),
       Threw(OsFault(FailureCode(os(ws[0])))))
  {
    if os(ws[0]).send.Failed? {
      assert c.log + [] == c.log;
    }
  }

  /** The loop stops at the first worker whose send or disconnect fails:
      the workers before it are fully disconnected, it has been sent the
      message only if the send went through, and that error escapes. */
  lemma {:induction false} DisconnectAllStops(ws: seq<Pid>, c: Cluster, os: Os, k: int)
    requires FirstFailure(ws, os, k)
    ensures var r := DisconnectAll(ws, c, os);
      && r.0.log == c.log + DisconnectEffects(ws[..k]) + (if os(ws[k]).send.Ok? then [SentDisconnect(ws[k])] else [])
      && r.1 == Threw(OsFault(FailureCode(os(ws[k]))))
    decreases |ws|
  {
    if k == 0 {
      DisconnectAllFirstFails(ws, c, os);
      assert ws[..0] == [] && c.log + DisconnectEffects([]) == c.log;
    } else {
      FirstFailureTail(ws, os, k);
      var c1 := DisconnectAllUnfold(ws, c, os);
      DisconnectAllStops(ws[1..], c1, os, k - 1);
      DisconnectEffectsPrefix(ws, k);
      Regroup(c.log, [SentDisconnect(ws[0]), Disconnected(ws[0])], DisconnectEffects(ws[1..][..k - 1]),
              if os(ws[k]).send.Ok? then [SentDisconnect(ws[k])] else []);
    }
  }

  lemma FirstFailureTail(ws: seq<Pid>, os: Os, k: int)
    requires FirstFailure(ws, os, k) && k > 0
    ensures os(ws[0]) == Reply(Ok, Ok) && FirstFailure(ws[1..], os, k - 1) && ws[1..][k - 1] == ws[k]
  {
    forall j | 0 <= j < k - 1 ensures os(ws[1..][j]) == Reply(Ok, Ok) {
      assert ws[1..][j] == ws[j + 1];
    }
  }

  /** When the loop stops at worker `k`, exactly the workers before it have
      left `cluster.workers`. */
  lemma {:induction false} DisconnectAllStopsWorkers(ws: seq<Pid>, c: Cluster, os: Os, k: int)
    requires FirstFailure(ws, os, k)
    ensures forall x :: x in DisconnectAll(ws, c, os).0.workers <==> x in c.workers && x !in ws[..k]
    decreases |ws|
  {
    if k == 0 {
      DisconnectAllFirstFails(ws, c, os);
    } else {
      FirstFailureTail(ws, os, k);
      var c1 := DisconnectAllUnfold(ws, c, os);
      DisconnectAllStopsWorkers(ws[1..], c1, os, k - 1);
      PrefixMembers(ws, k);
    }
  }

  /** Disconnecting only takes workers out of `cluster.workers`, and keeps
      their pids distinct. */
  lemma {:induction false} DisconnectAllShrinks(ws: seq<Pid>, c: Cluster, os: Os)
    requires Distinct(c.workers)
    ensures forall x :: x in DisconnectAll(ws, c, os).0.workers ==> x in c.workers
    ensures Distinct(DisconnectAll(ws, c, os).0.workers)
    decreases |ws|
  {
    if ws != [] {
      var (c1, res) := DisconnectWorker(c, ws[0], os(ws[0]));
      if !res.Failed? {
        RemoveDistinct(c.workers, ws[0]);
        DisconnectAllShrinks(ws[1..], c1, os);
      }
    }
  }

  /** The SIGINT listener: set the kill flag, then disconnect every worker of
      `Object.values(cluster.workers)`, a copy taken before the loop. */
  function OnSigint(c: Cluster, os: Os): (r: (Cluster, Completion))
    ensures r.0 == c.(killSignalReceived := true, log := r.0.log, workers := r.0.workers)
  {
    DisconnectAll(c.workers, c.(killSignalReceived := true), os)
  }

  function AsValues(ws: seq<Pid>): (r: seq<Value>)
    ensures |r| == |ws| && forall i :: 0 <= i < |ws| ==> r[i] == Number(ws[i])
  {
    if ws == [] then [] else [Number(ws[0])] + AsValues(ws[1..])
  }

  /** The restart-signal listener: queue the pid of every worker in
      `cluster.workers`, in order and
      without looking for duplicates, then try a release. */
  function OnRestartSignal(c: Cluster, os: Os): (Cluster, Completion)
  {
    CheckRestartQueue(c.(restartQueue := c.restartQueue + AsValues(c.workers)), os)
  }

  /** The nodemon `process.once('SIGUSR2')` listener. */
  function OnNodemonSignal(c: Cluster): Cluster
  {
    c.(killSignalReceived := true, nodemonListening := false)
  }

  /** A signal reaches the master; its listeners run in the order they were
      registered, and a listener that throws stops the rest. */
  function OnSignal(c: Cluster, signal: string, os: Os): (Cluster, Completion)
  {
    if c.options.shouldRestart && signal == "SIGINT" then OnSigint(c, os)
    else if c.options.shouldRestart && signal == c.restartSignal then
      var (c1, k) := OnRestartSignal(c, os);
      if !k.Threw? && c1.nodemonListening && signal == "SIGUSR2" then (OnNodemonSignal(c1), k) else (c1, k)
    else if c.nodemonListening && signal == "SIGUSR2" then (OnNodemonSignal(c), Done)
    else (c, NoListener)
  }

  /** A worker's 'listening' event. */
  function OnListening(c: Cluster, os: Os): (Cluster, Completion)
  {
    CheckRestartQueue(c.(listeningWorkersCount := c.listeningWorkersCount + 1), os)
  }

  /** Whether the 'message' listener of `fork()` queues `msg`. */
  predicate QueuesRestart(c: Cluster, msg: Message)
  {
    msg.cmd == "restart" && Truthy(msg.pid) && msg.pid !in c.restartQueue
  }

  /** A worker's message: a restart request with a truthy pid that is not
      queued yet is queued, then a release is tried. */
  function OnWorkerMessage(c: Cluster, msg: Message, os: Os): (Cluster, Completion)
  {
    if QueuesRestart(c, msg) then CheckRestartQueue(c.(restartQueue := c.restartQueue + [msg.pid]), os)
    else (c, Done)
  }

  predicate Distinct(ws: seq<Pid>)
  {
    forall i, j :: 0 <= i < j < |ws| ==> ws[i] != ws[j]
  }

  /** `ws` without `p`. */
  function Remove(ws: seq<Pid>, p: Pid): (r: seq<Pid>)
    ensures forall x :: x in r <==> x in ws && x != p
    ensures |r| <= |ws|
    ensures p !in ws ==> r == ws
  {
    if ws == [] then []
    else if ws[0] == p then Remove(ws[1..], p)
    else
      var rest := Remove(ws[1..], p);
      assert ws == [ws[0]] + ws[1..];
      [ws[0]] + rest
  }

  lemma {:induction false} RemoveDistinct(ws: seq<Pid>, p: Pid)
    requires Distinct(ws)
    ensures Distinct(Remove(ws, p))
    ensures p in ws ==> |Remove(ws, p)| == |ws| - 1
  {
    if ws != [] {
      assert Distinct(ws[1..]);
      RemoveDistinct(ws[1..], p);
      if ws[0] == p {
        assert p !in ws[1..] by {
          forall j | 0 <= j < |ws[1..]| ensures ws[1..][j] != p {
            assert ws[1..][j] == ws[j + 1];
          }
        }
      } else {
        var r := Remove(ws, p);
        var rest := Remove(ws[1..], p);
        assert r == [ws[0]] + rest;
        assert ws[0] !in rest;
        forall i, j | 0 <= i < j < |r| ensures r[i] != r[j] {
          if i == 0 {
            assert r[j] == rest[j - 1];
            assert r[j] in rest;
          } else {
            assert r[i] == rest[i - 1] && r[j] == rest[j - 1];
          }
        }
        assert p in ws ==> p in ws[1..];
      }
    }
  }

  /** The effect that ends the master once every worker is gone after a kill. */
  function EndEffect(c: Cluster): Effect
  {
    if c.options.nodemon then SelfSignal("SIGUSR2") else ExitProcess(0)
  }

  /** The cluster's 'exit' event for worker `pid`: the worker is gone (from
      `cluster.workers` too, if a disconnect has not taken it out already),
      both counters go down, whether or not that worker ever listened;
      without a kill signal a replacement is forked; with one, the master
      ends when no worker is left. */
  function OnExit(c: Cluster, pid: Pid): (r: Cluster)
    ensures r.listeningWorkersCount == c.listeningWorkersCount - 1
    ensures r.restartQueue == c.restartQueue && r.killSignalReceived == c.killSignalReceived
    ensures !c.killSignalReceived ==> r.log == c.log + [Forked(c.nextPid)]
    ensures !c.killSignalReceived ==> r.currentWorkersCount == c.currentWorkersCount
    ensures !c.killSignalReceived ==>
              r.running == Remove(c.running, pid) + [c.nextPid] && r.workers == Remove(c.workers, pid) + [c.nextPid]
    ensures c.killSignalReceived ==> r.currentWorkersCount == c.currentWorkersCount - 1
    ensures c.killSignalReceived ==> r.running == Remove(c.running, pid) && r.workers == Remove(c.workers, pid)
    ensures c.killSignalReceived && c.currentWorkersCount == 1 ==> r.log == c.log + [EndEffect(c)]
    ensures c.killSignalReceived && c.currentWorkersCount != 1 ==> r.log == c.log
  {
    var gone := c.(workers := Remove(c.workers, pid), running := Remove(c.running, pid),
                   currentWorkersCount := c.currentWorkersCount - 1,
                   listeningWorkersCount := c.listeningWorkersCount - 1);
    var next := if !gone.killSignalReceived then Fork(gone) else gone;
    if next.killSignalReceived && next.currentWorkersCount == 0 then next.(log := next.log + [EndEffect(c)])
    else next
  }

  // ---- replaying events ----

  datatype Input =
    | WorkerListening(pid: Pid, os: Os)
    | WorkerExit(pid: Pid, code: int)
    | WorkerSends(pid: Pid, msg: Message, os: Os)
    | SignalReceived(signal: string, os: Os)

  /** Only workers that have not exited listen, exit or send messages. */
  predicate Admissible(c: Cluster, e: Input)
  {
    match e
    case WorkerListening(p, _) => p in c.running
    case WorkerExit(p, _) => p in c.running
    case WorkerSends(p, _, _) => p in c.running
    case SignalReceived(_, _) => true
  }

  function Step(c: Cluster, e: Input): (Cluster, Completion)
  {
    match e
    case WorkerListening(_, os) => OnListening(c, os)
    case WorkerExit(p, _) => (OnExit(c, p), Done)
    case WorkerSends(_, msg, os) => OnWorkerMessage(c, msg, os)
    case SignalReceived(signal, os) => OnSignal(c, signal, os)
  }

  /** The state after `es`; a handler that throws ends the master, and with it the run. */
  function Run(c: Cluster, es: seq<Input>): Cluster
    decreases |es|
  {
    if es == [] then c
    else
      var (c1, k) := Step(c, es[0]);
      if k.Threw? then c1 else Run(c1, es[1..])
  }

  ghost predicate AdmissibleRun(c: Cluster, es: seq<Input>)
    decreases |es|
  {
    es == [] ||
    (Admissible(c, es[0]) &&
     var (c1, k) := Step(c, es[0]);
     k.Threw? || AdmissibleRun(c1, es[1..]))
  }
}
